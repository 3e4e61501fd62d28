/** The burst thresholds and the rolling truncation gate of `sync_engine.py`. */
module TruncationWindow {

  const MASS_CHANGE_FLOOR: nat := 25
  const WINDOW: real := 60.0

  /** `int(0.1 * n)` is `n / 10`. */
  function MassChangeThreshold(membership: nat): nat {
    if membership / 10 > MASS_CHANGE_FLOOR then membership / 10 else MASS_CHANGE_FLOOR
  }

  /** One truncation that was let through: when, and under which limit. */
  datatype Allowed = Allowed(time: real, limit: nat)

  ghost predicate Sorted(h: seq<Allowed>) {
    forall i, j :: 0 <= i <= j < |h| ==> h[i].time <= h[j].time
  }

  /** The times in `h` not before `cutoff`. */
  function Since(h: seq<Allowed>, cutoff: real): seq<real> {
    if h == [] then []
    else if h[0].time < cutoff then Since(h[1..], cutoff)
    else [h[0].time] + Since(h[1..], cutoff)
  }

  function DropOld(times: seq<real>, cutoff: real): seq<real> {
    if times != [] && times[0] < cutoff then DropOld(times[1..], cutoff) else times
  }

  lemma {:induction false} SinceAll(h: seq<Allowed>, c: real, d: real)
    requires Sorted(h) && (h != [] ==> c <= h[0].time && d <= h[0].time)
    ensures Since(h, c) == Since(h, d)
  {
    if h != [] {
      SinceAll(h[1..], c, d);
    }
  }

  /** Popping stale times off an already filtered deque filters the whole history again. */
  lemma {:induction false} DropSince(h: seq<Allowed>, c: real, d: real)
    requires Sorted(h) && c <= d
    ensures DropOld(Since(h, c), d) == Since(h, d)
  {
    if h != [] {
      if h[0].time < d {
        DropSince(h[1..], c, d);
        if c <= h[0].time {
          assert Since(h, c)[1..] == Since(h[1..], c);
        }
      } else {
        SinceAll(h, c, d);
      }
    }
  }

  lemma {:induction false} SinceAppend(h: seq<Allowed>, a: Allowed, c: real)
    ensures Since(h + [a], c) == Since(h, c) + (if a.time < c then [] else [a.time])
  {
    if h == [] {
      assert h + [a] == [a] && [a][1..] == [];
    } else {
      assert (h + [a])[1..] == h[1..] + [a];
      SinceAppend(h[1..], a, c);
    }
  }

  /** Each entry was let through while fewer than its limit lay in the minute before it. */
  ghost predicate Admitted(h: seq<Allowed>) {
    forall j :: 0 <= j < |h| ==> |Since(h[..j], h[j].time - WINDOW)| < h[j].limit
  }

  lemma AdmitOne(h: seq<Allowed>, a: Allowed)
    requires Sorted(h) && Admitted(h) && |Since(h, a.time - WINDOW)| < a.limit
    requires forall i :: 0 <= i < |h| ==> h[i].time <= a.time
    ensures Sorted(h + [a]) && Admitted(h + [a])
  {
    forall j | 0 <= j < |h + [a]|
      ensures |Since((h + [a])[..j], (h + [a])[j].time - WINDOW)| < (h + [a])[j].limit
    {
      assert (h + [a])[..j] == h[..j];
      assert h[..|h|] == h;
    }
  }

  datatype Verdict = Verdict(gated: bool, recent: seq<real>)

  /** One question to the gate: what it answers, and the deque afterwards. */
  function Asked(recent: seq<real>, now: real, limit: nat): Verdict {
    var kept := DropOld(recent, now - WINDOW);
    if |kept| >= limit then Verdict(true, kept) else Verdict(false, kept + [now])
  }

  /** The loop of `_gates_truncation`. */
  method Ask(recent: seq<real>, now: real, limit: nat) returns (v: Verdict)
    ensures v == Asked(recent, now, limit)
  {
    var kept, cutoff := recent, now - WINDOW;
    while kept != [] && kept[0] < cutoff
      invariant DropOld(kept, cutoff) == DropOld(recent, cutoff)
    {
      kept := kept[1..];
    }
    v := if |kept| >= limit then Verdict(true, kept) else Verdict(false, kept + [now]);
  }

  /** The deque stands for this history: at any time from `clock` on it filters to the same last minute. */
  ghost predicate Keeps(recent: seq<real>, h: seq<Allowed>, clock: real) {
    && Sorted(h) && Admitted(h)
    && (forall i :: 0 <= i < |h| ==> h[i].time <= clock)
    && (forall d: real :: clock - WINDOW <= d ==> DropOld(recent, d) == Since(h, d))
  }

  function Grown(h: seq<Allowed>, now: real, limit: nat, gated: bool): seq<Allowed> {
    if gated then h else h + [Allowed(now, limit)]
  }

  /**
   * The gate refuses exactly when the history holds the limit within the last
   * minute, and the deque goes on standing for the history.
   */
  lemma AskedKeeps(recent: seq<real>, h: seq<Allowed>, clock: real, now: real, limit: nat)
    requires Keeps(recent, h, clock) && clock <= now
    ensures Asked(recent, now, limit).gated <==> |Since(h, now - WINDOW)| >= limit
    ensures Keeps(Asked(recent, now, limit).recent, Grown(h, now, limit, Asked(recent, now, limit).gated), now)
  {
    var cutoff, v := now - WINDOW, Asked(recent, now, limit);
    assert DropOld(recent, cutoff) == Since(h, cutoff);
    if !v.gated {
      SinceAppend(h, Allowed(now, limit), cutoff);
      AdmitOne(h, Allowed(now, limit));
    }
    var grown := Grown(h, now, limit, v.gated);
    assert v.recent == Since(grown, cutoff);
    forall d: real | cutoff <= d
      ensures DropOld(v.recent, d) == Since(grown, d)
    {
      DropSince(grown, cutoff, d);
    }
  }

  lemma LaterKeeps(recent: seq<real>, h: seq<Allowed>, clock: real, now: real)
    requires Keeps(recent, h, clock) && clock <= now
    ensures Keeps(recent, h, now)
  {
  }

  class Gate {
    var recent: seq<real>
    /** Every truncation ever let through, and the time of the last call. */
    ghost var history: seq<Allowed>
    ghost var clock: real

    ghost predicate Valid()
      reads this
    {
      Keeps(recent, history, clock)
    }

    constructor (now: real)
      ensures Valid() && history == [] && clock == now
    {
      recent, history, clock := [], [], now;
    }

    /** Returns whether the truncation is refused; the deque stays the history of the last minute. */
    method Gates(now: real, limit: nat) returns (gated: bool)
      requires Valid() && clock <= now
      modifies this
      ensures Valid() && clock == now
      ensures gated <==> |Since(old(history), now - WINDOW)| >= limit
      ensures history == Grown(old(history), now, limit, gated)
      ensures recent == Since(history, now - WINDOW)
    {
      var v := Ask(recent, now, limit);
      AskedKeeps(recent, history, clock, now, limit);
      history := Grown(history, now, limit, v.gated);
      recent, gated, clock := v.recent, v.gated, now;
      assert DropOld(recent, now - WINDOW) == recent by { DropOldTwice(old(recent), now - WINDOW, now); }
    }
  }

  lemma {:induction false} DropOldTwice(times: seq<real>, cutoff: real, now: real)
    requires cutoff <= now
    ensures DropOld(DropOld(times, cutoff), cutoff) == DropOld(times, cutoff)
    ensures DropOld(DropOld(times, cutoff) + [now], cutoff) == DropOld(times, cutoff) + [now]
  {
    if times != [] && times[0] < cutoff {
      DropOldTwice(times[1..], cutoff, now);
    }
  }

  /** How many entries lie in the closed window [lo, hi]. */
  function CountIn(h: seq<Allowed>, lo: real, hi: real): nat {
    if h == [] then 0
    else CountIn(h[..|h| - 1], lo, hi) + (if lo <= h[|h| - 1].time <= hi then 1 else 0)
  }

  lemma {:induction false} CountBySince(h: seq<Allowed>, lo: real, hi: real, c: real)
    requires c <= lo
    ensures CountIn(h, lo, hi) <= |Since(h, c)|
  {
    if h != [] {
      var front := h[..|h| - 1];
      CountBySince(front, lo, hi, c);
      assert front + [h[|h| - 1]] == h;
      SinceAppend(front, h[|h| - 1], c);
    }
  }

  lemma {:induction false} CountUpTo(h: seq<Allowed>, lo: real, hi: real, j: nat)
    requires j < |h| && forall k :: j < k < |h| ==> !(lo <= h[k].time <= hi)
    ensures CountIn(h, lo, hi) == CountIn(h[..j + 1], lo, hi)
  {
    if |h| == j + 1 {
      assert h[..j + 1] == h;
    } else {
      var front := h[..|h| - 1];
      CountUpTo(front, lo, hi, j);
      assert front[..j + 1] == h[..j + 1];
    }
  }

  /** Any closed minute holds at most as many truncations as the limit in force at its last one. */
  lemma WindowBound(h: seq<Allowed>, start: real, last: nat)
    requires Admitted(h) && last < |h|
    requires start <= h[last].time <= start + WINDOW
    requires forall k :: last < k < |h| ==> !(start <= h[k].time <= start + WINDOW)
    ensures CountIn(h, start, start + WINDOW) <= h[last].limit
  {
    CountUpTo(h, start, start + WINDOW, last);
    var upTo := h[..last + 1];
    assert upTo[..last] == h[..last];
    CountBySince(h[..last], start, start + WINDOW, h[last].time - WINDOW);
  }
}
