/**
 * `_push_to_remote` and the pull it falls back to (`persistence.py`), for a
 * branch with a usable upstream. Other pushers act between any two steps.
 */
module PushRecovery {
  import opened CommitGraph

  /** Local tip, remote-tracking ref and the remote's tip, over all commits anyone has made. */
  datatype Sync = Sync(graph: Graph, local: nat, tracking: nat, remote: nat)

  ghost predicate Valid(s: Sync) {
    WellFormed(s.graph) && s.local < |s.graph| && s.tracking < |s.graph| && s.remote < |s.graph|
  }

  /** Pushes by others: each puts a commit on top of the remote tip of its moment. */
  ghost predicate Landing(s: Sync, pushes: seq<Commit>)
    requires Valid(s)
    decreases |pushes|
  {
    pushes != [] ==>
      && s.remote in pushes[0].parents
      && (forall i :: 0 <= i < |pushes[0].parents| ==> pushes[0].parents[i] < |s.graph|)
      && Landing(Landed(s, pushes[0]), pushes[1..])
  }

  function Landed(s: Sync, c: Commit): (t: Sync)
    requires Valid(s) && forall i :: 0 <= i < |c.parents| ==> c.parents[i] < |s.graph|
    ensures Valid(t)
  {
    s.(graph := s.graph + [c], remote := |s.graph|)
  }

  function AllLanded(s: Sync, pushes: seq<Commit>): (t: Sync)
    requires Valid(s) && Landing(s, pushes)
    ensures Valid(t) && s.graph <= t.graph && t.local == s.local && t.tracking == s.tracking
    ensures pushes == [] ==> t == s
    decreases |pushes|
  {
    if pushes == [] then s else AllLanded(Landed(s, pushes[0]), pushes[1..])
  }

  function Fetched(s: Sync): Sync { s.(tracking := s.remote) }

  /** A push goes through only as a fast-forward; nothing is ever forced. */
  predicate Accepted(s: Sync)
    requires Valid(s)
  {
    Ancestor(s.graph, s.remote, s.local)
  }

  function Pushed(s: Sync): Sync
    requires Valid(s)
  {
    if Accepted(s) then s.(remote := s.local, tracking := s.local) else s
  }

  /** `rev_list tracking..local` below commit `n`, oldest first. */
  function Only(g: Graph, tip: nat, base: nat, n: nat): (cs: seq<nat>)
    requires WellFormed(g) && tip < |g| && base < |g| && n <= |g|
    ensures forall i :: 0 <= i < |cs| ==> cs[i] < n
  {
    if n == 0 then []
    else Only(g, tip, base, n - 1)
         + (if Ancestor(g, n - 1, tip) && !Ancestor(g, n - 1, base) then [n - 1] else [])
  }

  function Ahead(s: Sync): nat
    requires Valid(s)
  {
    |Only(s.graph, s.local, s.tracking, |s.graph|)|
  }

  function Behind(s: Sync): nat
    requires Valid(s)
  {
    |Only(s.graph, s.tracking, s.local, |s.graph|)|
  }

  /** Copies the given commits, one after another, on top of `tip`. */
  function Replayed(g: Graph, tip: nat, cs: seq<nat>): (r: (Graph, nat))
    requires WellFormed(g) && tip < |g| && forall i :: 0 <= i < |cs| ==> cs[i] < |g|
    ensures WellFormed(r.0) && g <= r.0 && r.1 < |r.0|
  {
    if cs == [] then (g, tip)
    else
      var front := Replayed(g, tip, cs[..|cs| - 1]);
      (front.0 + [Commit([front.1], front.0[cs[|cs| - 1]].change)], |front.0|)
  }

  /** A rebase without conflicts of the local branch onto the tracking ref. */
  function Rebased(s: Sync): (t: Sync)
    requires Valid(s)
    ensures Valid(t) && s.graph <= t.graph && t.remote == s.remote && t.tracking == s.tracking
  {
    var (g, tip) := Replayed(s.graph, s.tracking, Only(s.graph, s.local, s.tracking, |s.graph|));
    s.(graph := g, local := tip)
  }

  /**
   * What others push between the steps: before the first push, before the fetch,
   * before the pull's own fetch, before the retry.
   */
  datatype Others = Others(first: seq<Commit>, beforeFetch: seq<Commit>, duringPull: seq<Commit>,
                           beforeRetry: seq<Commit>)

  /** After the first push was rejected: the state when the pull compares, and the state when it ends. */
  function Compared(s: Sync, pushes: seq<Commit>): (t: Sync)
    requires Valid(s) && Landing(s, pushes)
    ensures Valid(t)
  {
    Fetched(AllLanded(s, pushes))
  }

  /**
   * How the rebase ends: cleanly, or after conflicts, a merge instead, or an
   * error, of which nothing is known but the history and local tip it leaves.
   */
  datatype Rebase = Clean | Unclean(graph: Graph, local: nat)

  /** No way of ending takes commits out of the history. */
  ghost predicate Ends(s: Sync, how: Rebase) {
    how.Unclean? ==> WellFormed(how.graph) && s.graph <= how.graph && how.local < |how.graph|
  }

  function Ended(s: Sync, how: Rebase): (t: Sync)
    requires Valid(s) && Ends(s, how)
    ensures Valid(t) && s.graph <= t.graph && t.remote == s.remote && t.tracking == s.tracking
  {
    match how
    case Clean => Rebased(s)
    case Unclean(g, tip) => s.(graph := g, local := tip)
  }

  /** Others can push what they push during the pull, and the rebase can end as it does. */
  ghost predicate Pullable(s: Sync, pushes: seq<Commit>, how: Rebase)
    requires Valid(s)
  {
    Behind(s) > 0 ==> Landing(s, pushes) && (Ahead(s) > 0 ==> Ends(Fetched(AllLanded(s, pushes)), how))
  }

  function Pulled(s: Sync, pushes: seq<Commit>, how: Rebase): (t: Sync)
    requires Valid(s) && Pullable(s, pushes, how)
    ensures Valid(t)
  {
    if Behind(s) == 0 then s
    else
      var t := Fetched(AllLanded(s, pushes));
      if Ahead(s) > 0 then Ended(t, how)
      else if Ancestor(t.graph, t.local, t.tracking) then t.(local := t.tracking)
      else t
  }

  /** The others' pushes are possible at the moments they happen. */
  ghost predicate Possible(s: Sync, o: Others, how: Rebase)
    requires Valid(s)
  {
    && Landing(s, o.first)
    && var s1 := AllLanded(s, o.first);
       (!Accepted(s1) ==>
          && Landing(s1, o.beforeFetch)
          && var s2 := Compared(s1, o.beforeFetch);
             Pullable(s2, o.duringPull, how) && Landing(Pulled(s2, o.duringPull, how), o.beforeRetry))
  }

  class PushClient {
    var graph: Graph
    var local: nat
    var tracking: nat
    var remote: nat

    ghost function View(): Sync
      reads this
    {
      Sync(graph, local, tracking, remote)
    }

    constructor (s: Sync)
      ensures View() == s
    {
      graph, local, tracking, remote := s.graph, s.local, s.tracking, s.remote;
    }

    method OthersPush(pushes: seq<Commit>)
      requires Valid(View()) && Landing(View(), pushes)
      modifies this
      ensures View() == AllLanded(old(View()), pushes)
    {
      for i := 0 to |pushes|
        invariant Valid(View()) && Landing(View(), pushes[i..])
        invariant AllLanded(View(), pushes[i..]) == AllLanded(old(View()), pushes)
      {
        assert pushes[i..][1..] == pushes[i + 1..];
        graph, remote := graph + [pushes[i]], |graph|;
      }
    }

    method Push() returns (ok: bool)
      requires Valid(View())
      modifies this
      ensures ok == Accepted(old(View())) && View() == Pushed(old(View()))
    {
      ok := Ancestor(graph, remote, local);
      if ok {
        remote, tracking := local, local;
      }
    }

    method Pull(duringPull: seq<Commit>, how: Rebase)
      requires Valid(View()) && Pullable(Fetched(View()), duringPull, how)
      modifies this
      ensures View() == Pulled(Fetched(old(View())), duringPull, how)
    {
      tracking := remote;
      var behind := |Only(graph, tracking, local, |graph|)|;
      var ahead := |Only(graph, local, tracking, |graph|)|;
      if behind > 0 {
        OthersPush(duringPull);
        tracking := remote;
        if ahead > 0 {
          if how.Clean? {
            var (g, tip) := Replayed(graph, tracking, Only(graph, local, tracking, |graph|));
            graph, local := g, tip;
          } else {
            graph, local := how.graph, how.local;
          }
        } else if Ancestor(graph, local, tracking) {
          local := tracking;
        }
      }
    }

    /** `_push_to_remote`: push; when rejected pull and push once more, never forcing. */
    method PushToRemote(o: Others, how: Rebase)
      requires Valid(View()) && Possible(View(), o, how)
      modifies this
      ensures View() == Synced(old(View()), o, how)
    {
      OthersPush(o.first);
      var ok := Push();
      if !ok {
        OthersPush(o.beforeFetch);
        Pull(o.duringPull, how);
        OthersPush(o.beforeRetry);
        ok := Push();
      }
    }
  }

  function Synced(s: Sync, o: Others, how: Rebase): Sync
    requires Valid(s) && Possible(s, o, how)
  {
    var s1 := AllLanded(s, o.first);
    if Accepted(s1) then Pushed(s1)
    else Pushed(AllLanded(Pulled(Compared(s1, o.beforeFetch), o.duringPull, how), o.beforeRetry))
  }

  /** A push of a descendant moves the remote and the tracking ref to the local tip; any other changes nothing. */
  lemma PushMoves(s: Sync)
    requires Valid(s)
    ensures Ancestor(s.graph, s.remote, s.local) ==> Pushed(s) == Sync(s.graph, s.local, s.local, s.local)
    ensures !Ancestor(s.graph, s.remote, s.local) ==> Pushed(s) == s
  {
  }

  // ----- what a synchronisation achieves -----

  /** `t` can follow `s`: history grew and the remote only moved to a descendant. */
  ghost predicate Advances(s: Sync, t: Sync) {
    Valid(s) && Valid(t) && s.graph <= t.graph && Ancestor(t.graph, s.remote, t.remote)
  }

  lemma AdvancesTransitive(s: Sync, t: Sync, u: Sync)
    requires Advances(s, t) && Advances(t, u)
    ensures Advances(s, u)
  {
    AncestorStable(t.graph, u.graph, s.remote, t.remote);
    AncestorTransitive(u.graph, s.remote, t.remote, u.remote);
  }

  lemma {:induction false} LandedAdvances(s: Sync, pushes: seq<Commit>)
    requires Valid(s) && Landing(s, pushes)
    ensures Advances(s, AllLanded(s, pushes))
    decreases |pushes|
  {
    if pushes != [] {
      var t := Landed(s, pushes[0]);
      var i :| 0 <= i < |pushes[0].parents| && pushes[0].parents[i] == s.remote;
      assert Ancestor(t.graph, s.remote, t.graph[t.remote].parents[i]);
      LandedAdvances(t, pushes[1..]);
      AdvancesTransitive(s, t, AllLanded(s, pushes));
    }
  }

  lemma PulledAdvances(s: Sync, pushes: seq<Commit>, how: Rebase)
    requires Valid(s) && Pullable(s, pushes, how)
    ensures Advances(s, Pulled(s, pushes, how))
  {
    if Behind(s) > 0 {
      var t := AllLanded(s, pushes);
      LandedAdvances(s, pushes);
      AncestorStable(t.graph, Pulled(s, pushes, how).graph, s.remote, t.remote);
    }
  }

  /** Whatever others do, and however the pull ends, the remote tip only moves to descendants. */
  lemma RemoteOnlyAdvances(s: Sync, o: Others, how: Rebase)
    requires Valid(s) && Possible(s, o, how)
    ensures Advances(s, Synced(s, o, how))
  {
    var s1 := AllLanded(s, o.first);
    LandedAdvances(s, o.first);
    if Accepted(s1) {
      AdvancesTransitive(s, s1, Pushed(s1));
    } else {
      var s2 := AllLanded(s1, o.beforeFetch);
      var s3 := Pulled(Fetched(s2), o.duringPull, how);
      var s4 := AllLanded(s3, o.beforeRetry);
      LandedAdvances(s1, o.beforeFetch);
      PulledAdvances(Fetched(s2), o.duringPull, how);
      LandedAdvances(s3, o.beforeRetry);
      AdvancesTransitive(s, s1, s2);
      AdvancesTransitive(s, s2, s3);
      AdvancesTransitive(s, s3, s4);
      AdvancesTransitive(s, s4, Pushed(s4));
    }
  }

  /** Everything below `n` that `tip` reaches, `base` reaches too. */
  ghost predicate Contained(g: Graph, tip: nat, base: nat, n: nat)
    requires WellFormed(g) && tip < |g| && base < |g|
  {
    forall c: nat :: c < n && Ancestor(g, c, tip) ==> Ancestor(g, c, base)
  }

  lemma ContainedStep(g: Graph, tip: nat, base: nat, n: nat)
    requires WellFormed(g) && tip < |g| && base < |g|
    ensures Contained(g, tip, base, n + 1) <==>
            Contained(g, tip, base, n) && (Ancestor(g, n, tip) ==> Ancestor(g, n, base))
  {
    if Contained(g, tip, base, n) && (Ancestor(g, n, tip) ==> Ancestor(g, n, base)) {
      forall c: nat | c < n + 1 && Ancestor(g, c, tip)
        ensures Ancestor(g, c, base)
      {
        if c < n { assert Ancestor(g, c, base); }
      }
    }
  }

  lemma {:induction false} OnlyEmpty(g: Graph, tip: nat, base: nat, n: nat)
    requires WellFormed(g) && tip < |g| && base < |g| && n <= |g|
    ensures Only(g, tip, base, n) == [] <==> Contained(g, tip, base, n)
  {
    if n > 0 {
      OnlyEmpty(g, tip, base, n - 1);
      ContainedStep(g, tip, base, n - 1);
    }
  }

  /** Nothing is listed exactly when the tip is already contained. */
  lemma NothingMissing(g: Graph, tip: nat, base: nat)
    requires WellFormed(g) && tip < |g| && base < |g|
    ensures Only(g, tip, base, |g|) == [] <==> Ancestor(g, tip, base)
  {
    OnlyEmpty(g, tip, base, |g|);
    assert Ancestor(g, tip, tip);
    if Ancestor(g, tip, base) {
      forall c: nat | c < |g| && Ancestor(g, c, tip)
        ensures Ancestor(g, c, base)
      {
        AncestorTransitive(g, c, tip, base);
      }
    }
  }

  lemma {:induction false} ReplayedDescends(g: Graph, tip: nat, cs: seq<nat>)
    requires WellFormed(g) && tip < |g| && forall i :: 0 <= i < |cs| ==> cs[i] < |g|
    ensures Ancestor(Replayed(g, tip, cs).0, tip, Replayed(g, tip, cs).1)
  {
    if cs != [] {
      var front := Replayed(g, tip, cs[..|cs| - 1]);
      var r := Replayed(g, tip, cs);
      ReplayedDescends(g, tip, cs[..|cs| - 1]);
      AncestorStable(front.0, r.0, tip, front.1);
      assert Ancestor(r.0, tip, r.0[r.1].parents[0]);
    }
  }

  /** The commits only the tip reaches: each of them once, oldest first. */
  lemma {:induction false} OnlyIs(g: Graph, tip: nat, base: nat, n: nat, c: nat)
    requires WellFormed(g) && tip < |g| && base < |g| && n <= |g|
    ensures c in Only(g, tip, base, n) <==> c < n && Ancestor(g, c, tip) && !Ancestor(g, c, base)
    ensures forall i, j :: 0 <= i < j < |Only(g, tip, base, n)| ==> Only(g, tip, base, n)[i] < Only(g, tip, base, n)[j]
  {
    if n > 0 {
      OnlyIs(g, tip, base, n - 1, c);
    }
  }

  /** Each replayed commit adds its change to the one before it, the first one to the tip, and to nothing else. */
  lemma {:induction false} ReplayedAt(g: Graph, tip: nat, cs: seq<nat>, k: nat)
    requires WellFormed(g) && tip < |g| && (forall i :: 0 <= i < |cs| ==> cs[i] < |g|) && k < |cs|
    ensures var (h, last) := Replayed(g, tip, cs);
            && |h| == |g| + |cs| && last == |h| - 1
            && h[|g| + k] == Commit([if k == 0 then tip else |g| + k - 1], g[cs[k]].change)
  {
    var front := cs[..|cs| - 1];
    if k < |front| {
      ReplayedAt(g, tip, front, k);
    } else if k > 0 {
      ReplayedAt(g, tip, front, k - 1);
    }
  }

  /** A rejected push means the pull will find something to fetch, whoever pushed in between. */
  lemma RejectedIsBehind(s: Sync, pushes: seq<Commit>)
    requires Valid(s) && Landing(s, pushes) && !Accepted(s)
    ensures Behind(Compared(s, pushes)) > 0
  {
    var t := Compared(s, pushes);
    LandedAdvances(s, pushes);
    NothingMissing(t.graph, t.tracking, t.local);
    if Ancestor(t.graph, t.tracking, t.local) {
      AncestorTransitive(t.graph, s.remote, t.tracking, t.local);
      AncestorStable(s.graph, t.graph, s.remote, s.local);
    }
  }

  /** A rebase that ends with the fetched remote contained in the local branch; a clean one does. */
  ghost predicate TakesRemote(s: Sync, how: Rebase)
    requires Valid(s) && Ends(s, how)
  {
    how.Unclean? ==> Ancestor(how.graph, s.tracking, how.local)
  }

  /** The pull comes to no rebase, or to one that takes the remote in. */
  ghost predicate PullTakesRemote(s: Sync, pushes: seq<Commit>, how: Rebase)
    requires Valid(s) && Pullable(s, pushes, how)
  {
    Behind(s) > 0 && Ahead(s) > 0 ==> TakesRemote(Fetched(AllLanded(s, pushes)), how)
  }

  /** The remote as last fetched is contained in the local branch iff the pull took it in. */
  lemma PulledContainsRemote(s: Sync, pushes: seq<Commit>, how: Rebase)
    requires Valid(s) && Behind(s) > 0 && Pullable(s, pushes, how) && s.tracking == s.remote
    ensures Accepted(Pulled(s, pushes, how)) <==> PullTakesRemote(s, pushes, how)
  {
    var landed := AllLanded(s, pushes);
    var t := Fetched(landed);
    LandedAdvances(s, pushes);
    if Ahead(s) > 0 {
      ReplayedDescends(t.graph, t.tracking, Only(t.graph, t.local, t.tracking, |t.graph|));
    } else {
      NothingMissing(s.graph, s.local, s.tracking);
      AncestorStable(s.graph, t.graph, s.local, s.remote);
      AncestorTransitive(t.graph, s.local, s.remote, t.remote);
    }
  }

  /**
   * If nobody pushes after the recovery pull's last fetch, the local tip reaches
   * the remote, however many pushes came earlier, if and only if the first push
   * went through or the pull took the remote in.
   */
  lemma TipReachesRemoteIff(s: Sync, o: Others, how: Rebase)
    requires Valid(s) && Possible(s, o, how) && o.beforeRetry == []
    ensures var s1 := AllLanded(s, o.first);
            Synced(s, o, how).remote == Synced(s, o, how).local <==>
            (Accepted(s1) || PullTakesRemote(Compared(s1, o.beforeFetch), o.duringPull, how))
  {
    var s1 := AllLanded(s, o.first);
    if !Accepted(s1) {
      RejectedIsBehind(s1, o.beforeFetch);
      PulledContainsRemote(Compared(s1, o.beforeFetch), o.duringPull, how);
    }
  }

  /** So with a clean rebase it always does. */
  lemma TipReachesRemote(s: Sync, o: Others)
    requires Valid(s) && Possible(s, o, Clean) && o.beforeRetry == []
    ensures Synced(s, o, Clean).remote == Synced(s, o, Clean).local
  {
    TipReachesRemoteIff(s, o, Clean);
  }

  // ----- no local change is lost -----

  ghost predicate Carries(g: Graph, tip: nat, change: nat)
    requires WellFormed(g) && tip < |g|
  {
    exists c: nat :: c < |g| && g[c].change == change && Ancestor(g, c, tip)
  }

  lemma CarriesUp(g: Graph, h: Graph, a: nat, b: nat, change: nat)
    requires WellFormed(g) && WellFormed(h) && g <= h && a < |g| && b < |h|
    requires Carries(g, a, change) && Ancestor(h, a, b)
    ensures Carries(h, b, change)
  {
    var c: nat :| c < |g| && g[c].change == change && Ancestor(g, c, a);
    AncestorStable(g, h, c, a);
    AncestorTransitive(h, c, a, b);
  }

  lemma {:induction false} ReplayedCarries(g: Graph, tip: nat, cs: seq<nat>, k: nat)
    requires WellFormed(g) && tip < |g| && (forall i :: 0 <= i < |cs| ==> cs[i] < |g|) && k < |cs|
    ensures Carries(Replayed(g, tip, cs).0, Replayed(g, tip, cs).1, g[cs[k]].change)
  {
    var front := Replayed(g, tip, cs[..|cs| - 1]);
    var r := Replayed(g, tip, cs);
    if k == |cs| - 1 {
      assert r.0[r.1].change == g[cs[k]].change && Ancestor(r.0, r.1, r.1);
    } else {
      ReplayedCarries(g, tip, cs[..|cs| - 1], k);
      assert Ancestor(r.0, front.1, r.0[r.1].parents[0]);
      CarriesUp(front.0, r.0, front.1, r.1, g[cs[k]].change);
    }
  }

  lemma {:induction false} OnlyLists(g: Graph, tip: nat, base: nat, n: nat, c: nat)
    requires WellFormed(g) && tip < |g| && base < |g| && n <= |g|
    requires c < n && Ancestor(g, c, tip) && !Ancestor(g, c, base)
    ensures c in Only(g, tip, base, n)
  {
    if c < n - 1 {
      OnlyLists(g, tip, base, n - 1, c);
    }
  }

  lemma RebasedCarries(s: Sync, change: nat)
    requires Valid(s) && Carries(s.graph, s.local, change)
    ensures Carries(Rebased(s).graph, Rebased(s).local, change)
  {
    var cs := Only(s.graph, s.local, s.tracking, |s.graph|);
    var c: nat :| c < |s.graph| && s.graph[c].change == change && Ancestor(s.graph, c, s.local);
    ReplayedDescends(s.graph, s.tracking, cs);
    if Ancestor(s.graph, c, s.tracking) {
      CarriesUp(s.graph, Rebased(s).graph, s.tracking, Rebased(s).local, change);
    } else {
      OnlyLists(s.graph, s.local, s.tracking, |s.graph|, c);
      var k :| 0 <= k < |cs| && cs[k] == c;
      ReplayedCarries(s.graph, s.tracking, cs, k);
    }
  }

  /** A rebase that is clean, or leaves the branch where it was or moves it forward, as a merge does. */
  ghost predicate KeepsLocal(s: Sync, how: Rebase)
    requires Valid(s) && Ends(s, how)
  {
    how.Unclean? ==> Ancestor(how.graph, s.local, how.local)
  }

  lemma EndedCarries(s: Sync, how: Rebase, change: nat)
    requires Valid(s) && Ends(s, how) && KeepsLocal(s, how) && Carries(s.graph, s.local, change)
    ensures Carries(Ended(s, how).graph, Ended(s, how).local, change)
  {
    match how
    case Clean => RebasedCarries(s, change);
    case Unclean(g, tip) => CarriesUp(s.graph, g, s.local, tip, change);
  }

  /** The pull does not come to a rebase, or to one that keeps what is local. */
  ghost predicate PullKeepsLocal(s: Sync, pushes: seq<Commit>, how: Rebase)
    requires Valid(s) && Pullable(s, pushes, how)
  {
    Behind(s) > 0 && Ahead(s) > 0 ==> KeepsLocal(Fetched(AllLanded(s, pushes)), how)
  }

  lemma PulledCarries(s: Sync, pushes: seq<Commit>, how: Rebase, change: nat)
    requires Valid(s) && Pullable(s, pushes, how) && PullKeepsLocal(s, pushes, how) && Carries(s.graph, s.local, change)
    ensures Carries(Pulled(s, pushes, how).graph, Pulled(s, pushes, how).local, change)
  {
    if Behind(s) > 0 {
      var t := Fetched(AllLanded(s, pushes));
      CarriesUp(s.graph, t.graph, s.local, s.local, change);
      if Ahead(s) > 0 {
        EndedCarries(t, how, change);
      } else if Ancestor(t.graph, t.local, t.tracking) {
        CarriesUp(t.graph, t.graph, t.local, t.tracking, change);
      }
    }
  }

  /**
   * Every change on the local branch is still on it after a synchronisation that
   * pulls nothing, fast-forwards, rebases cleanly, leaves the branch alone or
   * merges. What conflict resolution inside a rebase keeps is git's to say.
   */
  lemma LocalChangesSurvive(s: Sync, o: Others, how: Rebase, change: nat)
    requires Valid(s) && Possible(s, o, how) && Carries(s.graph, s.local, change)
    requires var s1 := AllLanded(s, o.first);
             !Accepted(s1) ==> PullKeepsLocal(Compared(s1, o.beforeFetch), o.duringPull, how)
    ensures Valid(Synced(s, o, how)) && Carries(Synced(s, o, how).graph, Synced(s, o, how).local, change)
  {
    var s1 := AllLanded(s, o.first);
    CarriesUp(s.graph, s1.graph, s.local, s.local, change);
    if !Accepted(s1) {
      var s2 := Compared(s1, o.beforeFetch);
      CarriesUp(s1.graph, s2.graph, s1.local, s1.local, change);
      PulledCarries(s2, o.duringPull, how, change);
      var s3 := Pulled(s2, o.duringPull, how);
      var s4 := AllLanded(s3, o.beforeRetry);
      CarriesUp(s3.graph, s4.graph, s3.local, s3.local, change);
    }
  }
}
