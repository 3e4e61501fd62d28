/** What reconnecting repairs, what the startup sync must have done, and how a head can go back. */
module HeadCatchUp {
  import opened Common
  import opened HeadProtocol
  import opened HeadRuns
  import opened HeadRounds
  import Mirror = MirrorModel

  // ----- reconnecting -----

  lemma {:induction false} RunPreserves(run: seq<State>, steps: seq<Step>, srv: Server, i: nat, j: nat)
    requires IsRun(run, steps, srv) && Consistent(run[0], srv) && i <= j < |run|
    ensures Preserves(run[i], run[j], srv)
    decreases j
  {
    if i < j {
      RunPreserves(run, steps, srv, i, j - 1);
      OneStepPreserves(run, steps, srv, j - 1);
      PreservesTransitive(run[i], run[j - 1], run[j], srv);
    }
  }

  lemma OneStepPreserves(run: seq<State>, steps: seq<Step>, srv: Server, k: nat)
    requires IsRun(run, steps, srv) && Consistent(run[0], srv) && k < |steps|
    ensures Preserves(run[k], run[k + 1], srv)
  {
    RunConsistent(run, steps, srv, k);
    assert StepAt(run, steps, srv, k);
    StepPreserves(run[k], steps[k], srv);
  }

  lemma PreservesTransitive(s: State, t: State, u: State, srv: Server)
    requires Preserves(s, t, srv) && Preserves(t, u, srv)
    ensures Preserves(s, u, srv)
  {
  }

  /** Steps t+1 to p-1 belong to the round begun by the take at `t`. */
  ghost predicate SameRound(steps: seq<Step>, t: nat, p: nat) {
    t < p <= |steps| && forall k :: t < k < p ==> !steps[k].Process?
  }

  /** Until it is processed the worker keeps the record it took; what it has fetched is no older than that moment. */
  lemma {:induction false} RoundKeeps(run: seq<State>, steps: seq<Step>, srv: Server, t: nat, p: nat)
    requires IsRun(run, steps, srv) && Consistent(run[0], srv) && SameRound(steps, t, p) && steps[t].Take?
    ensures var (id, w) := (steps[t].id, run[p].worker);
            && Enabled(run[t], steps[t], srv)
            && !w.Idle? && w.id == id && w.change == run[t].changes[id]
            && (w.Fetched? && w.version.Some? && id in run[t].version ==> run[t].version[id] <= w.version.value)
    decreases p
  {
    assert StepAt(run, steps, srv, p - 1);
    if t < p - 1 {
      RoundKeeps(run, steps, srv, t, p - 1);
      RunPreserves(run, steps, srv, t, p - 1);
    }
  }

  /** A round that wrote, or found the known body, leaves the file at the fetched version. */
  lemma RoundDelivers(s: State, now: real, disk: bool, srv: Server)
    requires Sound(s, srv) && WorkerOk(s, srv) && s.worker.Fetched?
    requires var o := RoundAt(s, now, disk, srv).outcome; o.Unchanged? || o.Written?
    ensures s.worker.version.Some?
    ensures HoldsAtLeast(AfterRound(s, now, disk, srv), s.worker.id, s.worker.version.value, srv)
  {
    RoundEffect(s.stores, s.folders, s.worker.id, s.worker.change, FetchedBody(s.worker, srv), now, disk);
  }

  /**
   * Reconnecting repairs the file: whatever is interleaved, once a round begun
   * after the server had version v delivers, the file holds v or newer for good.
   */
  lemma ReconnectHolds(run: seq<State>, steps: seq<Step>, srv: Server, i: nat, t: nat, p: nat, j: nat, id: Key, v: nat)
    requires IsRun(run, steps, srv) && Consistent(run[0], srv) && i <= t < p < j < |run|
    requires id in run[i].version && v <= run[i].version[id]
    requires steps[t] == Take(id) && SameRound(steps, t, p) && steps[p].Process? && run[p].worker.Fetched?
    requires var o := RoundAt(run[p], steps[p].now, steps[p].disk, srv).outcome; o.Unchanged? || o.Written?
    ensures HoldsAtLeast(run[j], id, v, srv)
  {
    assert StepAt(run, steps, srv, p);
    RunConsistent(run, steps, srv, p);
    RunPreserves(run, steps, srv, i, t);
    RoundKeeps(run, steps, srv, t, p);
    RoundDelivers(run[p], steps[p].now, steps[p].disk, srv);
    var version := run[p].worker.version.value;
    assert v <= version && HoldsAtLeast(run[p + 1], id, version, srv);
    RunPreserves(run, steps, srv, p + 1, j);
    assert HoldsAtLeast(run[j], id, version, srv);
  }

  /** No snapshot of this document is enqueued, and none of its records taken, between `q` and `t`. */
  ghost predicate Undisturbed(steps: seq<Step>, q: nat, t: nat, id: Key) {
    t <= |steps| && forall k :: q < k < t ==> steps[k] != Take(id) && !(steps[k].Send? && steps[k].look.id == id)
  }

  /** An enqueued snapshot waits in its record, whatever live events are folded in. */
  lemma {:induction false} SnapshotWaits(run: seq<State>, steps: seq<Step>, srv: Server, q: nat, t: nat)
    requires IsRun(run, steps, srv) && q < t <= |steps| && steps[q].Send? && Undisturbed(steps, q, t, steps[q].look.id)
    ensures var l := steps[q].look; l.id in run[t].changes && run[t].changes[l.id].snapshot == Some(l.version)
    decreases t
  {
    assert StepAt(run, steps, srv, t - 1);
    if q < t - 1 {
      SnapshotWaits(run, steps, srv, q, t - 1);
    }
  }

  lemma RoundLeavesHead(run: seq<State>, steps: seq<Step>, srv: Server, p: nat, id: Key, v: nat)
    requires IsRun(run, steps, srv) && p < |steps| && RoundOf(run[p], steps[p], id)
    requires run[p].worker.change.snapshot == Some(v)
    requires var o := RoundAt(run[p], steps[p].now, steps[p].disk, srv).outcome; Records(o) || o.Current?
    ensures Head(run[p + 1].stores, id) == Some(v)
  {
    assert StepAt(run, steps, srv, p);
    HeadMoves(run[p], steps[p], srv, id);
    if RoundAt(run[p], steps[p].now, steps[p].disk, srv).outcome.Current? {
      CurrentIsHead(run[p], steps[p].now, steps[p].disk, srv);
    }
  }

  lemma CurrentIsHead(s: State, now: real, disk: bool, srv: Server)
    requires s.worker.Fetched? && RoundAt(s, now, disk, srv).outcome.Current?
    ensures Head(s.stores, s.worker.id) == s.worker.change.snapshot
  {
  }

  lemma HeadHolds(run: seq<State>, steps: seq<Step>, srv: Server, i: nat, j: nat, id: Key, v: nat)
    requires IsRun(run, steps, srv) && Consistent(run[0], srv) && i <= j < |run| && Head(run[i].stores, id) == Some(v)
    ensures HoldsAtLeast(run[j], id, v, srv)
  {
    RunConsistent(run, steps, srv, i);
    assert HoldsAtLeast(run[i], id, v, srv);
    RunPreserves(run, steps, srv, i, j);
  }

  /**
   * Reconnecting repairs the head: once an examined snapshot has been enqueued,
   * and the round that takes it records, the head is that version and the file
   * holds it or newer for good. Live events, edits, index changes, other
   * documents' rounds and other examinations may come at any point between.
   */
  lemma ReconnectCatchesUp(run: seq<State>, steps: seq<Step>, srv: Server, q: nat, t: nat, p: nat, j: nat)
    requires IsRun(run, steps, srv) && Consistent(run[0], srv) && q < t < p < j < |run|
    requires steps[q].Send? && Undisturbed(steps, q, t, steps[q].look.id) && steps[t] == Take(steps[q].look.id)
    requires SameRound(steps, t, p) && steps[p].Process? && run[p].worker.Fetched?
    requires var o := RoundAt(run[p], steps[p].now, steps[p].disk, srv).outcome; Records(o) || o.Current?
    ensures var l := steps[q].look;
            Head(run[p + 1].stores, l.id) == Some(l.version) && HoldsAtLeast(run[j], l.id, l.version, srv)
  {
    SnapshotWaits(run, steps, srv, q, t);
    RoundKeeps(run, steps, srv, t, p);
    RoundLeavesHead(run, steps, srv, p, steps[q].look.id, steps[q].look.version);
    HeadHolds(run, steps, srv, p + 1, j, steps[q].look.id, steps[q].look.version);
  }

  // ----- the startup sync -----

  /** Before the listener starts: nothing under way, recorded heads behind their files. */
  ghost predicate AtStart(s: State, srv: Server) {
    s.worker.Idle? && s.pending == multiset{} && s.changes == map[] && Behind(s, srv) && Sound(s, srv)
  }

  ghost predicate SafeFrom(s: State, srv: Server) {
    forall run, steps :: IsRun(run, steps, srv) && run[0] == s ==> Behind(run[|steps|], srv)
  }

  /**
   * A baseline snapshot is adopted unseen, so a document without a head stays
   * behind its file if and only if the file already holds the snapshot's version.
   */
  lemma BaselineTrustsStartup(s: State, now: real, disk: bool, srv: Server)
    requires Behind(s, srv) && s.worker.Fetched? && s.worker.id in s.folders.entries
    requires Head(s.stores, s.worker.id).None?
    requires s.worker.change.snapshot.Some? && s.worker.change.baselineOnly == Some(true)
    ensures Behind(AfterRound(s, now, disk, srv), srv) <==>
            HoldsAtLeast(s, s.worker.id, s.worker.change.snapshot.value, srv)
  {
    var (t, w, v) := (AfterRound(s, now, disk, srv), s.worker, s.worker.change.snapshot.value);
    assert t.stores == s.stores.(heads := s.stores.heads[w.id := v]);
    assert HoldsAtLeast(t, w.id, v, srv) <==> HoldsAtLeast(s, w.id, v, srv);
    assert t.stores.heads[w.id] == v;
    if HoldsAtLeast(s, w.id, v, srv) {
      forall id | id in t.stores.heads
        ensures HoldsAtLeast(t, id, t.stores.heads[id], srv)
      {
        assert id != w.id ==> HoldsAtLeast(s, id, s.stores.heads[id], srv);
      }
    }
  }

  // Runs are put together from pieces.

  lemma RunAppend(run: seq<State>, steps: seq<Step>, more: seq<State>, next: seq<Step>, srv: Server)
    requires IsRun(run, steps, srv) && IsRun(more, next, srv) && run[|steps|] == more[0]
    ensures IsRun(run + more[1..], steps + next, srv)
    ensures (run + more[1..])[0] == run[0] && (run + more[1..])[|steps + next|] == more[|next|]
  {
    var (r, st) := (run + more[1..], steps + next);
    forall i | 0 <= i < |st|
      ensures StepAt(r, st, srv, i)
    {
      if i < |steps| {
        assert StepAt(run, steps, srv, i);
        assert st[i] == steps[i] && r[i] == run[i] && r[i + 1] == run[i + 1];
      } else {
        assert StepAt(more, next, srv, i - |steps|);
        assert st[i] == next[i - |steps|] && r[i] == more[i - |steps|] && r[i + 1] == more[i - |steps| + 1];
      }
    }
  }

  /** Two steps in a row. */
  lemma TwoSteps(s: State, first: Step, second: Step, srv: Server)
    requires Enabled(s, first, srv) && Enabled(Apply(s, first, srv), second, srv)
    ensures var t := Apply(s, first, srv); IsRun([s, t, Apply(t, second, srv)], [first, second], srv)
  {
    var t := Apply(s, first, srv);
    var (run, steps) := ([s, t, Apply(t, second, srv)], [first, second]);
    forall i | 0 <= i < |steps|
      ensures StepAt(run, steps, srv, i)
    {
      assert i == 0 || i == 1;
    }
  }

  /** From an idle worker: a pending look is enqueued and taken at once. */
  lemma LookTaken(s: State, look: Look, srv: Server)
    requires s.worker.Idle? && look.id !in s.changes && look in s.pending
    ensures var (sent, t) := (Apply(s, Send(look), srv),
                              s.(pending := s.pending - multiset{look}, worker := Took(look.id, Told(look, srv))));
            IsRun([s, sent, t], [Send(look), Take(look.id)], srv)
  {
    assert s.changes[look.id := Told(look, srv)] - {look.id} == s.changes;
    TwoSteps(s, Send(look), Take(look.id), srv);
  }

  /** And its round is fetched for and processed. */
  function FetchedWorker(s: State, look: Look, arrived: bool, srv: Server): State
    requires arrived ==> look.id in s.version
  {
    s.(pending := s.pending - multiset{look},
       worker := Fetched(look.id, Told(look, srv), if arrived then Some(s.version[look.id]) else None))
  }

  function RoundSteps(look: Look, arrived: bool, now: real): seq<Step> {
    [Send(look), Take(look.id), Fetch(arrived), Process(now, true)]
  }

  lemma WholeRound(s: State, look: Look, arrived: bool, srv: Server) returns (run: seq<State>)
    requires s.worker.Idle? && look.id !in s.changes && look in s.pending && (arrived ==> look.id in s.version)
    ensures IsRun(run, RoundSteps(look, arrived, s.clock), srv) && run[0] == s
    ensures run[4] == AfterRound(FetchedWorker(s, look, arrived, srv), s.clock, true, srv)
  {
    var sent := Apply(s, Send(look), srv);
    var t := s.(pending := s.pending - multiset{look}, worker := Took(look.id, Told(look, srv)));
    var f := FetchedWorker(s, look, arrived, srv);
    LookTaken(s, look, srv);
    TwoSteps(t, Fetch(arrived), Process(s.clock, true), srv);
    var more := [t, f, AfterRound(f, s.clock, true, srv)];
    RunAppend([s, sent, t], [Send(look), Take(look.id)], more, [Fetch(arrived), Process(s.clock, true)], srv);
    run := [s, sent, t] + more[1..];
    assert [Send(look), Take(look.id)] + [Fetch(arrived), Process(s.clock, true)]
        == RoundSteps(look, arrived, s.clock);
  }

  /** A snapshot last seen before the listener was made, of a document without a head. */
  ghost predicate Adoptable(s: State, id: Key, v: nat, srv: Server) {
    && s.worker.Idle? && id in s.version && v <= s.version[id] && id !in s.stores.heads && id !in s.changes
    && srv.seen(id, v) <= srv.catchup
  }

  function Indexed(s: State, id: Key, e: Entry): State {
    s.(folders := s.folders.(entries := s.folders.entries[id := e]))
  }

  function Headed(s: State, id: Key, v: nat): State { s.(stores := s.stores.(heads := s.stores.heads[id := v])) }

  /** It is examined, enqueued, taken, fetched for in vain, and adopted. */
  ghost function AdoptingSteps(s: State, id: Key, v: nat, e: Entry): seq<Step> {
    [Reindex(Indexed(s, id, e).folders), Examine(id, v)] + RoundSteps(Look(id, v, true), false, s.clock)
  }

  lemma Adopting(s: State, id: Key, v: nat, e: Entry, srv: Server) returns (run: seq<State>)
    requires Adoptable(s, id, v, srv)
    ensures IsRun(run, AdoptingSteps(s, id, v, e), srv) && run[0] == s
    ensures run[6] == Headed(Indexed(s, id, e), id, v)
  {
    var look := Look(id, v, true);
    var s1 := Indexed(s, id, e);
    var s2 := s1.(pending := s.pending + multiset{look});
    TwoSteps(s, Reindex(s1.folders), Examine(id, v), srv);
    var more := WholeRound(s2, look, false, srv);
    RunAppend([s, s1, s2], [Reindex(s1.folders), Examine(id, v)], more, RoundSteps(look, false, s.clock), srv);
    run := [s, s1, s2] + more[1..];
    assert s.pending + multiset{look} - multiset{look} == s.pending;
    AdoptingRound(FetchedWorker(s2, look, false, srv), id, v, srv);
  }

  lemma AdoptingRound(s: State, id: Key, v: nat, srv: Server)
    requires s.worker == Fetched(id, Told(Look(id, v, true), srv), None) && id !in s.stores.heads
             && id in s.folders.entries
    ensures AfterRound(s, s.clock, true, srv) == Headed(s, id, v).(worker := Idle)
  {
  }

  /**
   * From any start, no run takes a head ahead of its file if and only if the
   * startup sync stored every version that was last seen before the listener was
   * made, of documents without a head. Nothing checks that it did: a failed
   * startup sync is logged and the listener starts.
   */
  lemma StartupSyncIff(s: State, srv: Server)
    requires AtStart(s, srv)
    ensures SafeFrom(s, srv) <==> Hydrated(s, srv)
  {
    if Hydrated(s, srv) {
      assert Consistent(s, srv);
      forall run, steps | IsRun(run, steps, srv) && run[0] == s
        ensures Behind(run[|steps|], srv)
      {
        RunConsistent(run, steps, srv, |steps|);
      }
    } else {
      var id, v: nat :| id in s.version && v <= s.version[id] && id !in s.stores.heads
                        && srv.seen(id, v) <= srv.catchup && !HoldsAtLeast(s, id, v, srv);
      var e := Entry(Mirror.Document, id, true);
      var run := Adopting(s, id, v, e, srv);
      assert run[6].stores.heads[id] == v && !HoldsAtLeast(run[6], id, v, srv);
    }
  }

  // ----- two listeners -----

  /**
   * A document that two folders' filemetas list is examined by both folders'
   * listeners. Both snapshots are examined before either is enqueued: the older
   * may be adopted, the newer may not.
   */
  ghost predicate TwoLooks(s: State, id: Key, v: nat, w: nat, srv: Server) {
    && s.worker.Idle? && id !in s.changes && id !in s.stores.heads
    && id in s.version && v < w == s.version[id] && srv.seen(id, v) <= srv.catchup < srv.seen(id, w)
    && id in s.folders.entries && s.folders.entries[id].kind.Document? && s.folders.entries[id].hasPath
    && srv.contents(id, w) != ""
  }

  ghost function CrossingSteps(s: State, id: Key, v: nat, w: nat): seq<Step> {
    [Examine(id, v), Examine(id, w)] + RoundSteps(Look(id, w, false), true, s.clock)
    + RoundSteps(Look(id, v, true), false, s.clock)
  }

  lemma NewerRound(s: State, id: Key, w: nat, srv: Server)
    requires s.worker == Fetched(id, Told(Look(id, w, false), srv), Some(w)) && id !in s.stores.heads
    requires id in s.folders.entries && s.folders.entries[id].kind.Document? && s.folders.entries[id].hasPath
    requires srv.contents(id, w) != ""
    ensures var t := AfterRound(s, s.clock, true, srv);
            && t.stores.heads == s.stores.heads[id := w] && t.held == s.held[id := w]
            && t == s.(worker := Idle, stores := t.stores, held := t.held)
  {
  }

  lemma OlderRound(s: State, id: Key, v: nat, srv: Server)
    requires s.worker == Fetched(id, Told(Look(id, v, true), srv), None) && id in s.folders.entries
    ensures AfterRound(s, s.clock, true, srv).stores.heads == s.stores.heads[id := v]
    ensures AfterRound(s, s.clock, true, srv).held == s.held
  {
  }

  lemma NewerFirst(s: State, id: Key, v: nat, w: nat, srv: Server) returns (run: seq<State>)
    requires TwoLooks(s, id, v, w, srv)
    ensures IsRun(run, [Examine(id, v), Examine(id, w)] + RoundSteps(Look(id, w, false), true, s.clock), srv)
    ensures run[0] == s
    ensures var t := run[6];
            && t.worker.Idle? && t.clock == s.clock && t.folders == s.folders && id !in t.changes
            && Look(id, v, true) in t.pending
            && Head(t.stores, id) == Some(w) && t.held == s.held[id := w]
  {
    var (stale, newer) := (Look(id, v, true), Look(id, w, false));
    var s1 := s.(pending := s.pending + multiset{stale});
    var s2 := s.(pending := s1.pending + multiset{newer});
    TwoSteps(s, Examine(id, v), Examine(id, w), srv);
    var round := WholeRound(s2, newer, true, srv);
    NewerRound(FetchedWorker(s2, newer, true, srv), id, w, srv);
    RunAppend([s, s1, s2], [Examine(id, v), Examine(id, w)], round, RoundSteps(newer, true, s.clock), srv);
    run := [s, s1, s2] + round[1..];
  }

  /**
   * The listener that was overtaken sets a newer head back to its own snapshot;
   * the file keeps the newer version.
   */
  lemma HeadGoesBack(s: State, id: Key, v: nat, w: nat, srv: Server) returns (run: seq<State>)
    requires TwoLooks(s, id, v, w, srv)
    ensures IsRun(run, CrossingSteps(s, id, v, w), srv) && run[0] == s
    ensures Head(run[6].stores, id) == Some(w) && Head(run[10].stores, id) == Some(v)
    ensures id in run[10].held && run[10].held[id] == w
  {
    var (stale, newer) := (Look(id, v, true), Look(id, w, false));
    var first := NewerFirst(s, id, v, w, srv);
    var round := WholeRound(first[6], stale, false, srv);
    OlderRound(FetchedWorker(first[6], stale, false, srv), id, v, srv);
    var steps := [Examine(id, v), Examine(id, w)] + RoundSteps(newer, true, s.clock);
    RunAppend(first, steps, round, RoundSteps(stale, false, s.clock), srv);
    run := first + round[1..];
  }
}
