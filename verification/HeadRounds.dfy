/** How rounds end, over whole runs: the truncation window, what moves a head, and what is enqueued again. */
module HeadRounds {
  import opened Common
  import opened HeadProtocol
  import opened HeadRuns
  import opened PlainTerms
  import Window = TruncationWindow

  // ----- the truncation window -----

  /** Every folder's deque stands for the truncations it was allowed. */
  ghost predicate WindowOk(s: State) {
    forall folder :: Window.Keeps(Recent(s.stores, folder), History(s, folder), s.clock)
  }

  /** A round asks its folder's gate once, or leaves every deque alone. */
  predicate Asking(s: Stores, f: Folders, id: Key, now: real, r: Round) {
    if r.stores.recent == s.recent && r.allowed.None? then true
    else
      && id in f.entries
      && var (folder, limit) := (f.entries[id].folder, Limit(f, f.entries[id].folder));
         var v := Window.Asked(Recent(s, folder), now, limit);
         && r.stores.recent == s.recent[folder := v.recent]
         && r.allowed == if v.gated then None else Some(Window.Allowed(now, limit))
  }

  lemma UpdatedAsks(s: Stores, f: Folders, id: Key, body: Body, now: real, disk: bool)
    requires id in f.entries
    ensures Asking(s, f, id, now, Updated(s, f, id, f.entries[id], body, now, disk))
  {
  }

  lemma ProcessedAsks(s: Stores, f: Folders, id: Key, c: Change, fetched: Option<Body>, now: real, disk: bool)
    ensures Asking(s, f, id, now, Processed(s, f, id, c, fetched, now, disk))
  {
    if WithoutWrite(s, f, id, c, fetched).None? {
      UpdatedAsks(s, f, id, fetched.value, now, disk);
      var u := Updated(s, f, id, f.entries[id], fetched.value, now, disk);
      assert Settled(u, id, c, fetched.value).stores.recent == u.stores.recent;
    }
  }

  /** The round put one question to the folder's gate, or none. */
  predicate AsksOnce(s: State, t: State, now: real, folder: Key) {
    var (limit, recent, h) := (Limit(s.folders, folder), Recent(s.stores, folder), History(s, folder));
    var v := Window.Asked(recent, now, limit);
    || (Recent(t.stores, folder) == recent && History(t, folder) == h)
    || (Recent(t.stores, folder) == v.recent && History(t, folder) == Window.Grown(h, now, limit, v.gated))
  }

  lemma RoundAsks(s: State, now: real, disk: bool, srv: Server, folder: Key)
    requires s.worker.Fetched?
    ensures AsksOnce(s, AfterRound(s, now, disk, srv), now, folder)
  {
    ProcessedAsks(s.stores, s.folders, s.worker.id, s.worker.change, FetchedBody(s.worker, srv), now, disk);
    AskingOnce(s, AfterRound(s, now, disk, srv), RoundAt(s, now, disk, srv), now, folder);
  }

  lemma AskingOnce(s: State, t: State, r: Round, now: real, folder: Key)
    requires s.worker.Fetched? && Asking(s.stores, s.folders, s.worker.id, now, r)
    requires t.stores == r.stores && t.history == Logged(s, s.worker.id, r.allowed)
    ensures AsksOnce(s, t, now, folder)
  {
  }

  lemma RoundWindow(s: State, now: real, disk: bool, srv: Server, folder: Key)
    requires s.worker.Fetched? && s.clock <= now && Window.Keeps(Recent(s.stores, folder), History(s, folder), s.clock)
    ensures var t := AfterRound(s, now, disk, srv); Window.Keeps(Recent(t.stores, folder), History(t, folder), now)
  {
    RoundAsks(s, now, disk, srv, folder);
    Window.LaterKeeps(Recent(s.stores, folder), History(s, folder), s.clock, now);
    Window.AskedKeeps(Recent(s.stores, folder), History(s, folder), s.clock, now, Limit(s.folders, folder));
  }

  lemma {:induction false} WindowAlways(run: seq<State>, steps: seq<Step>, srv: Server, i: nat)
    requires IsRun(run, steps, srv) && WindowOk(run[0]) && i < |run|
    ensures WindowOk(run[i])
  {
    if i > 0 {
      WindowAlways(run, steps, srv, i - 1);
      assert StepAt(run, steps, srv, i - 1);
      WindowStep(run[i - 1], steps[i - 1], srv);
    }
  }

  lemma WindowStep(s: State, step: Step, srv: Server)
    requires Enabled(s, step, srv) && WindowOk(s)
    ensures WindowOk(Apply(s, step, srv))
  {
    if step.Process? {
      forall folder
        ensures Window.Keeps(Recent(Apply(s, step, srv).stores, folder), History(Apply(s, step, srv), folder), step.now)
      {
        RoundWindow(s, step.now, step.disk, srv, folder);
      }
    }
  }

  /**
   * Would this round put the empty text of its kind over a file that is not empty,
   * in a folder whose last sixty seconds hold max(n / 10, 25) truncations already?
   */
  predicate Exhausted(s: State, body: Body, now: real)
    requires s.worker.Fetched? && s.worker.id in s.folders.entries
  {
    var e := s.folders.entries[s.worker.id];
    && IsEmptied(e.kind, body) && s.worker.id in s.stores.files && s.stores.files[s.worker.id] != ""
    && InLastMinute(History(s, e.folder), now)
       >= MassLimit(if e.folder in s.folders.membership then s.folders.membership[e.folder] else 0)
  }

  /** The body comes to a write: known kind, fetched, not the one held. */
  predicate Writes(s: State, srv: Server)
    requires s.worker.Fetched?
  {
    WithoutWrite(s.stores, s.folders, s.worker.id, s.worker.change, FetchedBody(s.worker, srv)).None?
  }

  /** A write is refused or done according to the history of truncations alone. */
  lemma WriteEnds(s: State, now: real, disk: bool, srv: Server)
    requires WindowOk(s) && s.worker.Fetched? && s.clock <= now && Writes(s, srv)
    ensures var (e, o) := (s.folders.entries[s.worker.id], RoundAt(s, now, disk, srv).outcome);
            var exhausted := Exhausted(s, FetchedBody(s.worker, srv).value, now);
            && (o.NoPath? <==> !e.hasPath)
            && (o.Gated? <==> e.hasPath && exhausted)
            && (o.Raised? <==> e.hasPath && !exhausted && !disk)
            && (o.Written? <==> e.hasPath && !exhausted && disk)
  {
    var e := s.folders.entries[s.worker.id];
    ExhaustedIs(s, FetchedBody(s.worker, srv).value, now);
    Window.AskedKeeps(Recent(s.stores, e.folder), History(s, e.folder), s.clock, now, Limit(s.folders, e.folder));
  }

  lemma ExhaustedIs(s: State, body: Body, now: real)
    requires WindowOk(s) && s.worker.Fetched? && s.worker.id in s.folders.entries && s.clock <= now
    requires !s.folders.entries[s.worker.id].kind.Binary?
    ensures var e := s.folders.entries[s.worker.id];
            Exhausted(s, body, now) <==>
            Empties(s.stores, s.worker.id, e.kind, body)
            && |Window.Since(History(s, e.folder), now - Window.WINDOW)| >= Limit(s.folders, e.folder)
  {
    var e := s.folders.entries[s.worker.id];
    EmptiedIs(e.kind, body);
    ThresholdIs(if e.folder in s.folders.membership then s.folders.membership[e.folder] else 0);
    assert Window.Keeps(Recent(s.stores, e.folder), History(s, e.folder), s.clock);
    MinuteIs(History(s, e.folder), now);
  }

  // ----- what moves a head -----

  predicate RoundOf(s: State, step: Step, id: Key) { step.Process? && s.worker.Fetched? && s.worker.id == id }

  /** A round of this document that records its snapshot. */
  predicate Recording(s: State, step: Step, srv: Server, id: Key) {
    && RoundOf(s, step, id) && s.worker.change.snapshot.Some?
    && Records(RoundAt(s, step.now, step.disk, srv).outcome)
  }

  lemma HeadMoves(s: State, step: Step, srv: Server, id: Key)
    requires Enabled(s, step, srv)
    ensures Head(Apply(s, step, srv).stores, id) ==
            if Recording(s, step, srv, id) then s.worker.change.snapshot else Head(s.stores, id)
  {
    if step.Process? {
      RoundEffect(s.stores, s.folders, s.worker.id, s.worker.change, FetchedBody(s.worker, srv), step.now, step.disk);
    }
  }

  /** The snapshot of the last recording round in [i, j), or else the head at `i`. */
  function LastRecorded(run: seq<State>, steps: seq<Step>, srv: Server, i: nat, j: nat, id: Key): Option<nat>
    requires i <= j < |run| && |run| == |steps| + 1
    decreases j
  {
    if i == j then Head(run[i].stores, id)
    else if Recording(run[j - 1], steps[j - 1], srv, id) then run[j - 1].worker.change.snapshot
    else LastRecorded(run, steps, srv, i, j - 1, id)
  }

  /** In every run a head is the snapshot of the last round that recorded one; nothing else moves it. */
  lemma {:induction false} HeadsFollowRounds(run: seq<State>, steps: seq<Step>, srv: Server, i: nat, j: nat, id: Key)
    requires IsRun(run, steps, srv) && i <= j < |run|
    ensures Head(run[j].stores, id) == LastRecorded(run, steps, srv, i, j, id)
    decreases j
  {
    if i < j {
      HeadsFollowRounds(run, steps, srv, i, j - 1, id);
      OneMoreRound(run, steps, srv, i, j - 1, id);
    }
  }

  lemma OneMoreRound(run: seq<State>, steps: seq<Step>, srv: Server, i: nat, j: nat, id: Key)
    requires IsRun(run, steps, srv) && i <= j < |steps|
    requires Head(run[j].stores, id) == LastRecorded(run, steps, srv, i, j, id)
    ensures Head(run[j + 1].stores, id) == LastRecorded(run, steps, srv, i, j + 1, id)
  {
    HeadMovesAt(run, steps, srv, j, id);
  }

  lemma HeadMovesAt(run: seq<State>, steps: seq<Step>, srv: Server, k: nat, id: Key)
    requires IsRun(run, steps, srv) && k < |steps|
    ensures Head(run[k + 1].stores, id) ==
            if Recording(run[k], steps[k], srv, id) then run[k].worker.change.snapshot else Head(run[k].stores, id)
  {
    assert StepAt(run, steps, srv, k);
    HeadMoves(run[k], steps[k], srv, id);
  }

  /**
   * The record is put off: its document is not in the index, nothing was fetched,
   * or a body that is not the held one has no path, is refused as one truncation
   * too many for the last minute, or cannot be written.
   */
  predicate PutOff(s: State, now: real, disk: bool, srv: Server)
    requires s.worker.Fetched?
  {
    var (w, body) := (s.worker, FetchedBody(s.worker, srv));
    || w.id !in s.folders.entries
    || (!(w.change.snapshot.Some? && w.change.baselineOnly == Some(true))
        && (|| s.folders.entries[w.id].kind.Binary?
            || body.None?
            || (&& !(w.id in s.stores.hashes && s.stores.hashes[w.id] == body.value)
                && (!s.folders.entries[w.id].hasPath || Exhausted(s, body.value, now) || !disk))))
  }

  lemma PutOffRecordsNothing(s: State, now: real, disk: bool, srv: Server)
    requires WindowOk(s) && s.worker.Fetched? && s.clock <= now && PutOff(s, now, disk, srv)
    ensures var r := RoundAt(s, now, disk, srv);
            && !Records(r.outcome)
            && r.stores.heads == s.stores.heads && r.stores.hashes == s.stores.hashes
                 && r.stores.files == s.stores.files
  {
    var w := s.worker;
    if Writes(s, srv) {
      WriteEnds(s, now, disk, srv);
    }
    RoundEffect(s.stores, s.folders, w.id, w.change, FetchedBody(w, srv), now, disk);
  }

  /**
   * Over every run a deferred, gated or failed record changes neither file nor
   * hash, and the head stays behind until a later round of that document records.
   */
  lemma DeferredLeavesBehind(run: seq<State>, steps: seq<Step>, srv: Server, k: nat, j: nat, id: Key)
    requires IsRun(run, steps, srv) && WindowOk(run[0]) && k < j < |run|
    requires RoundOf(run[k], steps[k], id) && PutOff(run[k], steps[k].now, steps[k].disk, srv)
    requires forall n :: k < n < j ==> !Recording(run[n], steps[n], srv, id)
    ensures Head(run[j].stores, id) == Head(run[k].stores, id)
    ensures run[k + 1].stores.files == run[k].stores.files && run[k + 1].stores.hashes == run[k].stores.hashes
  {
    WindowAlways(run, steps, srv, k);
    assert StepAt(run, steps, srv, k);
    PutOffRecordsNothing(run[k], steps[k].now, steps[k].disk, srv);
    HeadsFollowRounds(run, steps, srv, k, j, id);
    NoneRecorded(run, steps, srv, k, j, id);
  }

  lemma {:induction false} NoneRecorded(run: seq<State>, steps: seq<Step>, srv: Server, i: nat, j: nat, id: Key)
    requires i <= j < |run| && |run| == |steps| + 1
    requires forall n :: i <= n < j ==> !Recording(run[n], steps[n], srv, id)
    ensures LastRecorded(run, steps, srv, i, j, id) == Head(run[i].stores, id)
    decreases j
  {
    if i < j {
      NoneRecorded(run, steps, srv, i, j - 1, id);
    }
  }

  /** Over every run any closed minute of a folder has at most as many truncations as the limit at its last one. */
  lemma TruncationsBounded(run: seq<State>, steps: seq<Step>, srv: Server, i: nat, folder: Key, start: real, last: nat)
    requires IsRun(run, steps, srv) && WindowOk(run[0]) && i < |run| && last < |History(run[i], folder)|
    requires start <= History(run[i], folder)[last].time <= start + Window.WINDOW
    requires forall k :: last < k < |History(run[i], folder)| ==>
               !(start <= History(run[i], folder)[k].time <= start + Window.WINDOW)
    ensures Window.CountIn(History(run[i], folder), start, start + Window.WINDOW) <= History(run[i], folder)[last].limit
  {
    WindowAlways(run, steps, srv, i);
    Window.WindowBound(History(run[i], folder), start, last);
  }

  // ----- what is enqueued again -----

  /** Examinations of this snapshot that have decided to enqueue it and not yet done so. */
  function Waiting(s: State, id: Key, v: nat): nat { s.pending[Look(id, v, true)] + s.pending[Look(id, v, false)] }

  predicate Sends(step: Step, id: Key, v: nat) { step.Send? && step.look.id == id && step.look.version == v }

  /** How often the snapshot is enqueued in [i, j). */
  function Sent(steps: seq<Step>, i: nat, j: nat, id: Key, v: nat): nat
    requires i <= j <= |steps|
    decreases j
  {
    if i == j then 0 else Sent(steps, i, j - 1, id, v) + (if Sends(steps[j - 1], id, v) then 1 else 0)
  }

  /** A snapshot whose head is recorded is not even set on its way. */
  lemma RecordedIsSkipped(s: State, id: Key, v: nat, srv: Server)
    requires Head(s.stores, id) == Some(v) && Enabled(s, Examine(id, v), srv)
    ensures Apply(s, Examine(id, v), srv) == s
  {
  }

  lemma WaitingStep(s: State, step: Step, srv: Server, id: Key, v: nat)
    requires Enabled(s, step, srv) && Head(s.stores, id) == Some(v)
    ensures Waiting(Apply(s, step, srv), id, v) + (if Sends(step, id, v) then 1 else 0) == Waiting(s, id, v)
  {
    if step.Examine? && step.id == id && step.snapshot == v {
      RecordedIsSkipped(s, id, v, srv);
    }
  }

  /**
   * While a snapshot's head stays recorded it is enqueued only by examinations
   * that were under way when it was recorded, each of them once: enqueued and
   * still waiting add up to what waited then. With none under way, never.
   */
  lemma {:induction false} RecordedIsNotEnqueued(run: seq<State>, steps: seq<Step>, srv: Server, i: nat, j: nat,
                                                 id: Key, v: nat)
    requires IsRun(run, steps, srv) && i <= j < |run|
    requires forall k :: i <= k < j ==> Head(run[k].stores, id) == Some(v)
    ensures Sent(steps, i, j, id, v) + Waiting(run[j], id, v) == Waiting(run[i], id, v)
    decreases j
  {
    if i < j {
      RecordedIsNotEnqueued(run, steps, srv, i, j - 1, id, v);
      assert StepAt(run, steps, srv, j - 1);
      assert Head(run[j - 1].stores, id) == Some(v);
      WaitingStep(run[j - 1], steps[j - 1], srv, id, v);
    }
  }

  /** And a straggler that finds its own head recorded changes nothing. */
  lemma StragglerIsHarmless(s: State, now: real, disk: bool, srv: Server)
    requires s.worker.Fetched? && s.worker.change.snapshot.Some?
    requires Head(s.stores, s.worker.id) == s.worker.change.snapshot
    ensures AfterRound(s, now, disk, srv) == s.(worker := Idle, clock := now)
  {
  }
}
