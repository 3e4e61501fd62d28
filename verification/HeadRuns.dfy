/**
 * The reconnect protocol as an interleaving of atomic steps: any number of
 * listeners examine snapshots and enqueue what they decided later, one worker
 * takes, fetches and processes, and documents are edited all the while.
 */
module HeadRuns {
  import opened Common
  import opened HeadProtocol
  import Folding = ChangeFolding
  import Queue = OperationsQueue
  import Window = TruncationWindow

  /**
   * What the server answers: the body of each version, and the time, in the
   * listener's milliseconds, at which a version was last seen. `catchup` is the
   * time the listener was made, before the startup sync.
   */
  datatype Server = Server(contents: (Key, nat) -> Body, seen: (Key, nat) -> int, catchup: int)

  /** Has taken a record; or fetched for it, with the version the fetch returned (`None`: nothing came). */
  datatype Worker = Idle | Took(id: Key, change: Change) | Fetched(id: Key, change: Change, version: Option<nat>)

  /** A snapshot found to need processing, with the flag it was given, on its way to the queue. */
  datatype Look = Look(id: Key, version: nat, baselineOnly: bool)

  function Told(l: Look, srv: Server): Change {
    Queue.Change(srv.seen(l.id, l.version), Some(l.version), Some(l.baselineOnly))
  }

  /**
   * `version` is the server's current version of each document, `held` the
   * version whose body the file holds, `pending` what listeners have decided to
   * enqueue and not yet enqueued, `history` every truncation let through.
   */
  datatype State = State(stores: Stores, folders: Folders, version: map<Key, nat>, held: map<Key, nat>,
                         pending: multiset<Look>, changes: map<Key, Change>, worker: Worker,
                         clock: real, history: map<Key, seq<Window.Allowed>>)

  datatype Step =
    | Edit(id: Key)
    | Reindex(folders: Folders)
    | Examine(id: Key, snapshot: nat)
    | Send(look: Look)
    | Live(id: Key, timestamp: int)
    | Take(id: Key)
    | Fetch(arrived: bool)
    | Process(now: real, disk: bool)

  function NextVersion(s: State, id: Key): nat { if id in s.version then s.version[id] + 1 else 0 }

  /**
   * A version made from now on is last seen after the listener was made. An index
   * message reports a version the server has had. The index changes between rounds
   * only, for folder passes run on the worker too.
   */
  predicate Enabled(s: State, step: Step, srv: Server) {
    match step
    case Edit(id) => srv.seen(id, NextVersion(s, id)) > srv.catchup
    case Reindex(_) => s.worker.Idle?
    case Examine(id, v) => id in s.version && v <= s.version[id]
    case Send(look) => look in s.pending
    case Live(_, _) => true
    case Take(id) => s.worker.Idle? && id in s.changes
    case Fetch(arrived) => s.worker.Took? && (arrived ==> s.worker.id in s.version)
    case Process(now, _) => s.worker.Fetched? && s.clock <= now
  }

  function Merged(changes: map<Key, Change>, id: Key, c: Change): map<Key, Change> {
    changes[id := Queue.Merge(Queue.Lookup(changes, id), c)]
  }

  function Found(s: State, id: Key, v: nat, srv: Server): Option<bool> {
    NeedsProcessing(s.stores.heads, id, v, srv.seen(id, v), srv.catchup)
  }

  function FetchedBody(w: Worker, srv: Server): Option<Body>
    requires w.Fetched?
  {
    if w.version.Some? then Some(srv.contents(w.id, w.version.value)) else None
  }

  function RoundAt(s: State, now: real, disk: bool, srv: Server): Round
    requires s.worker.Fetched?
  {
    Processed(s.stores, s.folders, s.worker.id, s.worker.change, FetchedBody(s.worker, srv), now, disk)
  }

  function History(s: State, folder: Key): seq<Window.Allowed> { if folder in s.history then s.history[folder] else [] }

  function Logged(s: State, id: Key, allowed: Option<Window.Allowed>): map<Key, seq<Window.Allowed>> {
    if allowed.None? || id !in s.folders.entries then s.history
    else var folder := s.folders.entries[id].folder; s.history[folder := History(s, folder) + [allowed.value]]
  }

  function AfterRound(s: State, now: real, disk: bool, srv: Server): State
    requires s.worker.Fetched?
  {
    var (w, r) := (s.worker, RoundAt(s, now, disk, srv));
    s.(stores := r.stores, worker := Idle, clock := now, history := Logged(s, w.id, r.allowed),
       held := if (r.outcome.Unchanged? || r.outcome.Written?) && w.version.Some? then s.held[w.id := w.version.value]
               else s.held)
  }

  function Apply(s: State, step: Step, srv: Server): State
    requires Enabled(s, step, srv)
  {
    match step
    case Edit(id) => s.(version := s.version[id := NextVersion(s, id)])
    case Reindex(f) => s.(folders := f)
    case Examine(id, v) =>
      var flag := Found(s, id, v, srv);
      if flag.None? then s
      else s.(pending := s.pending + multiset{Look(id, v, flag.value)})
    case Send(look) => s.(changes := Merged(s.changes, look.id, Told(look, srv)), pending := s.pending - multiset{look})
    case Live(id, ts) => s.(changes := Merged(s.changes, id, Queue.Change(ts, None, None)))
    case Take(id) => s.(changes := s.changes - {id}, worker := Took(id, s.changes[id]))
    case Fetch(arrived) =>
      s.(worker := Fetched(s.worker.id, s.worker.change, if arrived then Some(s.version[s.worker.id]) else None))
    case Process(now, disk) => AfterRound(s, now, disk, srv)
  }

  predicate Follows(s: State, step: Step, t: State, srv: Server) { Enabled(s, step, srv) && t == Apply(s, step, srv) }

  predicate StepAt(run: seq<State>, steps: seq<Step>, srv: Server, i: nat)
    requires i < |steps| && |run| == |steps| + 1
  {
    Follows(run[i], steps[i], run[i + 1], srv)
  }

  /** The states of an interleaving and the steps between them. */
  ghost predicate IsRun(run: seq<State>, steps: seq<Step>, srv: Server) {
    |run| == |steps| + 1 && forall i :: 0 <= i < |steps| ==> StepAt(run, steps, srv, i)
  }

  // ----- heads never run ahead -----

  /** The file holds the body of a version at least `v` that the server has had. */
  predicate HoldsAtLeast(s: State, id: Key, v: nat, srv: Server) {
    && id in s.held && id in s.version && id in s.stores.files
    && v <= s.held[id] <= s.version[id] && s.stores.files[id] == srv.contents(id, s.held[id])
  }

  /** No recorded head is ahead of its file. */
  ghost predicate Behind(s: State, srv: Server) {
    forall id :: id in s.stores.heads ==> HoldsAtLeast(s, id, s.stores.heads[id], srv)
  }

  /** Snapshot and flag go together; a snapshot is a version the server has had; a baseline one is held. */
  predicate RecordOk(s: State, id: Key, c: Change, srv: Server) {
    && Folding.Paired(c)
    && (c.snapshot.Some? ==> id in s.version && c.snapshot.value <= s.version[id])
    && (c.baselineOnly == Some(true) ==> HoldsAtLeast(s, id, c.snapshot.value, srv))
  }

  /** Files and hashes: each held version is one the server has had, and known hashes are those of the files. */
  ghost predicate Sound(s: State, srv: Server) {
    && (forall id :: id in s.held ==> HoldsAtLeast(s, id, 0, srv))
    && (forall id :: id in s.stores.hashes ==> id in s.stores.files && s.stores.files[id] == s.stores.hashes[id])
  }

  /**
   * Everything the listener may adopt without fetching is there: versions last
   * seen before it was made, of documents without a head, are held.
   */
  ghost predicate Hydrated(s: State, srv: Server) {
    forall id, v: nat :: id in s.version && v <= s.version[id] && id !in s.stores.heads
        && srv.seen(id, v) <= srv.catchup
      ==> HoldsAtLeast(s, id, v, srv)
  }

  predicate WorkerOk(s: State, srv: Server) {
    match s.worker
    case Idle => true
    case Took(id, c) => RecordOk(s, id, c, srv)
    case Fetched(id, c, version) =>
      && RecordOk(s, id, c, srv)
      && (version.Some? ==>
            && id in s.version && version.value <= s.version[id]
            && (c.snapshot.Some? ==> c.snapshot.value <= version.value)
            && (id in s.held ==> s.held[id] <= version.value))
  }

  ghost predicate ChangesOk(s: State, srv: Server) {
    forall id :: id in s.changes ==> RecordOk(s, id, s.changes[id], srv)
  }

  ghost predicate PendingOk(s: State, srv: Server) {
    forall l :: l in s.pending ==> RecordOk(s, l.id, Told(l, srv), srv)
  }

  ghost predicate Consistent(s: State, srv: Server) {
    && Behind(s, srv) && Sound(s, srv) && Hydrated(s, srv)
    && ChangesOk(s, srv) && PendingOk(s, srv) && WorkerOk(s, srv)
  }

  /** What a file holds it goes on holding, or something newer. */
  ghost predicate Preserves(s: State, t: State, srv: Server) {
    && (forall id, v: nat :: HoldsAtLeast(s, id, v, srv) ==> HoldsAtLeast(t, id, v, srv))
    && (forall id :: id in s.version ==> id in t.version && s.version[id] <= t.version[id])
  }

  lemma RecordStays(s: State, t: State, id: Key, c: Change, srv: Server)
    requires Preserves(s, t, srv) && RecordOk(s, id, c, srv)
    ensures RecordOk(t, id, c, srv)
  {
  }

  /** Steps that change neither stores nor held versions. */
  lemma SameFilesPreserve(s: State, t: State, srv: Server)
    requires s.stores == t.stores && s.held == t.held
    requires forall id :: id in s.version ==> id in t.version && s.version[id] <= t.version[id]
    ensures Preserves(s, t, srv)
    ensures Behind(s, srv) ==> Behind(t, srv)
    ensures Sound(s, srv) ==> Sound(t, srv)
  {
  }

  /** What a round does to heads, hashes and files, by how it ends. */
  ghost predicate HasEffect(s: Stores, id: Key, c: Change, fetched: Option<Body>, r: Round) {
    && r.stores.heads == (if Records(r.outcome) then Recorded(s, id, c).heads else s.heads)
    && (r.outcome.Adopted? ==> c.snapshot.Some? && c.baselineOnly == Some(true))
    && (r.outcome.Unchanged? ==> fetched.Some? && id in s.hashes && s.hashes[id] == fetched.value)
    && (r.outcome.Written? ==> fetched.Some?)
    && r.stores.files == (if r.outcome.Written? then s.files[id := fetched.value] else s.files)
    && r.stores.hashes == (if r.outcome.Written? then s.hashes[id := fetched.value] else s.hashes)
  }

  lemma UpdatedEffect(s: Stores, f: Folders, id: Key, e: Entry, body: Body, now: real, disk: bool)
    ensures var u := Updated(s, f, id, e, body, now, disk);
            && (u.outcome.NoPath? || u.outcome.Gated? || u.outcome.Raised? || u.outcome.Written?)
            && u.stores.heads == s.heads && u.stores.hashes == s.hashes
            && u.stores.files == (if u.outcome.Written? then s.files[id := body] else s.files)
  {
  }

  lemma RoundEffect(s: Stores, f: Folders, id: Key, c: Change, fetched: Option<Body>, now: real, disk: bool)
    ensures HasEffect(s, id, c, fetched, Processed(s, f, id, c, fetched, now, disk))
  {
    if WithoutWrite(s, f, id, c, fetched).None? {
      UpdatedEffect(s, f, id, f.entries[id], fetched.value, now, disk);
    }
  }

  lemma RoundHolds(s: State, now: real, disk: bool, srv: Server, id: Key, v: nat)
    requires Sound(s, srv) && WorkerOk(s, srv) && s.worker.Fetched? && HoldsAtLeast(s, id, v, srv)
    ensures HoldsAtLeast(AfterRound(s, now, disk, srv), id, v, srv)
  {
    var w := s.worker;
    RoundEffect(s.stores, s.folders, w.id, w.change, FetchedBody(w, srv), now, disk);
    assert w.id in s.stores.hashes ==> w.id in s.stores.files && s.stores.files[w.id] == s.stores.hashes[w.id];
  }

  lemma RoundSound(s: State, now: real, disk: bool, srv: Server)
    requires Sound(s, srv) && WorkerOk(s, srv) && s.worker.Fetched?
    ensures Sound(AfterRound(s, now, disk, srv), srv)
  {
    var (w, t) := (s.worker, AfterRound(s, now, disk, srv));
    RoundEffect(s.stores, s.folders, w.id, w.change, FetchedBody(w, srv), now, disk);
    forall id | id in t.held
      ensures HoldsAtLeast(t, id, 0, srv)
    {
      if id in s.held {
        RoundHolds(s, now, disk, srv, id, 0);
      }
    }
  }

  /** A round that records leaves the file at the recorded version or a newer one. */
  lemma RoundRecords(s: State, now: real, disk: bool, srv: Server)
    requires Sound(s, srv) && WorkerOk(s, srv) && s.worker.Fetched? && s.worker.change.snapshot.Some?
    requires Records(RoundAt(s, now, disk, srv).outcome)
    ensures HoldsAtLeast(AfterRound(s, now, disk, srv), s.worker.id, s.worker.change.snapshot.value, srv)
  {
    var w := s.worker;
    RoundEffect(s.stores, s.folders, w.id, w.change, FetchedBody(w, srv), now, disk);
    if RoundAt(s, now, disk, srv).outcome.Adopted? {
      RoundHolds(s, now, disk, srv, w.id, w.change.snapshot.value);
    }
  }

  lemma RoundBehind(s: State, now: real, disk: bool, srv: Server)
    requires Behind(s, srv) && Sound(s, srv) && WorkerOk(s, srv) && s.worker.Fetched?
    ensures Behind(AfterRound(s, now, disk, srv), srv)
  {
    var (w, t) := (s.worker, AfterRound(s, now, disk, srv));
    RoundEffect(s.stores, s.folders, w.id, w.change, FetchedBody(w, srv), now, disk);
    forall id | id in t.stores.heads
      ensures HoldsAtLeast(t, id, t.stores.heads[id], srv)
    {
      if id == w.id && Records(RoundAt(s, now, disk, srv).outcome) && w.change.snapshot.Some? {
        RoundRecords(s, now, disk, srv);
      } else {
        RoundHolds(s, now, disk, srv, id, s.stores.heads[id]);
      }
    }
  }

  lemma RoundPreserves(s: State, now: real, disk: bool, srv: Server)
    requires Sound(s, srv) && WorkerOk(s, srv) && s.worker.Fetched?
    ensures Preserves(s, AfterRound(s, now, disk, srv), srv)
  {
    forall id, v: nat | HoldsAtLeast(s, id, v, srv)
      ensures HoldsAtLeast(AfterRound(s, now, disk, srv), id, v, srv)
    {
      RoundHolds(s, now, disk, srv, id, v);
    }
  }

  /** Queued records stay good when files are preserved. */
  lemma ChangesStay(s: State, t: State, srv: Server)
    requires Preserves(s, t, srv) && ChangesOk(s, srv)
    requires forall id :: id in t.changes ==> id in s.changes && t.changes[id] == s.changes[id]
    ensures ChangesOk(t, srv)
  {
    forall id | id in t.changes
      ensures RecordOk(t, id, t.changes[id], srv)
    {
      RecordStays(s, t, id, t.changes[id], srv);
    }
  }

  lemma PendingStays(s: State, t: State, srv: Server)
    requires Preserves(s, t, srv) && PendingOk(s, srv)
    requires forall l :: l in t.pending ==> l in s.pending
    ensures PendingOk(t, srv)
  {
    forall l | l in t.pending
      ensures RecordOk(t, l.id, Told(l, srv), srv)
    {
      RecordStays(s, t, l.id, Told(l, srv), srv);
    }
  }

  lemma HydratedStays(s: State, t: State, srv: Server)
    requires Preserves(s, t, srv) && Hydrated(s, srv) && s.version == t.version
             && s.stores.heads.Keys <= t.stores.heads.Keys
    ensures Hydrated(t, srv)
  {
    forall id, v: nat | id in t.version && v <= t.version[id] && id !in t.stores.heads && srv.seen(id, v) <= srv.catchup
      ensures HoldsAtLeast(t, id, v, srv)
    {
      assert HoldsAtLeast(s, id, v, srv);
    }
  }

  lemma ProcessKeeps(s: State, now: real, disk: bool, srv: Server)
    requires Consistent(s, srv) && s.worker.Fetched?
    ensures Consistent(AfterRound(s, now, disk, srv), srv)
  {
    var (w, t) := (s.worker, AfterRound(s, now, disk, srv));
    RoundPreserves(s, now, disk, srv);
    RoundSound(s, now, disk, srv);
    RoundBehind(s, now, disk, srv);
    ChangesStay(s, t, srv);
    PendingStays(s, t, srv);
    RoundEffect(s.stores, s.folders, w.id, w.change, FetchedBody(w, srv), now, disk);
    HydratedStays(s, t, srv);
  }

  lemma WorkerStays(s: State, t: State, srv: Server)
    requires WorkerOk(s, srv) && Preserves(s, t, srv) && t.worker == s.worker && t.held == s.held
    ensures WorkerOk(t, srv)
  {
    if !s.worker.Idle? {
      RecordStays(s, t, s.worker.id, s.worker.change, srv);
    }
  }

  lemma EditKeeps(s: State, id: Key, srv: Server)
    requires Consistent(s, srv) && Enabled(s, Edit(id), srv)
    ensures Consistent(Apply(s, Edit(id), srv), srv)
  {
    var t := Apply(s, Edit(id), srv);
    SameFilesPreserve(s, t, srv);
    ChangesStay(s, t, srv);
    PendingStays(s, t, srv);
    WorkerStays(s, t, srv);
    forall j, v: nat | j in t.version && v <= t.version[j] && j !in t.stores.heads && srv.seen(j, v) <= srv.catchup
      ensures HoldsAtLeast(t, j, v, srv)
    {
      assert HoldsAtLeast(s, j, v, srv);
    }
  }

  lemma ReindexKeeps(s: State, f: Folders, srv: Server)
    requires Consistent(s, srv)
    ensures Consistent(s.(folders := f), srv)
  {
    var t := s.(folders := f);
    SameFilesPreserve(s, t, srv);
    ChangesStay(s, t, srv);
    PendingStays(s, t, srv);
    WorkerStays(s, t, srv);
    HydratedStays(s, t, srv);
  }

  /** A snapshot that is to be processed is one the server has had; one to be adopted is held. */
  lemma FoundOk(s: State, id: Key, v: nat, srv: Server)
    requires Hydrated(s, srv) && Enabled(s, Examine(id, v), srv) && Found(s, id, v, srv).Some?
    ensures RecordOk(s, id, Told(Look(id, v, Found(s, id, v, srv).value), srv), srv)
  {
  }

  /** What is pending concerns nothing else. */
  lemma PendingAside(s: State, t: State, srv: Server)
    requires Consistent(s, srv) && t == s.(pending := t.pending)
    ensures Preserves(s, t, srv)
    ensures Behind(t, srv) && Sound(t, srv) && Hydrated(t, srv) && ChangesOk(t, srv) && WorkerOk(t, srv)
  {
    SameFilesPreserve(s, t, srv);
    ChangesStay(s, t, srv);
    WorkerStays(s, t, srv);
    HydratedStays(s, t, srv);
  }

  lemma ExamineKeeps(s: State, id: Key, v: nat, srv: Server)
    requires Consistent(s, srv) && Enabled(s, Examine(id, v), srv)
    ensures Consistent(Apply(s, Examine(id, v), srv), srv)
  {
    var found := Found(s, id, v, srv);
    if found.Some? {
      var look := Look(id, v, found.value);
      var t := s.(pending := s.pending + multiset{look});
      PendingAside(s, t, srv);
      FoundOk(s, id, v, srv);
      OneMorePending(s, t, look, srv);
    }
  }

  lemma OneMorePending(s: State, t: State, look: Look, srv: Server)
    requires PendingOk(s, srv) && RecordOk(s, look.id, Told(look, srv), srv) && Preserves(s, t, srv)
    requires t.pending == s.pending + multiset{look}
    ensures PendingOk(t, srv)
  {
    forall l | l in t.pending
      ensures RecordOk(t, l.id, Told(l, srv), srv)
    {
      assert l in s.pending || l == look;
      RecordStays(s, t, l.id, Told(l, srv), srv);
    }
  }

  lemma MergedOk(s: State, id: Key, c: Change, srv: Server)
    requires RecordOk(s, id, c, srv) && (id in s.changes ==> RecordOk(s, id, s.changes[id], srv))
    ensures RecordOk(s, id, Queue.Merge(Queue.Lookup(s.changes, id), c), srv)
  {
  }

  lemma EnqueueKeeps(s: State, t: State, id: Key, c: Change, srv: Server)
    requires Consistent(s, srv) && RecordOk(s, id, c, srv)
    requires t == s.(changes := Merged(s.changes, id, c), pending := t.pending) && t.pending <= s.pending
    ensures Consistent(t, srv)
  {
    MergedOk(s, id, c, srv);
    SameFilesPreserve(s, t, srv);
    WorkerStays(s, t, srv);
    HydratedStays(s, t, srv);
    PendingStays(s, t, srv);
    forall j | j in t.changes
      ensures RecordOk(t, j, t.changes[j], srv)
    {
      RecordStays(s, t, j, t.changes[j], srv);
    }
  }

  lemma TakeKeeps(s: State, id: Key, srv: Server)
    requires Consistent(s, srv) && Enabled(s, Take(id), srv)
    ensures Consistent(Apply(s, Take(id), srv), srv)
  {
    var t := Apply(s, Take(id), srv);
    SameFilesPreserve(s, t, srv);
    ChangesStay(s, t, srv);
    PendingStays(s, t, srv);
    HydratedStays(s, t, srv);
    RecordStays(s, t, id, s.changes[id], srv);
  }

  lemma FetchKeeps(s: State, arrived: bool, srv: Server)
    requires Consistent(s, srv) && Enabled(s, Fetch(arrived), srv)
    ensures Consistent(Apply(s, Fetch(arrived), srv), srv)
  {
    var t := Apply(s, Fetch(arrived), srv);
    SameFilesPreserve(s, t, srv);
    ChangesStay(s, t, srv);
    PendingStays(s, t, srv);
    HydratedStays(s, t, srv);
    RecordStays(s, t, s.worker.id, s.worker.change, srv);
    if s.worker.id in s.held {
      assert HoldsAtLeast(s, s.worker.id, 0, srv);
    }
  }

  lemma StepKeeps(s: State, step: Step, srv: Server)
    requires Consistent(s, srv) && Enabled(s, step, srv)
    ensures Consistent(Apply(s, step, srv), srv)
  {
    match step
    case Edit(id) => EditKeeps(s, id, srv);
    case Reindex(f) => ReindexKeeps(s, f, srv);
    case Examine(id, v) => ExamineKeeps(s, id, v, srv);
    case Send(l) => EnqueueKeeps(s, Apply(s, step, srv), l.id, Told(l, srv), srv);
    case Live(id, ts) => EnqueueKeeps(s, Apply(s, step, srv), id, Queue.Change(ts, None, None), srv);
    case Take(id) => TakeKeeps(s, id, srv);
    case Fetch(arrived) => FetchKeeps(s, arrived, srv);
    case Process(now, disk) => ProcessKeeps(s, now, disk, srv);
  }

  /** Files only move forward, whatever the step. */
  lemma StepPreserves(s: State, step: Step, srv: Server)
    requires Consistent(s, srv) && Enabled(s, step, srv)
    ensures Preserves(s, Apply(s, step, srv), srv)
  {
    if step.Process? {
      RoundPreserves(s, step.now, step.disk, srv);
    } else {
      SameFilesPreserve(s, Apply(s, step, srv), srv);
    }
  }

  lemma {:induction false} RunConsistent(run: seq<State>, steps: seq<Step>, srv: Server, i: nat)
    requires IsRun(run, steps, srv) && Consistent(run[0], srv) && i < |run|
    ensures Consistent(run[i], srv)
  {
    if i > 0 {
      RunConsistent(run, steps, srv, i - 1);
      assert StepAt(run, steps, srv, i - 1);
      StepKeeps(run[i - 1], steps[i - 1], srv);
    }
  }

  /**
   * In every run from a hydrated start, a recorded head of version v means the
   * file holds the body of some version at least v that the server has had.
   */
  lemma HeadNeverAhead(run: seq<State>, steps: seq<Step>, srv: Server, i: nat, id: Key)
    requires IsRun(run, steps, srv) && Consistent(run[0], srv) && i < |run| && id in run[i].stores.heads
    ensures id in run[i].stores.files && id in run[i].version
    ensures exists v: nat :: run[i].stores.heads[id] <= v <= run[i].version[id]
                             && run[i].stores.files[id] == srv.contents(id, v)
  {
    RunConsistent(run, steps, srv, i);
    assert HoldsAtLeast(run[i], id, run[i].stores.heads[id], srv);
  }
}
