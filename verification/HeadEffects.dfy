/**
 * What a round does, from the record, the index, the fetched body, the files and
 * the history of truncations alone; and what that means for edits over whole runs.
 */
module HeadEffects {
  import opened Common
  import opened HeadProtocol
  import opened HeadRuns
  import opened HeadRounds
  import opened HeadCatchUp
  import opened PlainTerms
  import Queue = OperationsQueue
  import Window = TruncationWindow

  // ----- one round -----

  /** The fetch for an indexed document or canvas returned this body. */
  predicate Arrived(s: State, srv: Server, body: Body) {
    && s.worker.Fetched? && s.worker.version.Some? && body == srv.contents(s.worker.id, s.worker.version.value)
    && s.worker.id in s.folders.entries && !s.folders.entries[s.worker.id].kind.Binary?
  }

  /** The record has no snapshot, or one that is neither the head nor to be adopted. */
  predicate IsOpen(s: State)
    requires s.worker.Fetched?
  {
    var c := s.worker.change;
    c.snapshot.Some? ==> Head(s.stores, s.worker.id) != c.snapshot && c.baselineOnly != Some(true)
  }

  /** The body is the one the known hash belongs to. */
  predicate IsKnown(s: State, body: Body)
    requires s.worker.Fetched?
  {
    s.worker.id in s.stores.hashes && s.stores.hashes[s.worker.id] == body
  }

  /** There is a path, the disk works, and the write is not one truncation too many. */
  predicate CanWrite(s: State, body: Body, now: real, disk: bool)
    requires s.worker.Fetched? && s.worker.id in s.folders.entries
  {
    s.folders.entries[s.worker.id].hasPath && disk && !Exhausted(s, body, now)
  }

  function HeadsWith(s: State): map<Key, nat>
    requires s.worker.Fetched?
  {
    var c := s.worker.change;
    if c.snapshot.Some? then s.stores.heads[s.worker.id := c.snapshot.value] else s.stores.heads
  }

  lemma OpenComesToBody(s: State, srv: Server, body: Body)
    requires Arrived(s, srv, body) && IsOpen(s)
    ensures WithoutWrite(s.stores, s.folders, s.worker.id, s.worker.change, FetchedBody(s.worker, srv))
         == if IsKnown(s, body) then Some(Unchanged) else None
  {
  }

  /**
   * A new body is written: file and hash become the body, and the head the
   * snapshot, if there is one. A live event has none.
   */
  lemma NewBodyIsWritten(s: State, now: real, disk: bool, srv: Server, body: Body)
    requires WindowOk(s) && Arrived(s, srv, body) && s.clock <= now
    requires IsOpen(s) && !IsKnown(s, body) && CanWrite(s, body, now, disk)
    ensures var (t, id) := (AfterRound(s, now, disk, srv), s.worker.id);
            && t.stores.files == s.stores.files[id := body] && t.stores.hashes == s.stores.hashes[id := body]
            && t.stores.heads == HeadsWith(s) && t.held == s.held[id := s.worker.version.value]
  {
    OpenComesToBody(s, srv, body);
    WriteEnds(s, now, disk, srv);
    RoundEffect(s.stores, s.folders, s.worker.id, s.worker.change, FetchedBody(s.worker, srv), now, disk);
  }

  /** A known body is not written again; only the head is recorded. */
  lemma KnownBodyIsRecorded(s: State, now: real, disk: bool, srv: Server, body: Body)
    requires Arrived(s, srv, body) && IsOpen(s) && IsKnown(s, body)
    ensures var t := AfterRound(s, now, disk, srv);
            && t.stores.files == s.stores.files && t.stores.hashes == s.stores.hashes
            && t.stores.heads == HeadsWith(s) && t.held == s.held[s.worker.id := s.worker.version.value]
  {
    OpenComesToBody(s, srv, body);
    RoundEffect(s.stores, s.folders, s.worker.id, s.worker.change, FetchedBody(s.worker, srv), now, disk);
  }

  /** A baseline snapshot that is not the head is recorded, whatever was fetched. */
  lemma BaselineIsRecorded(s: State, now: real, disk: bool, srv: Server)
    requires s.worker.Fetched? && s.worker.id in s.folders.entries
    requires s.worker.change.snapshot.Some? && s.worker.change.baselineOnly == Some(true)
    requires Head(s.stores, s.worker.id) != s.worker.change.snapshot
    ensures AfterRound(s, now, disk, srv).stores == s.stores.(heads := HeadsWith(s))
  {
  }

  /** The body would empty a file that is not empty. */
  predicate IsTruncation(s: State, body: Body)
    requires s.worker.Fetched? && s.worker.id in s.folders.entries
  {
    IsEmptied(s.folders.entries[s.worker.id].kind, body) && s.worker.id in s.stores.files
    && s.stores.files[s.worker.id] != ""
  }

  /**
   * A truncation with a path that is not refused counts in its folder's history,
   * under the limit of its moment and whether or not the disk takes it. Nothing
   * else counts anywhere.
   */
  lemma TruncationCounts(s: State, now: real, disk: bool, srv: Server, body: Body)
    requires WindowOk(s) && Arrived(s, srv, body) && s.clock <= now && IsOpen(s) && !IsKnown(s, body)
    ensures var (t, e) := (AfterRound(s, now, disk, srv), s.folders.entries[s.worker.id]);
            var n := if e.folder in s.folders.membership then s.folders.membership[e.folder] else 0;
            var counts := e.hasPath && IsTruncation(s, body) && !Exhausted(s, body, now);
            && History(t, e.folder) == History(s, e.folder)
                                       + (if counts then [Window.Allowed(now, MassLimit(n))] else [])
            && forall folder :: folder != e.folder ==> History(t, folder) == History(s, folder)
  {
    OpenComesToBody(s, srv, body);
    var e := s.folders.entries[s.worker.id];
    ExhaustedIs(s, body, now);
    EmptiedIs(e.kind, body);
    Window.AskedKeeps(Recent(s.stores, e.folder), History(s, e.folder), s.clock, now, Limit(s.folders, e.folder));
    ThresholdIs(if e.folder in s.folders.membership then s.folders.membership[e.folder] else 0);
  }

  predicate SameStores(s: State, t: State) {
    t.stores.heads == s.stores.heads && t.stores.hashes == s.stores.hashes && t.stores.files == s.stores.files
  }

  /** The snapshot is the head already, or there is none and the body is known. */
  predicate UpToDate(s: State, srv: Server)
    requires s.worker.Fetched?
  {
    var (c, body) := (s.worker.change, FetchedBody(s.worker, srv));
    if c.snapshot.Some? then Head(s.stores, s.worker.id) == c.snapshot
    else body.Some? && Arrived(s, srv, body.value) && IsKnown(s, body.value)
  }

  lemma PutOffChangesNothing(s: State, now: real, disk: bool, srv: Server)
    requires WindowOk(s) && s.worker.Fetched? && s.clock <= now && (PutOff(s, now, disk, srv) || UpToDate(s, srv))
    ensures SameStores(s, AfterRound(s, now, disk, srv))
  {
    if PutOff(s, now, disk, srv) {
      PutOffRecordsNothing(s, now, disk, srv);
    } else if s.worker.change.snapshot.Some? {
      assert RoundAt(s, now, disk, srv).stores == s.stores;
    } else {
      KnownBodyIsRecorded(s, now, disk, srv, FetchedBody(s.worker, srv).value);
    }
  }

  /** A round leaves heads, hashes and files alone if and only if the record is put off or up to date. */
  lemma ChangesNothingIff(s: State, now: real, disk: bool, srv: Server)
    requires WindowOk(s) && s.worker.Fetched? && s.clock <= now
    ensures SameStores(s, AfterRound(s, now, disk, srv)) <==> PutOff(s, now, disk, srv) || UpToDate(s, srv)
  {
    var (id, c, body) := (s.worker.id, s.worker.change, FetchedBody(s.worker, srv));
    if PutOff(s, now, disk, srv) || UpToDate(s, srv) {
      PutOffChangesNothing(s, now, disk, srv);
    } else if c.snapshot.Some? && c.baselineOnly == Some(true) {
      BaselineIsRecorded(s, now, disk, srv);
      assert AfterRound(s, now, disk, srv).stores.heads[id] == c.snapshot.value;
    } else if IsKnown(s, body.value) {
      KnownBodyIsRecorded(s, now, disk, srv, body.value);
      assert HeadsWith(s)[id] == c.snapshot.value;
    } else {
      NewBodyIsWritten(s, now, disk, srv, body.value);
      assert s.stores.hashes[id := body.value][id] == body.value;
    }
  }

  // ----- what is examined -----

  /**
   * An examination sets a snapshot on its way exactly when the head is another or
   * there is none, as a baseline when there is none and it was last seen before the
   * listener was made.
   */
  lemma ExaminedIs(s: State, id: Key, v: nat, srv: Server)
    requires Enabled(s, Examine(id, v), srv)
    ensures Apply(s, Examine(id, v), srv) ==
            if id in s.stores.heads && s.stores.heads[id] == v then s
            else
              var look := Look(id, v, id !in s.stores.heads && srv.seen(id, v) <= srv.catchup);
              s.(pending := s.pending + multiset{look})
  {
  }

  /** The same for each snapshot of an index message. */
  lemma WantedOneMore(ss: seq<Snapshot>, ms: seq<map<Key, nat>>, s: Snapshot, heads: map<Key, nat>, catchup: int)
    requires |ss| == |ms|
    ensures Wanted(ss + [s], ms + [heads], catchup) == Wanted(ss, ms, catchup)
            + if s.id in heads && heads[s.id] == s.version then []
              else [(s.id, Queue.Change(s.lastSeen, Some(s.version), Some(s.id !in heads && s.lastSeen <= catchup)))]
  {
    assert (ss + [s])[..|ss|] == ss && (ms + [heads])[..|ms|] == ms;
  }

  // ----- runs -----

  /** The round will end with this body in the file. */
  predicate WillHold(s: State, srv: Server, now: real, disk: bool) {
    && s.worker.Fetched? && s.worker.version.Some?
    && var body := srv.contents(s.worker.id, s.worker.version.value);
       Arrived(s, srv, body) && IsOpen(s) && (IsKnown(s, body) || CanWrite(s, body, now, disk))
  }

  lemma WillHoldHolds(s: State, now: real, disk: bool, srv: Server)
    requires WindowOk(s) && Sound(s, srv) && WorkerOk(s, srv) && s.clock <= now && WillHold(s, srv, now, disk)
    ensures HoldsAtLeast(AfterRound(s, now, disk, srv), s.worker.id, s.worker.version.value, srv)
    ensures AfterRound(s, now, disk, srv).stores.heads == HeadsWith(s)
  {
    var body := srv.contents(s.worker.id, s.worker.version.value);
    if IsKnown(s, body) {
      KnownBodyIsRecorded(s, now, disk, srv, body);
      assert s.stores.files[s.worker.id] == body;
    } else {
      NewBodyIsWritten(s, now, disk, srv, body);
    }
  }

  /** A notification waits in the queue until its document is taken. */
  lemma {:induction false} LiveWaits(run: seq<State>, steps: seq<Step>, srv: Server, i: nat, t: nat, id: Key)
    requires IsRun(run, steps, srv) && i < t < |run| && steps[i].Live? && steps[i].id == id
    requires forall k :: i < k < t ==> steps[k] != Take(id)
    ensures id in run[t].changes
    decreases t
  {
    assert StepAt(run, steps, srv, t - 1);
    if i < t - 1 {
      LiveWaits(run, steps, srv, i, t - 1, id);
    }
  }

  /**
   * A live edit arrives: in every run, once the record of a live event is taken and
   * its round fetches version v for an indexed document it can write, the file
   * holds v or newer for good, and v is no older than the edit.
   */
  lemma LiveEditArrives(run: seq<State>, steps: seq<Step>, srv: Server, i: nat, t: nat, p: nat, j: nat, id: Key)
    requires IsRun(run, steps, srv) && Consistent(run[0], srv) && WindowOk(run[0]) && i < t < p < j < |run|
    requires steps[i].Live? && steps[i].id == id && steps[t] == Take(id)
    requires forall k :: i < k < t ==> steps[k] != Take(id)
    requires SameRound(steps, t, p) && steps[p].Process? && WillHold(run[p], srv, steps[p].now, steps[p].disk)
    ensures id in run[t].changes && run[p].worker.id == id
    ensures HoldsAtLeast(run[j], id, run[p].worker.version.value, srv)
    ensures id in run[i].version ==> run[i].version[id] <= run[p].worker.version.value
  {
    var (now, disk) := (steps[p].now, steps[p].disk);
    LiveWaits(run, steps, srv, i, t, id);
    RoundKeeps(run, steps, srv, t, p);
    RunConsistent(run, steps, srv, p);
    WindowAlways(run, steps, srv, p);
    assert StepAt(run, steps, srv, p);
    WillHoldHolds(run[p], now, disk, srv);
    RunPreserves(run, steps, srv, i, t);
    RunPreserves(run, steps, srv, p + 1, j);
  }

  /** The round will record its snapshot: by adopting it, or with the body in the file. */
  predicate WillRecord(s: State, srv: Server, now: real, disk: bool) {
    && s.worker.Fetched? && s.worker.change.snapshot.Some? && s.worker.id in s.folders.entries
    && (|| Head(s.stores, s.worker.id) == s.worker.change.snapshot
        || s.worker.change.baselineOnly == Some(true)
        || WillHold(s, srv, now, disk))
  }

  lemma WillRecordRecords(s: State, now: real, disk: bool, srv: Server)
    requires WindowOk(s) && Sound(s, srv) && WorkerOk(s, srv) && s.clock <= now && WillRecord(s, srv, now, disk)
    ensures Head(AfterRound(s, now, disk, srv).stores, s.worker.id) == s.worker.change.snapshot
  {
    if Head(s.stores, s.worker.id) == s.worker.change.snapshot {
      assert AfterRound(s, now, disk, srv).stores == s.stores;
    } else if s.worker.change.baselineOnly == Some(true) {
      BaselineIsRecorded(s, now, disk, srv);
    } else {
      WillHoldHolds(s, now, disk, srv);
    }
  }

  /**
   * An index message repairs what was missed: a version that is not the head is set
   * on its way, and once it has been sent, taken and processed by a round that can
   * record it, it is the head, and the file holds it or newer for good.
   */
  lemma MissedEditArrives(run: seq<State>, steps: seq<Step>, srv: Server, e: nat, q: nat, t: nat, p: nat, j: nat,
                          id: Key, v: nat)
    requires IsRun(run, steps, srv) && Consistent(run[0], srv) && WindowOk(run[0]) && e < q < t < p < j < |run|
    requires steps[e] == Examine(id, v) && Head(run[e].stores, id) != Some(v)
    requires var flag := Head(run[e].stores, id).None? && srv.seen(id, v) <= srv.catchup;
             steps[q] == Send(Look(id, v, flag))
    requires Undisturbed(steps, q, t, id) && steps[t] == Take(id)
    requires SameRound(steps, t, p) && steps[p].Process? && WillRecord(run[p], srv, steps[p].now, steps[p].disk)
    ensures var flag := Head(run[e].stores, id).None? && srv.seen(id, v) <= srv.catchup;
            Look(id, v, flag) in run[e + 1].pending
    ensures Head(run[p + 1].stores, id) == Some(v) && HoldsAtLeast(run[j], id, v, srv)
  {
    assert StepAt(run, steps, srv, e) && StepAt(run, steps, srv, p);
    ExaminedIs(run[e], id, v, srv);
    SnapshotWaits(run, steps, srv, q, t);
    RoundKeeps(run, steps, srv, t, p);
    RunConsistent(run, steps, srv, p);
    WindowAlways(run, steps, srv, p);
    WillRecordRecords(run[p], steps[p].now, steps[p].disk, srv);
    HeadHolds(run, steps, srv, p + 1, j, id, v);
  }
}
