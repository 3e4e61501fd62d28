/**
 * The coalescing queue of `operations_queue.py`: many enqueuers and one worker
 * share a map under a lock and a FIFO of tokens. The put on the queue happens
 * after the lock is released, so each enqueuer takes two atomic steps.
 */
module OperationsQueue {
  import opened Common

  type Key = (string, string)

  /** A subdoc snapshot, named by the document version it encodes. */
  type Snapshot = nat

  /** A dictionary key that is absent is `None`. */
  datatype Change = Change(timestamp: int, snapshot: Option<Snapshot>, baselineOnly: Option<bool>)

  datatype Token = DocToken(key: Key) | RequestToken(request: nat)

  datatype Worker = Idle | Holds(key: Key) | Busy

  /** What an observer would write down: notifications accepted and records handed to the engine. */
  datatype Event = Enqueued(key: Key, change: Change) | Taken(key: Key, record: Option<Change>)

  /** `putting` holds the key of every enqueuer that has left the lock and not yet put its token. */
  datatype State = State(changes: map<Key, Change>, queue: seq<Token>, putting: multiset<Key>, worker: Worker,
                         log: seq<Event>)

  datatype Step =
    | Merging(key: Key, change: Change)
    | PutToken(key: Key)
    | PutRequest(request: nat)
    | GetNext
    | Take
    | Finish

  function Lookup(m: map<Key, Change>, k: Key): Option<Change> { if k in m then Some(m[k]) else None }

  /** `{**existing, **change}`, except that a change without a snapshot keeps the queued snapshot and its flag. */
  function Merge(existing: Option<Change>, change: Change): Change {
    match existing
    case None => change
    case Some(e) =>
      if e.snapshot.Some? && change.snapshot.None? then
        Change(change.timestamp, e.snapshot, Some(e.baselineOnly.Some? && e.baselineOnly.value))
      else
        Change(change.timestamp,
               if change.snapshot.Some? then change.snapshot else e.snapshot,
               if change.baselineOnly.Some? then change.baselineOnly else e.baselineOnly)
  }

  const INITIAL := State(map[], [], multiset{}, Idle, [])

  ghost predicate Enabled(s: State, step: Step) {
    match step
    case PutToken(k) => k in s.putting
    case GetNext => s.worker == Idle && s.queue != []
    case Take => s.worker.Holds?
    case Finish => s.worker == Busy
    case _ => true
  }

  ghost function Apply(s: State, step: Step): State
    requires Enabled(s, step)
  {
    match step
    case Merging(k, c) =>
      s.(changes := s.changes[k := Merge(Lookup(s.changes, k), c)],
         putting := if k in s.changes then s.putting else s.putting + multiset{k},
         log := s.log + [Enqueued(k, c)])
    case PutToken(k) => s.(putting := s.putting - multiset{k}, queue := s.queue + [DocToken(k)])
    case PutRequest(r) => s.(queue := s.queue + [RequestToken(r)])
    case GetNext =>
      s.(queue := s.queue[1..], worker := if s.queue[0].DocToken? then Holds(s.queue[0].key) else Busy)
    case Take =>
      s.(changes := s.changes - {s.worker.key}, worker := Busy,
         log := s.log + [Taken(s.worker.key, Lookup(s.changes, s.worker.key))])
    case Finish => s.(worker := Idle)
  }

  class OperationsQueue {
    var documentChanges: map<Key, Change>
    var requestQueue: seq<Token>
    /** Where the threads stand and what they have done so far. */
    ghost var putting: multiset<Key>
    ghost var worker: Worker
    ghost var log: seq<Event>

    ghost function View(): State
      reads this
    {
      State(documentChanges, requestQueue, putting, worker, log)
    }

    constructor ()
      ensures View() == INITIAL
    {
      documentChanges, requestQueue := map[], [];
      putting, worker, log := multiset{}, Idle, [];
    }

    /** The locked part of `enqueue_document_change`. */
    method MergeLocked(key: Key, change: Change) returns (alreadyQueued: bool)
      modifies this
      ensures alreadyQueued == (key in old(documentChanges))
      ensures View() == Apply(old(View()), Merging(key, change))
    {
      alreadyQueued := key in documentChanges;
      var merged := change;
      if alreadyQueued {
        var existing := documentChanges[key];
        merged := Change(change.timestamp,
                         if change.snapshot.Some? then change.snapshot else existing.snapshot,
                         if change.baselineOnly.Some? then change.baselineOnly else existing.baselineOnly);
        if existing.snapshot.Some? && change.snapshot.None? {
          merged := merged.(snapshot := existing.snapshot,
                            baselineOnly := if existing.baselineOnly.Some? then existing.baselineOnly else Some(false));
        }
      }
      documentChanges := documentChanges[key := merged];
      putting := if alreadyQueued then putting else putting + multiset{key};
      log := log + [Enqueued(key, change)];
    }

    /** The put that follows, outside the lock. */
    method Put(key: Key)
      requires key in putting
      modifies this
      ensures View() == Apply(old(View()), PutToken(key))
    {
      requestQueue := requestQueue + [DocToken(key)];
      putting := putting - multiset{key};
    }

    method EnqueueSyncRequest(request: nat)
      modifies this
      ensures View() == Apply(old(View()), PutRequest(request))
    {
      requestQueue := requestQueue + [RequestToken(request)];
    }

    /** `request_queue.get`, once something is queued. */
    method GetRequest() returns (token: Token)
      requires worker == Idle && requestQueue != []
      modifies this
      ensures token == old(requestQueue)[0]
      ensures View() == Apply(old(View()), GetNext)
    {
      token := requestQueue[0];
      requestQueue := requestQueue[1..];
      worker := if token.DocToken? then Holds(token.key) else Busy;
    }

    method TakeDocumentChange(key: Key) returns (record: Option<Change>)
      requires worker == Holds(key)
      modifies this
      ensures record == Lookup(old(documentChanges), key)
      ensures View() == Apply(old(View()), Take)
    {
      record := if key in documentChanges then Some(documentChanges[key]) else None;
      documentChanges := documentChanges - {key};
      worker := Busy;
      log := log + [Taken(key, record)];
    }
  }

  // ----- runs -----

  ghost predicate Follows(s: State, step: Step, t: State) { Enabled(s, step) && t == Apply(s, step) }

  ghost predicate Next(s: State, t: State) { exists step :: Follows(s, step, t) }

  /** Any interleaving, as the states it passes through. */
  ghost predicate IsRun(run: seq<State>) {
    run != [] && run[0] == INITIAL && forall i :: 0 <= i < |run| - 1 ==> Next(run[i], run[i + 1])
  }

  function Queued(queue: seq<Token>, k: Key): nat {
    if queue == [] then 0
    else Queued(queue[..|queue| - 1], k) + (if queue[|queue| - 1] == DocToken(k) then 1 else 0)
  }

  function Tokens(s: State, k: Key): nat {
    s.putting[k] + Queued(s.queue, k) + (if s.worker == Holds(k) then 1 else 0)
  }

  /** A key is in the map iff exactly one token for it exists anywhere; else none does. */
  ghost predicate TokenInvariant(s: State) {
    forall k :: Tokens(s, k) == if k in s.changes then 1 else 0
  }

  lemma QueuedAppend(queue: seq<Token>, t: Token, k: Key)
    ensures Queued(queue + [t], k) == Queued(queue, k) + (if t == DocToken(k) then 1 else 0)
  {
    assert (queue + [t])[..|queue|] == queue;
  }

  lemma {:induction false} QueuedHead(queue: seq<Token>, k: Key)
    requires queue != []
    ensures Queued(queue, k) == (if queue[0] == DocToken(k) then 1 else 0) + Queued(queue[1..], k)
  {
    if |queue| > 1 {
      QueuedHead(queue[..|queue| - 1], k);
      assert queue[..|queue| - 1][1..] == queue[1..][..|queue| - 2];
    }
  }

  lemma {:induction false} QueuedPositive(queue: seq<Token>, i: nat, k: Key)
    requires i < |queue| && queue[i] == DocToken(k)
    ensures Queued(queue, k) >= 1
  {
    if i < |queue| - 1 {
      QueuedPositive(queue[..|queue| - 1], i, k);
    }
  }

  lemma TokenNext(s: State, t: State)
    requires TokenInvariant(s) && Next(s, t)
    ensures TokenInvariant(t)
  {
    var step :| Follows(s, step, t);
    TokenStep(s, step);
  }

  lemma TokenStep(s: State, step: Step)
    requires TokenInvariant(s) && Enabled(s, step)
    ensures TokenInvariant(Apply(s, step))
  {
    var t := Apply(s, step);
    forall k
      ensures Tokens(t, k) == if k in t.changes then 1 else 0
    {
      assert Tokens(s, k) == if k in s.changes then 1 else 0;
      match step
      case PutToken(j) => QueuedAppend(s.queue, DocToken(j), k);
      case PutRequest(r) => QueuedAppend(s.queue, RequestToken(r), k);
      case GetNext => QueuedHead(s.queue, k);
      case _ =>
    }
  }

  /** The token invariant holds in every interleaving of any number of enqueuers and the worker. */
  lemma {:induction false} TokensAlways(run: seq<State>, i: nat)
    requires IsRun(run) && i < |run|
    ensures TokenInvariant(run[i])
  {
    if i > 0 {
      TokensAlways(run, i - 1);
      TokenNext(run[i - 1], run[i - 1 + 1]);
    }
  }

  /** So a take always finds its record, queued tokens have distinct keys, and an idle system holds nothing back. */
  lemma TokenConsequences(run: seq<State>, n: nat)
    requires IsRun(run) && n < |run|
    ensures var t := run[n];
            && (t.worker.Holds? ==> t.worker.key in t.changes)
            && (forall i, j :: 0 <= i < j < |t.queue| && t.queue[i].DocToken? ==> t.queue[i] != t.queue[j])
            && (t.queue == [] && t.putting == multiset{} && !t.worker.Holds? ==> t.changes == map[])
  {
    var t := run[n];
    TokensAlways(run, n);
    assert t.worker.Holds? ==> Tokens(t, t.worker.key) >= 1;
    forall i, j | 0 <= i < j < |t.queue| && t.queue[i].DocToken?
      ensures t.queue[i] != t.queue[j]
    {
      DistinctTokens(t, i, j);
    }
    if t.queue == [] && t.putting == multiset{} && !t.worker.Holds? {
      assert forall k :: Tokens(t, k) == 0;
      assert t.changes.Keys == {};
    }
  }

  lemma DistinctTokens(t: State, i: nat, j: nat)
    requires TokenInvariant(t) && i < j < |t.queue| && t.queue[i].DocToken?
    ensures t.queue[i] != t.queue[j]
  {
    var k := t.queue[i].key;
    assert Tokens(t, k) <= 1;
    if t.queue[i] == t.queue[j] {
      QueuedTwice(t.queue, i, j, k);
    }
  }

  lemma {:induction false} QueuedTwice(queue: seq<Token>, i: nat, j: nat, k: Key)
    requires i < j < |queue| && queue[i] == queue[j] == DocToken(k)
    ensures Queued(queue, k) >= 2
  {
    var front := queue[..|queue| - 1];
    if j < |queue| - 1 {
      QueuedTwice(front, i, j, k);
    } else {
      QueuedPositive(front, i, k);
    }
  }

  // ----- no notification is lost -----

  /** The changes enqueued for `k` since its last take, oldest first. */
  function Since(log: seq<Event>, k: Key): seq<Change> {
    if log == [] then []
    else
      match log[|log| - 1]
      case Enqueued(j, c) => if j == k then Since(log[..|log| - 1], k) + [c] else Since(log[..|log| - 1], k)
      case Taken(j, _) => if j == k then [] else Since(log[..|log| - 1], k)
  }

  function Fold(changes: seq<Change>): Option<Change> {
    if changes == [] then None else Some(Merge(Fold(changes[..|changes| - 1]), changes[|changes| - 1]))
  }

  ghost predicate RecordInvariant(s: State) {
    && (forall k :: Lookup(s.changes, k) == Fold(Since(s.log, k)))
    && (forall i :: 0 <= i < |s.log| && s.log[i].Taken? ==> s.log[i].record == Fold(Since(s.log[..i], s.log[i].key)))
  }

  lemma SinceAppend(log: seq<Event>, e: Event, k: Key)
    ensures Since(log + [e], k) ==
            if e.key != k then Since(log, k) else if e.Enqueued? then Since(log, k) + [e.change] else []
  {
    assert (log + [e])[..|log|] == log;
  }

  lemma PrefixesKept(log: seq<Event>, e: Event)
    ensures forall i :: 0 <= i < |log| ==> (log + [e])[i] == log[i] && (log + [e])[..i] == log[..i]
    ensures (log + [e])[..|log|] == log
  {
  }

  lemma RecordNext(s: State, t: State)
    requires RecordInvariant(s) && Next(s, t)
    ensures RecordInvariant(t)
  {
    var step :| Follows(s, step, t);
    RecordStep(s, step);
  }

  lemma RecordStep(s: State, step: Step)
    requires RecordInvariant(s) && Enabled(s, step)
    ensures RecordInvariant(Apply(s, step))
  {
    var t := Apply(s, step);
    if step.Merging? || step.Take? {
      PrefixesKept(s.log, t.log[|s.log|]);
      forall k
        ensures Lookup(t.changes, k) == Fold(Since(t.log, k))
      {
        RecordAfter(s, step, k);
      }
    }
  }

  lemma RecordAfter(s: State, step: Step, k: Key)
    requires Enabled(s, step) && (step.Merging? || step.Take?) && Lookup(s.changes, k) == Fold(Since(s.log, k))
    ensures Lookup(Apply(s, step).changes, k) == Fold(Since(Apply(s, step).log, k))
  {
    SinceAppend(s.log, Apply(s, step).log[|s.log|], k);
    if step.Merging? && k == step.key {
      assert (Since(s.log, k) + [step.change])[..|Since(s.log, k)|] == Since(s.log, k);
    }
  }

  lemma {:induction false} RecordsAlways(run: seq<State>, i: nat)
    requires IsRun(run) && i < |run|
    ensures RecordInvariant(run[i])
  {
    if i > 0 {
      RecordsAlways(run, i - 1);
      RecordNext(run[i - 1], run[i - 1 + 1]);
    }
  }

  /** The first take of `k` at or after position `from`, or the end of the log. */
  function NextTake(log: seq<Event>, from: nat, k: Key): nat
    requires from <= |log|
    ensures from <= NextTake(log, from, k) <= |log|
    decreases |log| - from
  {
    if from == |log| || (log[from].Taken? && log[from].key == k) then from else NextTake(log, from + 1, k)
  }

  lemma {:induction false} SinceKeeps(log: seq<Event>, j: nat, i: nat, k: Key)
    requires j < i <= |log| && log[j].Enqueued? && log[j].key == k
    requires forall m :: j < m < i ==> !(log[m].Taken? && log[m].key == k)
    ensures |Since(log[..i], k)| > |Since(log[..j], k)|
    ensures Since(log[..i], k)[|Since(log[..j], k)|] == log[j].change
  {
    assert log[..i][..i - 1] == log[..i - 1];
    if i > j + 1 {
      SinceKeeps(log, j, i - 1, k);
    }
  }

  lemma {:induction false} NoTakeBefore(log: seq<Event>, from: nat, k: Key)
    requires from <= |log|
    ensures forall m :: from <= m < NextTake(log, from, k) ==> !(log[m].Taken? && log[m].key == k)
    ensures NextTake(log, from, k) < |log| ==>
              log[NextTake(log, from, k)].Taken? && log[NextTake(log, from, k)].key == k
    decreases |log| - from
  {
    if from < |log| && !(log[from].Taken? && log[from].key == k) {
      NoTakeBefore(log, from + 1, k);
    }
  }

  /**
   * Every accepted notification is either still folded into the queued record,
   * or folded into the record of the first take after it; no take comes back empty.
   */
  lemma NothingLost(run: seq<State>, n: nat, j: nat)
    requires IsRun(run) && n < |run| && j < |run[n].log| && run[n].log[j].Enqueued?
    ensures var (t, k) := (run[n], run[n].log[j].key);
            var next := NextTake(t.log, j + 1, k);
            var before, batch := Since(t.log[..j], k), Since(t.log[..next], k);
            && |before| < |batch| && batch[|before|] == t.log[j].change
            && Fold(batch).Some?
            && (if next < |t.log| then t.log[next] == Taken(k, Fold(batch)) else Lookup(t.changes, k) == Fold(batch))
  {
    RecordsAlways(run, n);
    RecordHolds(run[n], j);
  }

  lemma RecordHolds(t: State, j: nat)
    requires RecordInvariant(t) && j < |t.log| && t.log[j].Enqueued?
    ensures var k := t.log[j].key;
            var next := NextTake(t.log, j + 1, k);
            var before, batch := Since(t.log[..j], k), Since(t.log[..next], k);
            && |before| < |batch| && batch[|before|] == t.log[j].change
            && Fold(batch).Some?
            && (if next < |t.log| then t.log[next] == Taken(k, Fold(batch)) else Lookup(t.changes, k) == Fold(batch))
  {
    var k := t.log[j].key;
    var next := NextTake(t.log, j + 1, k);
    NoTakeBefore(t.log, j + 1, k);
    SinceKeeps(t.log, j, next, k);
    if next == |t.log| {
      assert t.log[..next] == t.log;
    }
  }

  // ----- first in, first out -----

  predicate Gets(s: State, t: State) { s.worker == Idle && t.worker != Idle }

  /** How often the worker got a token in the first `n` steps from `from`. */
  function Got(run: seq<State>, from: nat, n: nat): nat
    requires from + n < |run|
  {
    if n == 0 then 0
    else Got(run, from, n - 1) + if Gets(run[from + n - 1], run[from + n]) then 1 else 0
  }

  /** The worker gets the first token; everything else leaves the order of the queue alone. */
  predicate Moved(s: State, t: State) {
    if Gets(s, t) then
      s.queue != [] && t.queue == s.queue[1..]
      && t.worker == if s.queue[0].DocToken? then Holds(s.queue[0].key) else Busy
    else s.queue <= t.queue
  }

  lemma QueueMoves(s: State, t: State)
    requires Next(s, t)
    ensures Moved(s, t)
  {
  }

  predicate MovedAt(run: seq<State>, i: nat)
    requires i < |run| - 1
  {
    Moved(run[i], run[i + 1])
  }

  ghost predicate AllMoved(run: seq<State>) {
    forall i: nat :: i < |run| - 1 ==> MovedAt(run, i)
  }

  lemma RunMoves(run: seq<State>)
    requires IsRun(run)
    ensures AllMoved(run)
  {
    forall i: nat | i < |run| - 1
      ensures MovedAt(run, i)
    {
      QueueMoves(run[i], run[i + 1]);
    }
  }

  /** The token stands at this place of the queue. */
  predicate Stands(s: State, place: int, t: Token) { 0 <= place < |s.queue| && s.queue[place] == t }

  lemma StandsOn(s: State, t: State, place: nat, token: Token)
    requires Moved(s, t) && Stands(s, place, token)
    ensures Gets(s, t) && place == 0 ==> t.worker == if token.DocToken? then Holds(token.key) else Busy
    ensures !(Gets(s, t) && place == 0) ==> Stands(t, place - if Gets(s, t) then 1 else 0, token)
  {
  }

  /** A token is further to the front by as many places as the worker got tokens. */
  lemma {:induction false} MovesUp(run: seq<State>, from: nat, n: nat, place: nat, token: Token)
    requires AllMoved(run) && from + n < |run| && Stands(run[from], place, token) && Got(run, from, n) <= place
    ensures Stands(run[from + n], place - Got(run, from, n), token)
  {
    if n > 0 {
      MovesUp(run, from, n - 1, place, token);
      assert MovedAt(run, from + n - 1);
      StandsOn(run[from + n - 1], run[from + n], place - Got(run, from, n - 1), token);
    }
  }

  ghost predicate Puts(s: State, t: State, token: Token) {
    Follows(s, if token.DocToken? then PutToken(token.key) else PutRequest(token.request), t)
  }

  /**
   * Requests and notifications are served in the order they were put: one put
   * behind `k` tokens is what the worker gets when it has got `k` others since.
   */
  lemma ServedInOrder(run: seq<State>, put: nat, n: nat, token: Token)
    requires IsRun(run) && put + 1 + n < |run| - 1 && Puts(run[put], run[put + 1], token)
    requires Got(run, put + 1, n) == |run[put].queue| && Gets(run[put + 1 + n], run[put + 2 + n])
    ensures run[put + 2 + n].worker == if token.DocToken? then Holds(token.key) else Busy
    ensures Stands(run[put + 1 + n], 0, token)
  {
    RunMoves(run);
    PutLast(run[put], run[put + 1], token);
    ServedNext(run, put + 1, n, |run[put].queue|, token);
  }

  lemma PutLast(s: State, t: State, token: Token)
    requires Puts(s, t, token)
    ensures Stands(t, |s.queue|, token)
  {
  }

  lemma ServedNext(run: seq<State>, from: nat, n: nat, place: nat, token: Token)
    requires AllMoved(run) && from + n < |run| - 1 && Stands(run[from], place, token)
    requires Got(run, from, n) == place && Gets(run[from + n], run[from + n + 1])
    ensures run[from + n + 1].worker == if token.DocToken? then Holds(token.key) else Busy
    ensures Stands(run[from + n], 0, token)
  {
    MovesUp(run, from, n, place, token);
    assert MovedAt(run, from + n);
    StandsOn(run[from + n], run[from + n + 1], 0, token);
  }
}
