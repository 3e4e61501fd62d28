/** When heads never go back: a document that one listener at a time examines, in the order of its versions. */
module HeadOrder {
  import opened Common
  import opened HeadProtocol
  import opened HeadRuns
  import opened HeadRounds
  import CatchUp = HeadCatchUp
  import Queue = OperationsQueue

  /** No later than: a head that is not there is the oldest. */
  predicate UpTo(a: Option<nat>, b: Option<nat>) { a.Some? ==> b.Some? && a.value <= b.value }

  /** In order where both are there. */
  predicate Ordered(a: Option<nat>, b: Option<nat>) { a.Some? && b.Some? ==> a.value <= b.value }

  // ----- one listener -----

  ghost predicate NoLook(s: State, id: Key) { forall l :: l in s.pending ==> l.id != id }

  predicate Examines(step: Step, id: Key) { step.Examine? && step.id == id }

  /** The version last examined before step `k`, or else the starting head. */
  function LastExamined(run: seq<State>, steps: seq<Step>, id: Key, k: nat): Option<nat>
    requires |run| == |steps| + 1 && k <= |steps|
  {
    if k == 0 then Head(run[0].stores, id)
    else if Examines(steps[k - 1], id) then Some(steps[k - 1].snapshot)
    else LastExamined(run, steps, id, k - 1)
  }

  /** Whenever the document is examined, nothing found about it is still to be enqueued, and its version is no older. */
  ghost predicate OneListener(run: seq<State>, steps: seq<Step>, id: Key)
    requires |run| == |steps| + 1
  {
    forall k :: 0 <= k < |steps| && Examines(steps[k], id) ==>
      NoLook(run[k], id) && UpTo(LastExamined(run, steps, id, k), Some(steps[k].snapshot))
  }

  /** Nothing about the document is under way. */
  ghost predicate AtRest(s: State, id: Key) { s.worker.Idle? && NoLook(s, id) && id !in s.changes }

  // ----- the chain from head to last examination -----

  function InRound(s: State, id: Key): Option<nat> {
    if !s.worker.Idle? && s.worker.id == id then s.worker.change.snapshot else None
  }

  function InQueue(s: State, id: Key): Option<nat> { if id in s.changes then s.changes[id].snapshot else None }

  /** Head, worker's snapshot and queued snapshot come one after the other, and up to `last`. */
  predicate Chain(s: State, id: Key, last: Option<nat>) {
    var (h, w, q) := (Head(s.stores, id), InRound(s, id), InQueue(s, id));
    && Ordered(h, w) && Ordered(h, q) && Ordered(w, q)
    && UpTo(h, last) && UpTo(w, last) && UpTo(q, last)
  }

  /** What is pending is newer still, and there is one at most. */
  ghost predicate PendingLast(s: State, id: Key, last: Option<nat>) {
    forall l :: l in s.pending && l.id == id ==>
      && s.pending[l] == 1 && UpTo(Some(l.version), last)
      && Ordered(Head(s.stores, id), Some(l.version)) && Ordered(InRound(s, id), Some(l.version))
      && Ordered(InQueue(s, id), Some(l.version))
      && forall m :: m in s.pending && m.id == id ==> m == l
  }

  function Next(step: Step, id: Key, last: Option<nat>): Option<nat> {
    if Examines(step, id) then Some(step.snapshot) else last
  }

  lemma HeadOnly(s: State, step: Step, srv: Server, id: Key)
    requires Enabled(s, step, srv) && step.Process?
    ensures var t := Apply(s, step, srv);
            && t.pending == s.pending && t.changes == s.changes && t.worker.Idle?
            && (Head(t.stores, id) == Head(s.stores, id)
                || (InRound(s, id).Some? && Head(t.stores, id) == InRound(s, id)))
  {
    HeadMoves(s, step, srv, id);
  }

  lemma ProcessChain(s: State, step: Step, srv: Server, id: Key, last: Option<nat>)
    requires Enabled(s, step, srv) && step.Process? && Chain(s, id, last) && PendingLast(s, id, last)
    ensures var t := Apply(s, step, srv);
            Chain(t, id, last) && PendingLast(t, id, last) && UpTo(Head(s.stores, id), Head(t.stores, id))
  {
    HeadOnly(s, step, srv, id);
  }

  lemma ExamineChain(s: State, step: Step, srv: Server, id: Key, last: Option<nat>)
    requires Enabled(s, step, srv) && step.Examine? && Chain(s, id, last) && PendingLast(s, id, last)
    requires step.id == id ==> NoLook(s, id) && UpTo(last, Some(step.snapshot))
    ensures var t := Apply(s, step, srv);
            && Chain(t, id, Next(step, id, last)) && PendingLast(t, id, Next(step, id, last)) && t.stores == s.stores
  {
    var t := Apply(s, step, srv);
    assert t == s.(pending := t.pending);
    ExaminedIsPending(s, step, srv, id);
  }

  /** An examination adds one look at most, of its own document. */
  lemma ExaminedIsPending(s: State, step: Step, srv: Server, id: Key)
    requires Enabled(s, step, srv) && step.Examine?
    ensures var t := Apply(s, step, srv);
            && (step.id != id ==> forall l: Look :: l.id == id ==> t.pending[l] == s.pending[l])
            && (step.id == id && NoLook(s, id) ==>
                  forall l, m :: l in t.pending && l.id == id && m in t.pending && m.id == id ==>
                    l == m && t.pending[l] == 1 && l.version == step.snapshot)
  {
  }

  lemma SendChain(s: State, step: Step, srv: Server, id: Key, last: Option<nat>)
    requires Enabled(s, step, srv) && step.Send? && Chain(s, id, last) && PendingLast(s, id, last)
    ensures var t := Apply(s, step, srv); Chain(t, id, last) && PendingLast(t, id, last) && t.stores == s.stores
  {
    var t := Apply(s, step, srv);
    assert t == s.(pending := t.pending, changes := t.changes);
    if step.look.id == id {
      assert InQueue(t, id) == Some(step.look.version) && NoLook(t, id);
    } else {
      assert InQueue(t, id) == InQueue(s, id);
    }
  }

  lemma OtherChain(s: State, step: Step, srv: Server, id: Key, last: Option<nat>)
    requires Enabled(s, step, srv) && Chain(s, id, last) && PendingLast(s, id, last)
    requires !step.Process? && !step.Examine? && !step.Send?
    ensures var t := Apply(s, step, srv); Chain(t, id, last) && PendingLast(t, id, last) && t.stores == s.stores
  {
    var t := Apply(s, step, srv);
    assert t.pending == s.pending && t.stores == s.stores;
    assert InRound(t, id) == InRound(s, id) || (InRound(t, id) == InQueue(s, id) && InQueue(t, id) == None);
    assert InQueue(t, id) == InQueue(s, id) || InQueue(t, id) == None;
  }

  lemma StepChain(s: State, step: Step, srv: Server, id: Key, last: Option<nat>)
    requires Enabled(s, step, srv) && Chain(s, id, last) && PendingLast(s, id, last)
    requires Examines(step, id) ==> NoLook(s, id) && UpTo(last, Some(step.snapshot))
    ensures var (t, next) := (Apply(s, step, srv), Next(step, id, last));
            Chain(t, id, next) && PendingLast(t, id, next) && UpTo(Head(s.stores, id), Head(t.stores, id))
  {
    match step
    case Process(_, _) => ProcessChain(s, step, srv, id, last);
    case Examine(_, _) => ExamineChain(s, step, srv, id, last);
    case Send(_) => SendChain(s, step, srv, id, last);
    case _ => OtherChain(s, step, srv, id, last);
  }

  lemma {:induction false} RunChain(run: seq<State>, steps: seq<Step>, srv: Server, id: Key, k: nat)
    requires IsRun(run, steps, srv) && OneListener(run, steps, id) && AtRest(run[0], id) && k < |run|
    ensures var last := LastExamined(run, steps, id, k); Chain(run[k], id, last) && PendingLast(run[k], id, last)
  {
    if k > 0 {
      RunChain(run, steps, srv, id, k - 1);
      assert StepAt(run, steps, srv, k - 1);
      StepChain(run[k - 1], steps[k - 1], srv, id, LastExamined(run, steps, id, k - 1));
    }
  }

  lemma HeadStepsOn(run: seq<State>, steps: seq<Step>, srv: Server, id: Key, k: nat)
    requires IsRun(run, steps, srv) && OneListener(run, steps, id) && AtRest(run[0], id) && k < |steps|
    ensures UpTo(Head(run[k].stores, id), Head(run[k + 1].stores, id))
  {
    RunChain(run, steps, srv, id, k);
    assert StepAt(run, steps, srv, k);
    StepChain(run[k], steps[k], srv, id, LastExamined(run, steps, id, k));
  }

  /**
   * In every run from rest a head never goes back, as long as its document is
   * examined by one listener at a time and in the order of its versions.
   */
  lemma {:induction false} HeadNeverGoesBack(run: seq<State>, steps: seq<Step>, srv: Server, id: Key, i: nat, j: nat)
    requires IsRun(run, steps, srv) && OneListener(run, steps, id) && AtRest(run[0], id) && i <= j < |run|
    ensures UpTo(Head(run[i].stores, id), Head(run[j].stores, id))
    decreases j
  {
    if i < j {
      HeadNeverGoesBack(run, steps, srv, id, i, j - 1);
      HeadStepsOn(run, steps, srv, id, j - 1);
    }
  }

  // ----- what a listener does to the protocol -----

  /** One snapshot of an index message: examined at step `at` and, if it needs processing, enqueued at step `sent`. */
  datatype Visit = Visit(snapshot: Snapshot, at: nat, sent: nat)

  function FoundBy(run: seq<State>, srv: Server, v: Visit): Option<bool>
    requires v.at < |run|
  {
    Found(run[v.at], v.snapshot.id, v.snapshot.version, srv)
  }

  function LookOf(run: seq<State>, srv: Server, v: Visit): Look
    requires v.at < |run| && FoundBy(run, srv, v).Some?
  {
    Look(v.snapshot.id, v.snapshot.version, FoundBy(run, srv, v).value)
  }

  ghost predicate IsVisit(run: seq<State>, steps: seq<Step>, srv: Server, v: Visit)
    requires |run| == |steps| + 1
  {
    && v.at < |steps| && steps[v.at] == Examine(v.snapshot.id, v.snapshot.version)
    && v.snapshot.lastSeen == srv.seen(v.snapshot.id, v.snapshot.version)
    && (FoundBy(run, srv, v).Some? ==>
          v.at < v.sent && (v.sent < |steps| ==> steps[v.sent] == Send(LookOf(run, srv, v))))
  }

  /**
   * A listener's thread in the run: it examines snapshot after snapshot, and sends
   * what it found before it examines the next. The last may still be on its way.
   */
  ghost predicate Listens(run: seq<State>, steps: seq<Step>, srv: Server, vs: seq<Visit>)
    requires |run| == |steps| + 1
  {
    && (forall i :: 0 <= i < |vs| ==> IsVisit(run, steps, srv, vs[i]))
    && forall i, j :: 0 <= i < j < |vs| ==>
         vs[i].at < vs[j].at && (FoundBy(run, srv, vs[i]).Some? ==> vs[i].sent < vs[j].at)
  }

  function Snapshots(vs: seq<Visit>): seq<Snapshot> { seq(|vs|, i requires 0 <= i < |vs| => vs[i].snapshot) }

  function Moments(run: seq<State>, vs: seq<Visit>): seq<map<Key, nat>>
    requires forall i :: 0 <= i < |vs| ==> vs[i].at < |run|
  {
    seq(|vs|, i requires 0 <= i < |vs| => run[vs[i].at].stores.heads)
  }

  /** What the listener's `Send` steps told the queue, in order. */
  function Tally(run: seq<State>, steps: seq<Step>, srv: Server, vs: seq<Visit>): seq<(Key, Change)>
    requires |run| == |steps| + 1
    requires forall i :: 0 <= i < |vs| ==> vs[i].at < |run|
    requires forall i :: 0 <= i < |vs| && FoundBy(run, srv, vs[i]).Some? ==>
               vs[i].sent < |steps| && steps[vs[i].sent].Send?
  {
    if vs == [] then []
    else
      var v := vs[|vs| - 1];
      Tally(run, steps, srv, vs[..|vs| - 1])
      + if FoundBy(run, srv, v).None? then []
        else [(steps[v.sent].look.id, Told(steps[v.sent].look, srv))]
  }

  /** What one visit tells the queue. */
  function ToldBy(run: seq<State>, srv: Server, v: Visit): seq<(Key, Change)>
    requires v.at < |run|
  {
    if FoundBy(run, srv, v).None? then []
    else [(v.snapshot.id, Queue.Change(v.snapshot.lastSeen, Some(v.snapshot.version), FoundBy(run, srv, v)))]
  }

  lemma WantedLast(run: seq<State>, srv: Server, vs: seq<Visit>)
    requires vs != [] && forall i :: 0 <= i < |vs| ==> vs[i].at < |run|
    requires var s := vs[|vs| - 1].snapshot; s.lastSeen == srv.seen(s.id, s.version)
    ensures var front := vs[..|vs| - 1];
            Wanted(Snapshots(vs), Moments(run, vs), srv.catchup)
            == Wanted(Snapshots(front), Moments(run, front), srv.catchup) + ToldBy(run, srv, vs[|vs| - 1])
  {
    var front := vs[..|vs| - 1];
    assert Snapshots(vs)[..|vs| - 1] == Snapshots(front) && Moments(run, vs)[..|vs| - 1] == Moments(run, front);
  }

  lemma VisitTells(run: seq<State>, steps: seq<Step>, srv: Server, v: Visit)
    requires |run| == |steps| + 1 && IsVisit(run, steps, srv, v) && v.sent < |steps| && FoundBy(run, srv, v).Some?
    ensures steps[v.sent].Send? && ToldBy(run, srv, v) == [(steps[v.sent].look.id, Told(steps[v.sent].look, srv))]
  {
  }

  /** The loop of `HandleSubdocs` is such a thread: what it enqueues is what the thread's steps tell the queue. */
  lemma {:induction false} ListenerSendsWanted(run: seq<State>, steps: seq<Step>, srv: Server, vs: seq<Visit>)
    requires |run| == |steps| + 1 && Listens(run, steps, srv, vs)
    requires forall i :: 0 <= i < |vs| && FoundBy(run, srv, vs[i]).Some? ==> vs[i].sent < |steps|
    ensures Tally(run, steps, srv, vs) == Wanted(Snapshots(vs), Moments(run, vs), srv.catchup)
  {
    if vs != [] {
      var last := vs[|vs| - 1];
      ListenerSendsWanted(run, steps, srv, vs[..|vs| - 1]);
      assert IsVisit(run, steps, srv, last);
      WantedLast(run, srv, vs);
      if FoundBy(run, srv, last).Some? {
        VisitTells(run, steps, srv, last);
      }
    }
  }

  /** Visit `i` is under way before step `k`. */
  ghost predicate UnderWay(run: seq<State>, srv: Server, vs: seq<Visit>, i: int, k: nat, l: Look) {
    && 0 <= i < |vs| && vs[i].at < |run| && vs[i].at < k <= vs[i].sent
    && FoundBy(run, srv, vs[i]).Some? && LookOf(run, srv, vs[i]) == l
  }

  /** What is pending about the document comes from one visit under way. */
  ghost predicate PendingFromVisits(run: seq<State>, srv: Server, vs: seq<Visit>, id: Key, k: nat)
    requires k < |run|
  {
    forall l :: l in run[k].pending && l.id == id ==>
      run[k].pending[l] == 1 && exists i :: UnderWay(run, srv, vs, i, k, l)
  }

  /** The listener is the only one to examine the document. */
  ghost predicate Alone(steps: seq<Step>, vs: seq<Visit>, id: Key) {
    forall k :: 0 <= k < |steps| && Examines(steps[k], id) ==> exists j :: 0 <= j < |vs| && vs[j].at == k
  }

  lemma OneUnderWay(run: seq<State>, steps: seq<Step>, srv: Server, vs: seq<Visit>, i: int, j: int, k: nat,
                    l: Look, m: Look)
    requires |run| == |steps| + 1 && Listens(run, steps, srv, vs)
    requires UnderWay(run, srv, vs, i, k, l) && UnderWay(run, srv, vs, j, k, m)
    ensures l == m
  {
  }

  /** At an examination nothing is under way. */
  lemma VisitsAlternate(run: seq<State>, steps: seq<Step>, srv: Server, vs: seq<Visit>, id: Key, k: nat)
    requires |run| == |steps| + 1 && Listens(run, steps, srv, vs) && Alone(steps, vs, id) && k < |steps|
    requires PendingFromVisits(run, srv, vs, id, k) && Examines(steps[k], id)
    ensures NoLook(run[k], id)
  {
    var j :| 0 <= j < |vs| && vs[j].at == k;
  }

  lemma ExamineComesFromVisit(run: seq<State>, steps: seq<Step>, srv: Server, vs: seq<Visit>, id: Key, k: nat)
    requires IsRun(run, steps, srv) && Listens(run, steps, srv, vs) && Alone(steps, vs, id) && k < |steps|
    requires PendingFromVisits(run, srv, vs, id, k) && Examines(steps[k], id)
    ensures PendingFromVisits(run, srv, vs, id, k + 1)
  {
    var j :| 0 <= j < |vs| && vs[j].at == k;
    VisitsAlternate(run, steps, srv, vs, id, k);
    assert StepAt(run, steps, srv, k) && IsVisit(run, steps, srv, vs[j]);
    forall l | l in run[k + 1].pending && l.id == id
      ensures run[k + 1].pending[l] == 1 && UnderWay(run, srv, vs, j, k + 1, l)
    {
    }
  }

  lemma SendEndsVisit(run: seq<State>, steps: seq<Step>, srv: Server, vs: seq<Visit>, id: Key, k: nat)
    requires IsRun(run, steps, srv) && Listens(run, steps, srv, vs) && k < |steps|
    requires PendingFromVisits(run, srv, vs, id, k) && steps[k].Send? && steps[k].look.id == id
    ensures NoLook(run[k + 1], id)
  {
    assert StepAt(run, steps, srv, k);
    var sent := steps[k].look;
    var j :| UnderWay(run, srv, vs, j, k, sent);
    forall l | l in run[k].pending && l.id == id
      ensures l == sent
    {
      var i :| UnderWay(run, srv, vs, i, k, l);
      OneUnderWay(run, steps, srv, vs, i, j, k, l, sent);
    }
  }

  lemma OtherKeepsVisits(run: seq<State>, steps: seq<Step>, srv: Server, vs: seq<Visit>, id: Key, k: nat)
    requires IsRun(run, steps, srv) && Listens(run, steps, srv, vs) && k < |steps|
    requires PendingFromVisits(run, srv, vs, id, k) && !Examines(steps[k], id)
    requires !(steps[k].Send? && steps[k].look.id == id)
    ensures PendingFromVisits(run, srv, vs, id, k + 1)
  {
    assert StepAt(run, steps, srv, k);
    var n := k + 1;
    forall l | l in run[n].pending && l.id == id
      ensures run[n].pending[l] == 1 && exists i :: UnderWay(run, srv, vs, i, n, l)
    {
      SameLook(run[k], steps[k], srv, l);
      var i :| UnderWay(run, srv, vs, i, k, l);
      assert IsVisit(run, steps, srv, vs[i]);
      assert UnderWay(run, srv, vs, i, n, l);
    }
  }

  /** Steps of other documents leave the document's looks alone. */
  lemma SameLook(s: State, step: Step, srv: Server, l: Look)
    requires Enabled(s, step, srv) && !Examines(step, l.id) && !(step.Send? && step.look.id == l.id)
    ensures Apply(s, step, srv).pending[l] == s.pending[l]
  {
  }

  lemma StepKeepsVisits(run: seq<State>, steps: seq<Step>, srv: Server, vs: seq<Visit>, id: Key, k: nat)
    requires IsRun(run, steps, srv) && Listens(run, steps, srv, vs) && Alone(steps, vs, id) && k < |steps|
    requires PendingFromVisits(run, srv, vs, id, k)
    ensures PendingFromVisits(run, srv, vs, id, k + 1)
  {
    if Examines(steps[k], id) {
      ExamineComesFromVisit(run, steps, srv, vs, id, k);
    } else if steps[k].Send? && steps[k].look.id == id {
      SendEndsVisit(run, steps, srv, vs, id, k);
    } else {
      OtherKeepsVisits(run, steps, srv, vs, id, k);
    }
  }

  lemma {:induction false} PendingIsVisited(run: seq<State>, steps: seq<Step>, srv: Server, vs: seq<Visit>, id: Key,
                                            k: nat)
    requires IsRun(run, steps, srv) && Listens(run, steps, srv, vs) && Alone(steps, vs, id)
    requires NoLook(run[0], id) && k < |run|
    ensures PendingFromVisits(run, srv, vs, id, k)
  {
    if k > 0 {
      PendingIsVisited(run, steps, srv, vs, id, k - 1);
      StepKeepsVisits(run, steps, srv, vs, id, k - 1);
    }
  }

  /** The server's reports of the document come in the order of its versions, from the starting head on. */
  ghost predicate ReportedInOrder(start: State, vs: seq<Visit>, id: Key) {
    && (forall i, j :: 0 <= i < j < |vs| && vs[i].snapshot.id == vs[j].snapshot.id == id ==>
          vs[i].snapshot.version <= vs[j].snapshot.version)
    && forall i :: 0 <= i < |vs| && vs[i].snapshot.id == id ==>
         UpTo(Head(start.stores, id), Some(vs[i].snapshot.version))
  }

  lemma {:induction false} LastIsVisit(run: seq<State>, steps: seq<Step>, srv: Server, vs: seq<Visit>, id: Key, k: nat)
    requires |run| == |steps| + 1 && Listens(run, steps, srv, vs) && Alone(steps, vs, id) && k <= |steps|
    ensures var last := LastExamined(run, steps, id, k);
            || last == Head(run[0].stores, id)
            || exists i :: 0 <= i < |vs| && vs[i].at < k && vs[i].snapshot.id == id
                           && last == Some(vs[i].snapshot.version)
  {
    if k > 0 {
      if Examines(steps[k - 1], id) {
        var j :| 0 <= j < |vs| && vs[j].at == k - 1;
        assert IsVisit(run, steps, srv, vs[j]);
      } else {
        LastIsVisit(run, steps, srv, vs, id, k - 1);
      }
    }
  }

  /**
   * A document that one thread of `HandleSubdocs` examines alone, and whose
   * versions the server reports in order, meets the condition.
   */
  lemma ListenerIsOneListener(run: seq<State>, steps: seq<Step>, srv: Server, vs: seq<Visit>, id: Key)
    requires IsRun(run, steps, srv) && Listens(run, steps, srv, vs) && Alone(steps, vs, id)
    requires NoLook(run[0], id) && ReportedInOrder(run[0], vs, id)
    ensures OneListener(run, steps, id)
  {
    forall k | 0 <= k < |steps| && Examines(steps[k], id)
      ensures NoLook(run[k], id) && UpTo(LastExamined(run, steps, id, k), Some(steps[k].snapshot))
    {
      PendingIsVisited(run, steps, srv, vs, id, k);
      VisitsAlternate(run, steps, srv, vs, id, k);
      LastIsVisit(run, steps, srv, vs, id, k);
      var j :| 0 <= j < |vs| && vs[j].at == k;
      assert IsVisit(run, steps, srv, vs[j]);
    }
  }

  /** So in every run from rest the head of such a document never goes back. */
  lemma ListenerKeepsOrder(run: seq<State>, steps: seq<Step>, srv: Server, vs: seq<Visit>, id: Key, i: nat, j: nat)
    requires IsRun(run, steps, srv) && Listens(run, steps, srv, vs) && Alone(steps, vs, id)
    requires AtRest(run[0], id) && ReportedInOrder(run[0], vs, id) && i <= j < |run|
    ensures UpTo(Head(run[i].stores, id), Head(run[j].stores, id))
  {
    ListenerIsOneListener(run, steps, srv, vs, id);
    HeadNeverGoesBack(run, steps, srv, id, i, j);
  }

  /** The run in which a head goes back has two listeners: the second examines what the first has yet to send. */
  lemma CrossingIsTwoListeners(s: State, id: Key, v: nat, w: nat, srv: Server, run: seq<State>)
    requires CatchUp.TwoLooks(s, id, v, w, srv) && IsRun(run, CatchUp.CrossingSteps(s, id, v, w), srv) && run[0] == s
    ensures !OneListener(run, CatchUp.CrossingSteps(s, id, v, w), id)
  {
    var steps := CatchUp.CrossingSteps(s, id, v, w);
    assert StepAt(run, steps, srv, 0);
    assert Look(id, v, true) in run[1].pending && Examines(steps[1], id);
  }
}
