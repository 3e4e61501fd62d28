/**
 * The pipeline as it runs: listeners, the token queue and the worker together.
 * The only map of changes is the queue's; every step of the whole is a step of
 * the queue, a step of the reconnect protocol, or both at once.
 */
module Pipeline {
  import opened Common
  import Queue = OperationsQueue
  import opened HeadProtocol
  import Head = HeadRuns

  /** `head.changes` is not part of the system: the protocol sees the queue's map. */
  datatype System = System(head: Head.State, queue: Queue.State)

  function View(p: System): Head.State { p.head.(changes := p.queue.changes) }

  /** A worker step is `Take` when the token's record is popped, `Finish` when a request or an empty take is done. */
  datatype Step =
    | Around(step: Head.Step)
    | Send(look: Head.Look)
    | Live(id: Key, timestamp: int)
    | PutToken(key: Key)
    | PutRequest(request: nat)
    | GetNext
    | Take
    | Process(now: real, disk: bool)
    | Finish

  /** What happens beside the queue: edits, index changes, examinations and fetches. */
  predicate IsAround(step: Head.Step) { step.Edit? || step.Reindex? || step.Examine? || step.Fetch? }

  /** What the step does to the queue. */
  function QueueStep(p: System, step: Step, srv: Head.Server): Option<Queue.Step> {
    match step
    case Around(_) => None
    case Send(look) => Some(Queue.Merging(look.id, Head.Told(look, srv)))
    case Live(id, ts) => Some(Queue.Merging(id, Queue.Change(ts, None, None)))
    case PutToken(k) => Some(Queue.PutToken(k))
    case PutRequest(r) => Some(Queue.PutRequest(r))
    case GetNext => Some(Queue.GetNext)
    case Take => Some(Queue.Take)
    case Process(_, _) => Some(Queue.Finish)
    case Finish => Some(Queue.Finish)
  }

  ghost predicate Enabled(p: System, step: Step, srv: Head.Server) {
    && (QueueStep(p, step, srv).Some? ==> Queue.Enabled(p.queue, QueueStep(p, step, srv).value))
    && match step
       case Around(s) => IsAround(s) && Head.Enabled(p.head, s, srv)
       case Send(look) => look in p.head.pending
       case Process(now, _) => p.head.worker.Fetched? && p.head.clock <= now
       case Finish => p.head.worker.Idle?
       case _ => true
  }

  ghost function Apply(p: System, step: Step, srv: Head.Server): System
    requires Enabled(p, step, srv)
  {
    var q := if QueueStep(p, step, srv).Some? then Queue.Apply(p.queue, QueueStep(p, step, srv).value) else p.queue;
    match step
    case Around(s) => System(Head.Apply(p.head, s, srv), q)
    case Send(look) => System(p.head.(pending := p.head.pending - multiset{look}), q)
    case Take =>
      var key := p.queue.worker.key;
      var record := Queue.Lookup(p.queue.changes, key);
      System(if record.Some? then p.head.(worker := Head.Took(key, record.value)) else p.head, q)
    case Process(now, disk) => System(Head.AfterRound(p.head, now, disk, srv), q)
    case _ => System(p.head, q)
  }

  /** The protocol's step, if it sees one. */
  function HeadStep(p: System, step: Step): Option<Head.Step> {
    match step
    case Around(s) => Some(s)
    case Send(look) => Some(Head.Send(look))
    case Live(id, ts) => Some(Head.Live(id, ts))
    case Take => if p.queue.worker.Holds? then Some(Head.Take(p.queue.worker.key)) else None
    case Process(now, disk) => Some(Head.Process(now, disk))
    case _ => None
  }

  /** The worker is in a round only while the queue counts it busy, and tokens match records. */
  ghost predicate Coupled(p: System) {
    Queue.TokenInvariant(p.queue) && (p.head.worker.Idle? || p.queue.worker.Busy?)
  }

  lemma HeldIsThere(q: Queue.State)
    requires Queue.TokenInvariant(q) && q.worker.Holds?
    ensures q.worker.key in q.changes
  {
    assert Queue.Tokens(q, q.worker.key) >= 1;
  }

  lemma CoupledStays(p: System, step: Step, srv: Head.Server)
    requires Coupled(p) && Enabled(p, step, srv)
    ensures Coupled(Apply(p, step, srv))
  {
    var qs := QueueStep(p, step, srv);
    if qs.Some? {
      Queue.TokenStep(p.queue, qs.value);
    }
  }

  /** What the protocol sees of the step. */
  ghost predicate Seen(p: System, step: Step, srv: Head.Server)
    requires Enabled(p, step, srv)
  {
    var (s, t, hs) := (View(p), View(Apply(p, step, srv)), HeadStep(p, step));
    if hs.Some? then Head.Follows(s, hs.value, t, srv) else t == s
  }

  lemma AroundIsSeen(p: System, step: Step, srv: Head.Server)
    requires Enabled(p, step, srv) && step.Around?
    ensures Seen(p, step, srv)
  {
  }

  lemma EnqueueIsSeen(p: System, step: Step, srv: Head.Server)
    requires Enabled(p, step, srv) && (step.Send? || step.Live?)
    ensures Seen(p, step, srv)
  {
  }

  lemma TakeIsSeen(p: System, srv: Head.Server)
    requires Coupled(p) && Enabled(p, Take, srv)
    ensures Seen(p, Take, srv)
  {
    HeldIsThere(p.queue);
  }

  lemma ProcessIsSeen(p: System, step: Step, srv: Head.Server)
    requires Enabled(p, step, srv) && step.Process?
    ensures Seen(p, step, srv)
  {
    assert Head.RoundAt(View(p), step.now, step.disk, srv) == Head.RoundAt(p.head, step.now, step.disk, srv);
  }

  /** Every step of the system is one the protocol allows, or one it does not see; a take always hands out a record. */
  lemma StepRefines(p: System, step: Step, srv: Head.Server)
    requires Coupled(p) && Enabled(p, step, srv)
    ensures Coupled(Apply(p, step, srv)) && Seen(p, step, srv)
  {
    CoupledStays(p, step, srv);
    match step
    case Around(_) => AroundIsSeen(p, step, srv);
    case Send(_) => EnqueueIsSeen(p, step, srv);
    case Live(_, _) => EnqueueIsSeen(p, step, srv);
    case Take => TakeIsSeen(p, srv);
    case Process(_, _) => ProcessIsSeen(p, step, srv);
    case PutToken(_) =>
    case PutRequest(_) =>
    case GetNext =>
    case Finish =>
  }

  ghost predicate IsRun(run: seq<System>, steps: seq<Step>, srv: Head.Server) {
    && |run| == |steps| + 1 && run[0].queue == Queue.INITIAL
    && forall i {:trigger steps[i]} :: 0 <= i < |steps| ==>
         Enabled(run[i], steps[i], srv) && run[i + 1] == Apply(run[i], steps[i], srv)
  }

  lemma QueueRecords(p: System, step: Step, srv: Head.Server)
    requires Enabled(p, step, srv) && Queue.RecordInvariant(p.queue)
    ensures Queue.RecordInvariant(Apply(p, step, srv).queue)
  {
    var qs := QueueStep(p, step, srv);
    if qs.Some? {
      Queue.RecordStep(p.queue, qs.value);
    }
  }

  lemma ProtocolKeeps(p: System, step: Step, srv: Head.Server)
    requires Coupled(p) && Enabled(p, step, srv) && Head.Consistent(View(p), srv)
    ensures Head.Consistent(View(Apply(p, step, srv)), srv)
  {
    StepRefines(p, step, srv);
    var hs := HeadStep(p, step);
    if hs.Some? {
      Head.StepKeeps(View(p), hs.value, srv);
    }
  }

  /**
   * The whole pipeline, in every interleaving from an empty queue and a hydrated
   * start: tokens match records, every record is the fold of what was enqueued
   * since the last take, and no recorded head is ahead of its file.
   */
  lemma {:induction false} PipelineIsSafe(run: seq<System>, steps: seq<Step>, srv: Head.Server, i: nat)
    requires IsRun(run, steps, srv) && i < |run|
    requires run[0].head.worker.Idle? && Head.Consistent(View(run[0]), srv)
    ensures Coupled(run[i]) && Queue.RecordInvariant(run[i].queue)
    ensures Head.Consistent(View(run[i]), srv) && Head.Behind(View(run[i]), srv)
  {
    if i > 0 {
      PipelineIsSafe(run, steps, srv, i - 1);
      var step := steps[i - 1];
      assert run[i - 1 + 1] == Apply(run[i - 1], step, srv);
      StepRefines(run[i - 1], step, srv);
      QueueRecords(run[i - 1], step, srv);
      ProtocolKeeps(run[i - 1], step, srv);
    }
  }
}
