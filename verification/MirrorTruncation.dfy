/** The per-pass truncation budget, and what every update ends with. */
module MirrorTruncation {
  import opened Common
  import opened Dict
  import opened MirrorModel
  import opened MirrorFrames
  import opened MirrorPhases
  import opened MirrorFinish

  /** Does planned operation `i` set out to empty a file that is not empty when the updates begin? */
  predicate Empties(w: World, ops: seq<Op>, env: Env, i: nat)
    requires i < |ops|
  {
    var body := WriteBody(ops[i], 1, env);
    body.Some? && Truncates(Midway(w, ops, env).w.tree, ops[i], Rel(ops[i]), body.value)
  }

  /** How many of the first `n` do. */
  function Emptied(w: World, ops: seq<Op>, env: Env, n: nat): nat
    requires n <= |ops|
  {
    if n == 0 then 0 else Emptied(w, ops, env, n - 1) + (if Empties(w, ops, env, n - 1) then 1 else 0)
  }

  function Min(a: nat, b: nat): nat { if a < b then a else b }

  lemma {:induction false} EarlyPhasesAreFree(p: Progress, phase: Phase, env: Env, n: nat)
    requires n <= |p.ops| && !phase.Finishing?
    ensures Run(p, phase, env, n).applied == p.applied
  {
    if n > 0 {
      EarlyPhasesAreFree(p, phase, env, n - 1);
    }
  }

  lemma MidwayUnspent(w: World, ops: seq<Op>, env: Env)
    ensures Midway(w, ops, env).applied == 0
  {
    EarlyPhasesAreFree(Start(w, ops), Creating, env, |ops|);
    EarlyPhasesAreFree(AfterCreates(w, ops, env), Renaming, env, |ops|);
  }

  /** An update meets the file as the creates and renames left it, so it truncates iff it set out to. */
  lemma TruncatesAtTurn(w: World, ops: seq<Op>, env: Env, dels: seq<string>, i: nat)
    requires WellPlanned(w, ops) && Apart(ops, dels) && i < |ops| && ops[i].kind.Update?
    requires WriteBody(ops[i], 1, env).Some?
    ensures Truncates(Before(w, ops, env, dels, i).w.tree, ops[i], Rel(ops[i]), WriteBody(ops[i], 1, env).value)
            <==> Empties(w, ops, env, i)
  {
    FinishUpdate(w, ops, env, dels, i);
  }

  lemma TurnOf(w: World, ops: seq<Op>, env: Env, dels: seq<string>, i: nat)
    requires WellPlanned(w, ops) && i < |ops|
    ensures var (q, r) := (Before(w, ops, env, dels, i), Before(w, ops, env, dels, i + 1));
            if ops[i].kind.Update? then r.applied == Exec(q.w, ops[i], q.applied, 1, env).applied
            else r.applied == q.applied
  {
    var p := Tail(w, ops, env, dels);
    RunLeaves(p, Finishing, env, i, i);
    TailOps(w, ops, env, dels, i, File(""));
    MidwayOps(w, ops, env, i);
  }

  lemma SpendOne(w: World, ops: seq<Op>, env: Env, dels: seq<string>, i: nat)
    requires WellPlanned(w, ops) && Apart(ops, dels) && i < |ops|
    ensures var (q, r) := (Before(w, ops, env, dels, i).applied, Before(w, ops, env, dels, i + 1).applied);
            r == if Empties(w, ops, env, i) && q < env.limit then q + 1 else q
  {
    TurnOf(w, ops, env, dels, i);
    assert PlannedOp(w, ops[i]);
    if ops[i].kind.Update? && WriteBody(ops[i], 1, env).Some? {
      TruncatesAtTurn(w, ops, env, dels, i);
    }
  }

  lemma SpentFirst(w: World, ops: seq<Op>, env: Env, dels: seq<string>)
    ensures Before(w, ops, env, dels, 0).applied == 0 && Emptied(w, ops, env, 0) == 0
  {
    MidwayUnspent(w, ops, env);
  }

  lemma SpentStep(w: World, ops: seq<Op>, env: Env, dels: seq<string>, i: nat)
    requires WellPlanned(w, ops) && Apart(ops, dels) && i < |ops|
    requires Before(w, ops, env, dels, i).applied == Min(Emptied(w, ops, env, i), env.limit)
    ensures Before(w, ops, env, dels, i + 1).applied == Min(Emptied(w, ops, env, i + 1), env.limit)
  {
    SpendOne(w, ops, env, dels, i);
  }

  /** What is spent before an update's turn is the smaller of the limit and the truncations before it. */
  lemma {:induction false} Spent(w: World, ops: seq<Op>, env: Env, dels: seq<string>, i: nat)
    requires WellPlanned(w, ops) && Apart(ops, dels) && i <= |ops|
    ensures Before(w, ops, env, dels, i).applied == Min(Emptied(w, ops, env, i), env.limit)
  {
    if i == 0 {
      SpentFirst(w, ops, env, dels);
    } else {
      Spent(w, ops, env, dels, i - 1);
      SpentStep(w, ops, env, dels, i - 1);
    }
  }

  /** The outcome of an update's own turn. */
  lemma UpdateOutcome(w: World, ops: seq<Op>, env: Env, dels: seq<string>, i: nat)
    requires WellPlanned(w, ops) && Apart(ops, dels) && i < |ops| && ops[i].kind.Update?
    ensures Final(w, ops, env, dels).ops[i] ==
            Exec(Before(w, ops, env, dels, i).w, ops[i], Before(w, ops, env, dels, i).applied, 1, env).op
  {
    var p := Tail(w, ops, env, dels);
    TailOps(w, ops, env, dels, i, File(""));
    RunKeeps(p, Finishing, env, i, |p.ops|);
  }

  /** Gated: the budget was spent on earlier updates of the plan. */
  predicate IsGated(w: World, ops: seq<Op>, env: Env, i: nat)
    requires i < |ops|
  {
    Empties(w, ops, env, i) && Emptied(w, ops, env, i) >= env.limit
  }

  /**
   * What each update ends with: an error and untouched bytes when nothing could
   * be fetched or the budget is spent, else the fetched body under its document.
   */
  lemma UpdatedAt(w: World, ops: seq<Op>, env: Env, dels: seq<string>, i: nat)
    requires WellPlanned(w, ops) && Apart(ops, dels) && i < |ops| && ops[i].kind.Update?
    ensures var (m, f, body) := (Midway(w, ops, env).w, Final(w, ops, env, dels), WriteBody(ops[i], 1, env));
            var (file, entry) := (File(Rel(ops[i])), Entry(ops[i].path));
            && f.ops[i].completed
            && (if body.None? || IsGated(w, ops, env, i) then
                  f.ops[i].error.Some? && See(f.w, file) == See(m, file) && See(f.w, entry) == See(m, entry)
                else
                  f.ops[i].error.None? && See(f.w, file) == Bytes(body.value)
                      && See(f.w, entry) == Owner(Some(ops[i].id)))
            && (IsGated(w, ops, env, i) <==> f.ops[i].error == Some(TruncationGated))
  {
    var q := Before(w, ops, env, dels, i);
    assert PlannedOp(w, ops[i]);
    FinishUpdate(w, ops, env, dels, i);
    UpdateOutcome(w, ops, env, dels, i);
    Spent(w, ops, env, dels, i);
    if WriteBody(ops[i], 1, env).Some? {
      TruncatesAtTurn(w, ops, env, dels, i);
      GetPut(q.w.state, ops[i].path, Some(ops[i].id), ops[i].path);
    }
  }

  /**
   * The budget is exact: of the updates that would empty a file that is not
   * empty, exactly the first `limit` in plan order are applied; every later one
   * keeps its bytes and carries the error.
   */
  lemma BudgetIsExact(w: World, ops: seq<Op>, env: Env, dels: seq<string>, i: nat)
    requires WellPlanned(w, ops) && Apart(ops, dels) && i < |ops| && Empties(w, ops, env, i)
    ensures var (m, f) := (Midway(w, ops, env).w, Final(w, ops, env, dels));
            var file := File(Rel(ops[i]));
            && See(m, file) != Bytes("")
            && (if Emptied(w, ops, env, i) < env.limit then
                  f.ops[i].error.None? && See(f.w, file) == Bytes(EmptyBody(ops[i].ftype))
                else
                  f.ops[i].error == Some(TruncationGated) && See(f.w, file) == See(m, file))
  {
    UpdatedAt(w, ops, env, dels, i);
  }

  lemma {:induction false} DeletesAreFree(w: World, ops: seq<Op>, env: Env, dels: seq<string>, n: nat)
    requires WellPlanned(w, ops) && |ops| <= n <= |ops| + |dels|
    ensures Run(Tail(w, ops, env, dels), Finishing, env, n).applied == Before(w, ops, env, dels, |ops|).applied
    decreases n
  {
    if n > |ops| {
      DeletesAreFree(w, ops, env, dels, n - 1);
      RunLeaves(Tail(w, ops, env, dels), Finishing, env, n - 1, n - 1);
      TailOps(w, ops, env, dels, n - 1, File(""));
    }
  }

  /** In all, min(k, limit) of the k truncations are applied. */
  lemma BudgetTotal(w: World, ops: seq<Op>, env: Env, dels: seq<string>)
    requires WellPlanned(w, ops) && Apart(ops, dels)
    ensures Final(w, ops, env, dels).applied == Min(Emptied(w, ops, env, |ops|), env.limit)
  {
    Spent(w, ops, env, dels, |ops|);
    DeletesAreFree(w, ops, env, dels, |ops| + |dels|);
  }
}
