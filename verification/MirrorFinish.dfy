/** The last phase: updates, retries and deletions. */
module MirrorFinish {
  import opened Common
  import opened MirrorModel
  import opened MirrorFrames
  import opened MirrorPhases

  /** After creates and renames only updates, and renames that raised, are still unfinished. */
  lemma MidwayOps(w: World, ops: seq<Op>, env: Env, j: nat)
    requires AllPlanned(w, ops) && j < |ops|
    ensures var o := Midway(w, ops, env).ops[j];
            && o.kind == ops[j].kind
            && (o.kind.Update? ==> o == ops[j])
            && (!o.completed <==> o.kind.Update? || (o.kind.Rename? && Source(ops[j]).None?))
            && (o.kind.Rename? ==> o.path == ops[j].path && o.fromPath == ops[j].fromPath)
  {
    assert PlannedOp(w, ops[j]);
    CreateOps(w, ops, env, j);
    RenameSelection(w, ops, env, j);
    RunKeeps(AfterCreates(w, ops, env), Renaming, env, j, |ops|);
  }

  /** The listed paths are spelled as the walk spells them. */
  ghost predicate Listed(dels: seq<string>) { forall d :: d in dels ==> Relative(d) == Some(d) }

  /** The deletions name files of the tree, none of them a planned target. */
  ghost predicate Apart(ops: seq<Op>, dels: seq<string>) {
    && Listed(dels)
    && (forall i :: 0 <= i < |ops| ==> Rel(ops[i]) !in dels)
    && (forall i, j :: 0 <= i < j < |dels| ==> dels[i] != dels[j])
  }

  function Tail(w: World, ops: seq<Op>, env: Env, dels: seq<string>): (p: Progress)
    ensures |p.ops| == |ops| + |dels|
  {
    var m := Midway(w, ops, env);
    m.(ops := m.ops + DeleteOps(dels))
  }

  function Final(w: World, ops: seq<Op>, env: Env, dels: seq<string>): Progress {
    Finish(Midway(w, ops, env), dels, env)
  }

  lemma FinalSound(w: World, ops: seq<Op>, env: Env, dels: seq<string>)
    requires Sound(w)
    ensures Sound(Final(w, ops, env, dels).w)
  {
    MidwaySound(w, ops, env);
    RunSound(Tail(w, ops, env, dels), Finishing, env, |ops| + |dels|);
  }

  /** Which operations the last phase runs, and what they can touch. */
  lemma TailOps(w: World, ops: seq<Op>, env: Env, dels: seq<string>, j: nat, place: Place)
    requires AllPlanned(w, ops) && j < |ops| + |dels|
    ensures var o := Tail(w, ops, env, dels).ops[j];
            if j >= |ops| then o == DeleteOp(dels[j - |ops|])
            else if ops[j].kind.Update? then o == ops[j] && Selected(Finishing, o)
            else Selected(Finishing, o) ==> !Touches(o, place)
  {
    if j < |ops| {
      MidwayOps(w, ops, env, j);
      assert PlannedOp(w, ops[j]);
    }
  }

  ghost predicate NoUpdateTouches(ops: seq<Op>, place: Place) {
    forall j :: 0 <= j < |ops| && ops[j].kind.Update? ==> !Touches(ops[j], place)
  }

  ghost predicate NoDeleteTouches(dels: seq<string>, place: Place) {
    match place case File(p) => p !in dels case Entry(k) => k !in dels
  }

  lemma FinishElse(w: World, ops: seq<Op>, env: Env, dels: seq<string>, place: Place)
    requires AllPlanned(w, ops) && Listed(dels)
    requires NoUpdateTouches(ops, place) && NoDeleteTouches(dels, place)
    ensures See(Final(w, ops, env, dels).w, place) == See(Midway(w, ops, env).w, place)
  {
    var p := Tail(w, ops, env, dels);
    forall j | 0 <= j < |p.ops| && Selected(Finishing, p.ops[j])
      ensures !Touches(p.ops[j], place)
    {
      TailOps(w, ops, env, dels, j, place);
    }
    Frame(p, Finishing, env, 0, |p.ops|, place);
  }

  /** Nothing else in the last phase touches a deleted path. */
  lemma DeleteIsAlone(w: World, ops: seq<Op>, env: Env, dels: seq<string>, k: nat, j: nat)
    requires WellPlanned(w, ops) && Apart(ops, dels) && k < |dels|
    requires j < |ops| + |dels| && j != |ops| + k && Selected(Finishing, Tail(w, ops, env, dels).ops[j])
    ensures var o := Tail(w, ops, env, dels).ops[j]; !Touches(o, File(dels[k])) && !Touches(o, Entry(dels[k]))
  {
    TailOps(w, ops, env, dels, j, File(dels[k]));
    TailOps(w, ops, env, dels, j, Entry(dels[k]));
    assert dels[k] in dels;
    if j >= |ops| {
      DistinctAt(dels, j - |ops|, k);
      assert dels[j - |ops|] in dels;
    } else {
      assert PlannedOp(w, ops[j]);
    }
  }

  lemma DeleteUntouched(w: World, ops: seq<Op>, env: Env, dels: seq<string>, k: nat, place: Place)
    requires WellPlanned(w, ops) && Apart(ops, dels) && k < |dels|
             && (place == File(dels[k]) || place == Entry(dels[k]))
    ensures var p := Tail(w, ops, env, dels);
            && p.ops[|ops| + k] == DeleteOp(dels[k])
            && Untouched(p, Finishing, 0, |ops| + k, place) && Untouched(p, Finishing, |ops| + k + 1, |p.ops|, place)
  {
    var p := Tail(w, ops, env, dels);
    TailOps(w, ops, env, dels, |ops| + k, place);
    forall j | 0 <= j < |p.ops| && j != |ops| + k && Selected(Finishing, p.ops[j])
      ensures !Touches(p.ops[j], place)
    {
      DeleteIsAlone(w, ops, env, dels, k, j);
    }
  }

  lemma FinishDelete(w: World, ops: seq<Op>, env: Env, dels: seq<string>, k: nat)
    requires WellPlanned(w, ops) && Apart(ops, dels) && k < |dels|
    ensures See(Final(w, ops, env, dels).w, File(dels[k])) == Absent
  {
    var p := Tail(w, ops, env, dels);
    assert dels[k] in dels;
    DeleteUntouched(w, ops, env, dels, k, File(dels[k]));
    OneTouch(p, Finishing, env, |ops| + k, |p.ops|, File(dels[k]));
  }

  lemma DistinctAt(dels: seq<string>, i: nat, j: nat)
    requires i < |dels| && j < |dels| && i != j
    requires forall i, j :: 0 <= i < j < |dels| ==> dels[i] != dels[j]
    ensures dels[i] != dels[j]
  {
    if i < j {
      assert dels[i] != dels[j];
    } else {
      assert dels[j] != dels[i];
    }
  }

  /** The world and budget an update finds when its turn comes. */
  function Before(w: World, ops: seq<Op>, env: Env, dels: seq<string>, i: nat): Progress
    requires i <= |ops|
  {
    Run(Tail(w, ops, env, dels), Finishing, env, i)
  }

  /** An update alone decides its file and its entry, from what the creates and renames left there. */
  lemma FinishUpdate(w: World, ops: seq<Op>, env: Env, dels: seq<string>, i: nat)
    requires WellPlanned(w, ops) && Listed(dels) && i < |ops| && ops[i].kind.Update? && Rel(ops[i]) !in dels
    ensures var (q, m, f) := (Before(w, ops, env, dels, i), Midway(w, ops, env).w, Final(w, ops, env, dels).w);
            var after := Exec(q.w, ops[i], q.applied, 1, env).w;
            && See(q.w, File(Rel(ops[i]))) == See(m, File(Rel(ops[i])))
            && See(q.w, Entry(ops[i].path)) == See(m, Entry(ops[i].path))
            && See(f, File(Rel(ops[i]))) == See(after, File(Rel(ops[i])))
            && See(f, Entry(ops[i].path)) == See(after, Entry(ops[i].path))
  {
    var p := Tail(w, ops, env, dels);
    assert PlannedOp(w, ops[i]);
    forall j, place | 0 <= j < |p.ops| && j != i && Selected(Finishing, p.ops[j])
                      && (place == File(Rel(ops[i])) || place == Entry(ops[i].path))
      ensures !Touches(p.ops[j], place)
    {
      TailOps(w, ops, env, dels, j, place);
      if j < |ops| {
        OthersUntouched(w, ops, i, j);
      } else {
        assert dels[j - |ops|] in dels;
      }
    }
    TailOps(w, ops, env, dels, i, File(Rel(ops[i])));
    OneTouch(p, Finishing, env, i, |p.ops|, File(Rel(ops[i])));
    OneTouch(p, Finishing, env, i, |p.ops|, Entry(ops[i].path));
  }

  /** An update whose body arrives leaves a file, written or gated. */
  lemma UpdatedStands(w: World, ops: seq<Op>, env: Env, dels: seq<string>, i: nat)
    requires WellPlanned(w, ops) && Listed(dels) && i < |ops| && ops[i].kind.Update? && Rel(ops[i]) !in dels
    requires WriteBody(ops[i], 1, env).Some?
    ensures Rel(ops[i]) in Final(w, ops, env, dels).w.tree
  {
    assert PlannedOp(w, ops[i]);
    FinishUpdate(w, ops, env, dels, i);
  }

  lemma DeletesOnly(w: World, d: string, applied: nat, env: Env, q: string)
    requires Relative(d).Some?
    ensures q !in w.tree || Relative(d) == Some(q) ==> q !in Exec(w, DeleteOp(d), applied, 1, env).w.tree
  {
  }

  /** The files once the first `n` listed paths had their turn. */
  function AfterDeletes(w: World, ops: seq<Op>, env: Env, dels: seq<string>, n: nat): Tree
    requires n <= |dels|
  {
    Run(Tail(w, ops, env, dels), Finishing, env, |ops| + n).w.tree
  }

  lemma DeleteRuns(w: World, ops: seq<Op>, env: Env, dels: seq<string>, n: nat)
    requires n < |dels|
    ensures var r := Run(Tail(w, ops, env, dels), Finishing, env, |ops| + n);
            Run(Tail(w, ops, env, dels), Finishing, env, |ops| + n + 1).w
            == Exec(r.w, DeleteOp(dels[n]), r.applied, 1, env).w
  {
    var p := Tail(w, ops, env, dels);
    RunLeaves(p, Finishing, env, |ops| + n, |ops| + n);
    assert p.ops[|ops| + n] == DeleteOp(dels[n]);
  }

  /** The turn of a listed path takes it away, and brings nothing. */
  lemma DeleteTurn(w: World, ops: seq<Op>, env: Env, dels: seq<string>, n: nat, q: string)
    requires n < |dels| && Relative(dels[n]) == Some(dels[n])
    requires dels[n] == q || q !in AfterDeletes(w, ops, env, dels, n)
    ensures q !in AfterDeletes(w, ops, env, dels, n + 1)
  {
    var r := Run(Tail(w, ops, env, dels), Finishing, env, |ops| + n);
    DeleteRuns(w, ops, env, dels, n);
    DeletesOnly(r.w, dels[n], r.applied, env, q);
  }

  /** From its turn on a listed path stays deleted. */
  lemma {:induction false} DeletedStays(w: World, ops: seq<Op>, env: Env, dels: seq<string>, k: nat, n: nat)
    requires AllPlanned(w, ops) && k < n <= |dels| && Listed(dels)
    ensures dels[k] !in AfterDeletes(w, ops, env, dels, n)
    decreases n
  {
    if k < n - 1 {
      DeletedStays(w, ops, env, dels, k, n - 1);
    }
    assert dels[n - 1] in dels;
    DeleteTurn(w, ops, env, dels, n - 1, dels[k]);
  }

  lemma ListedIsGone(w: World, ops: seq<Op>, env: Env, dels: seq<string>, r: string)
    requires AllPlanned(w, ops) && r in dels && Listed(dels)
    ensures r !in Final(w, ops, env, dels).w.tree
  {
    var k :| 0 <= k < |dels| && dels[k] == r;
    DeletedStays(w, ops, env, dels, k, |dels|);
  }
}
