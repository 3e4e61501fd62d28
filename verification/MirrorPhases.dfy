/** What the create phase and the rename phase do to each file and each tracked path. */
module MirrorPhases {
  import opened Common
  import opened Dict
  import opened Filemeta
  import opened MirrorModel
  import opened MirrorFrames

  function Rel(op: Op): string { Relative(op.path).GetOr("") }

  function Source(op: Op): Option<string> { Relative(op.fromPath) }

  /** An operation as `apply_remote_state` plans it from the world `w`. */
  ghost predicate PlannedOp(w: World, op: Op) {
    && Relative(op.path).Some?
    && op.error.None? && op.completed == op.kind.Noop? && !op.kind.Delete?
    && ((op.kind.Update? || op.kind.Noop?) <==> Rel(op) in w.tree)
    && (op.kind.Rename? ==> FindByDocId(w.state, op.id) == Some(op.fromPath))
    && (op.kind.Noop? ==> op.hash == Some(w.tree[Rel(op)]))
  }

  ghost predicate DistinctTargets(ops: seq<Op>) {
    forall i, j :: 0 <= i < j < |ops| ==> Rel(ops[i]) != Rel(ops[j])
  }

  ghost predicate AllPlanned(w: World, ops: seq<Op>) {
    IsDict(w.state) && forall i :: 0 <= i < |ops| ==> PlannedOp(w, ops[i])
  }

  ghost predicate WellPlanned(w: World, ops: seq<Op>) { AllPlanned(w, ops) && DistinctTargets(ops) }

  /** No two file entries name the same file. */
  ghost predicate DistinctFiles(files: Filemeta) {
    forall i, j {:trigger Relative(files[i].0), Relative(files[j].0)} ::
      0 <= i < j < |files| && IsFile(files[i].1) && IsFile(files[j].1) ==> Relative(files[i].0) != Relative(files[j].0)
  }

  lemma PlanOpIsPlanned(w: World, path: string, m: Meta)
    requires Plannable(path, m)
    ensures PlannedOp(w, PlanOp(w, path, m)) && PlanOp(w, path, m).path == path
  {
  }

  lemma PlanIsPlanned(w: World, files: Filemeta)
    requires IsDict(w.state) && AllPlannable(files)
    ensures AllPlanned(w, PlanOps(w, files))
    ensures forall i :: 0 <= i < |files| ==> PlanOps(w, files)[i].path == files[i].0
  {
    forall i | 0 <= i < |files|
      ensures PlannedOp(w, PlanOps(w, files)[i]) && PlanOps(w, files)[i].path == files[i].0
    {
      PlanOpIsPlanned(w, files[i].0, files[i].1);
    }
  }

  lemma PlanIsWellPlanned(w: World, files: Filemeta)
    requires IsDict(w.state) && AllPlannable(files) && DistinctFiles(files)
    requires forall i :: 0 <= i < |files| ==> IsFile(files[i].1)
    ensures WellPlanned(w, PlanOps(w, files))
  {
    var ops := PlanOps(w, files);
    PlanIsPlanned(w, files);
    forall i, j | 0 <= i < j < |ops|
      ensures Rel(ops[i]) != Rel(ops[j])
    {
      assert IsFile(files[i].1) && IsFile(files[j].1);
      assert Relative(files[i].0) != Relative(files[j].0);
    }
  }

  lemma {:induction false} FindFound(state: Tracking, id: string)
    requires IsDict(state) && FindByDocId(state, id).Some?
    ensures Get(state, FindByDocId(state, id).value) == Some(Some(id))
  {
    if state[0].1 != Some(id) {
      FindFound(state[1..], id);
      var p := FindByDocId(state, id).value;
      assert Has(state[1..], p);
    }
  }

  /** What a create or update gets to write. */
  function WriteBody(op: Op, round: nat, env: Env): Option<Body> {
    if op.ftype.Binary? && op.hash.None? then None else env.fetch(round, op.path, op.id)
  }

  lemma OthersUntouched(w: World, ops: seq<Op>, i: nat, j: nat)
    requires WellPlanned(w, ops) && i < |ops| && j < |ops| && i != j
    ensures Rel(ops[i]) != Rel(ops[j]) && ops[i].path != ops[j].path
  {
    assert PlannedOp(w, ops[i]) && PlannedOp(w, ops[j]);
    if i < j {
      assert Rel(ops[i]) != Rel(ops[j]);
    } else {
      assert Rel(ops[j]) != Rel(ops[i]);
    }
  }

  /** A written create leaves the fetched body, tracked under its document. */
  lemma CreatedAt(w: World, ops: seq<Op>, env: Env, i: nat)
    requires WellPlanned(w, ops) && i < |ops| && ops[i].kind.Create?
    ensures var (c, body) := (AfterCreates(w, ops, env).w, WriteBody(ops[i], 0, env));
            && See(c, File(Rel(ops[i]))) == (if body.Some? then Bytes(body.value) else Absent)
            && See(c, Entry(ops[i].path)) == (if body.Some? then Owner(Some(ops[i].id)) else See(w, Entry(ops[i].path)))
  {
    var p := Start(w, ops);
    assert PlannedOp(w, ops[i]);
    forall j | 0 <= j < |ops| && j != i && Selected(Creating, ops[j])
      ensures !Touches(ops[j], File(Rel(ops[i]))) && !Touches(ops[j], Entry(ops[i].path))
    {
      OthersUntouched(w, ops, i, j);
    }
    OneTouch(p, Creating, env, i, |ops|, File(Rel(ops[i])));
    OneTouch(p, Creating, env, i, |ops|, Entry(ops[i].path));
    GetPut(Run(p, Creating, env, i).w.state, ops[i].path, Some(ops[i].id), ops[i].path);
  }

  ghost predicate NoneTouches(ops: seq<Op>, kind: Kind, place: Place) {
    forall j :: 0 <= j < |ops| && ops[j].kind == kind ==> !Touches(ops[j], place)
  }

  lemma CreatedElse(w: World, ops: seq<Op>, env: Env, place: Place)
    requires NoneTouches(ops, Create, place)
    ensures See(AfterCreates(w, ops, env).w, place) == See(w, place)
  {
    Frame(Start(w, ops), Creating, env, 0, |ops|, place);
  }

  /** The list after the creates: creates are completed, the rest is as planned. */
  lemma CreateOps(w: World, ops: seq<Op>, env: Env, j: nat)
    requires j < |ops| && AllPlanned(w, ops)
    ensures var o := AfterCreates(w, ops, env).ops[j];
            if ops[j].kind.Create? then o.completed && o.kind.Create? else o == ops[j]
  {
    assert PlannedOp(w, ops[j]);
    RunKeeps(Start(w, ops), Creating, env, j, |ops|);
  }

  // ----- renames -----

  ghost predicate SourceIn(w: World, op: Op) { Source(op).Some? && Source(op).value in w.tree }

  /** Every planned rename has a source in the tree, and no two have the same one. */
  ghost predicate Movable(w: World, ops: seq<Op>) {
    && (forall i :: 0 <= i < |ops| && ops[i].kind.Rename? ==> SourceIn(w, ops[i]))
    && (forall i, j :: 0 <= i < j < |ops| && ops[i].kind.Rename? && ops[j].kind.Rename? ==>
        Source(ops[i]) != Source(ops[j]))
  }

  /** In the rename phase exactly the planned renames run, as planned. */
  lemma RenameSelection(w: World, ops: seq<Op>, env: Env, j: nat)
    requires j < |ops| && AllPlanned(w, ops)
    ensures Selected(Renaming, AfterCreates(w, ops, env).ops[j]) <==> ops[j].kind.Rename?
    ensures ops[j].kind.Rename? ==> AfterCreates(w, ops, env).ops[j] == ops[j]
  {
    CreateOps(w, ops, env, j);
    assert PlannedOp(w, ops[j]);
  }

  lemma RenamedElse(w: World, ops: seq<Op>, env: Env, n: nat, place: Place)
    requires AllPlanned(w, ops) && n <= |ops| && NoneTouches(ops[..n], Rename, place)
    ensures See(Run(AfterCreates(w, ops, env), Renaming, env, n).w, place) == See(AfterCreates(w, ops, env).w, place)
  {
    var c := AfterCreates(w, ops, env);
    forall j | 0 <= j < n && Selected(Renaming, c.ops[j])
      ensures !Touches(c.ops[j], place)
    {
      RenameSelection(w, ops, env, j);
      assert ops[..n][j] == ops[j];
    }
    Frame(c, Renaming, env, 0, n, place);
  }

  /** Paths that were in the tree are no target of a create or rename. */
  lemma OldIsNoTarget(w: World, ops: seq<Op>, j: nat, q: string)
    requires AllPlanned(w, ops) && j < |ops| && q in w.tree
    ensures ops[j].kind.Create? || ops[j].kind.Rename? ==> Rel(ops[j]) != q
  {
    assert PlannedOp(w, ops[j]);
  }

  lemma OldSurvivesCreates(w: World, ops: seq<Op>, env: Env, q: string)
    requires AllPlanned(w, ops) && q in w.tree
    ensures See(AfterCreates(w, ops, env).w, File(q)) == Bytes(w.tree[q])
  {
    forall j | 0 <= j < |ops| && ops[j].kind.Create?
      ensures !Touches(ops[j], File(q))
    {
      OldIsNoTarget(w, ops, j, q);
    }
    CreatedElse(w, ops, env, File(q));
  }

  /** The source of a movable rename still stands when its turn comes. */
  lemma SourceStands(w: World, ops: seq<Op>, env: Env, i: nat)
    requires WellPlanned(w, ops) && Movable(w, ops) && i < |ops| && ops[i].kind.Rename?
    ensures See(Run(AfterCreates(w, ops, env), Renaming, env, i).w, File(Source(ops[i]).value))
         == Bytes(w.tree[Source(ops[i]).value])
  {
    var q := Source(ops[i]).value;
    assert SourceIn(w, ops[i]);
    forall j | 0 <= j < |ops[..i]| && ops[..i][j].kind == Rename
      ensures !Touches(ops[..i][j], File(q))
    {
      OldIsNoTarget(w, ops, j, q);
      assert ops[j].kind.Rename? && Source(ops[j]) != Source(ops[i]);
    }
    RenamedElse(w, ops, env, i, File(q));
    OldSurvivesCreates(w, ops, env, q);
  }

  ghost predicate OnlyRename(ops: seq<Op>, i: nat, place: Place) {
    forall j :: 0 <= j < |ops| && j != i && ops[j].kind.Rename? ==> !Touches(ops[j], place)
  }

  lemma RenameOneTouch(w: World, ops: seq<Op>, env: Env, i: nat, place: Place)
    requires WellPlanned(w, ops) && i < |ops| && ops[i].kind.Rename? && OnlyRename(ops, i, place)
    ensures var (c, q) := (AfterCreates(w, ops, env), Run(AfterCreates(w, ops, env), Renaming, env, i));
            && See(q.w, place) == See(c.w, place)
            && See(Midway(w, ops, env).w, place) == See(Exec(q.w, ops[i], q.applied, 0, env).w, place)
  {
    var c := AfterCreates(w, ops, env);
    forall j | 0 <= j < |ops| && j != i && Selected(Renaming, c.ops[j])
      ensures !Touches(c.ops[j], place)
    {
      RenameSelection(w, ops, env, j);
    }
    RenameSelection(w, ops, env, i);
    OneTouch(c, Renaming, env, i, |ops|, place);
  }

  /** No other rename touches the target, the source or the entries of a movable rename. */
  lemma RenameIsAlone(w: World, ops: seq<Op>, i: nat)
    requires WellPlanned(w, ops) && Movable(w, ops) && i < |ops| && ops[i].kind.Rename?
    ensures OnlyRename(ops, i, File(Rel(ops[i]))) && OnlyRename(ops, i, File(Source(ops[i]).value))
    ensures OnlyRename(ops, i, Entry(ops[i].path)) && OnlyRename(ops, i, Entry(ops[i].fromPath))
  {
    assert PlannedOp(w, ops[i]) && SourceIn(w, ops[i]);
    forall j | 0 <= j < |ops| && j != i && ops[j].kind.Rename?
      ensures !Touches(ops[j], File(Rel(ops[i]))) && !Touches(ops[j], File(Source(ops[i]).value))
      ensures !Touches(ops[j], Entry(ops[i].path)) && !Touches(ops[j], Entry(ops[i].fromPath))
    {
      OthersUntouched(w, ops, i, j);
      assert PlannedOp(w, ops[j]) && SourceIn(w, ops[j]);
      assert Source(ops[i]) != Source(ops[j]) by {
        if i < j { assert Source(ops[i]) != Source(ops[j]); } else { assert Source(ops[j]) != Source(ops[i]); }
      }
    }
  }

  /** A movable rename carries the old bytes and the tracked document to the new path. */
  lemma RenamedAt(w: World, ops: seq<Op>, env: Env, i: nat)
    requires WellPlanned(w, ops) && Movable(w, ops) && i < |ops| && ops[i].kind.Rename?
    ensures SourceIn(w, ops[i])
    ensures var (m, from) := (Midway(w, ops, env).w, Source(ops[i]).value);
            && See(m, File(Rel(ops[i]))) == Bytes(w.tree[from]) && See(m, File(from)) == Absent
  {
    var from := Source(ops[i]).value;
    assert PlannedOp(w, ops[i]) && SourceIn(w, ops[i]);
    RenameIsAlone(w, ops, i);
    SourceStands(w, ops, env, i);
    RenameOneTouch(w, ops, env, i, File(Rel(ops[i])));
    RenameOneTouch(w, ops, env, i, File(from));
  }

  lemma MovedEntries(w: World, from: string, fromRel: string, dest: string, destRel: string)
    requires fromRel in w.tree && from != dest
    ensures var m := Moved(w, from, fromRel, dest, destRel);
            && See(m, Entry(from)) == Absent
            && See(m, Entry(dest)) == (if See(w, Entry(from)).Owner? then See(w, Entry(from)) else Owner(None))
  {
    var owner := Get(w.state, from);
    var id := if owner.Some? then owner.value else None;
    GetPut(Remove(w.state, from), dest, id, dest);
    GetPut(Remove(w.state, from), dest, id, from);
    GetRemove(w.state, from, from);
  }

  lemma RenamedEntries(w: World, ops: seq<Op>, env: Env, i: nat)
    requires WellPlanned(w, ops) && Movable(w, ops) && i < |ops| && ops[i].kind.Rename?
    ensures var m := Midway(w, ops, env).w;
            && See(m, Entry(ops[i].path)) == Owner(Some(ops[i].id)) && See(m, Entry(ops[i].fromPath)) == Absent
  {
    var op := ops[i];
    assert PlannedOp(w, op) && SourceIn(w, op);
    RenameIsAlone(w, ops, i);
    RenameOneTouch(w, ops, env, i, Entry(op.path));
    RenameOneTouch(w, ops, env, i, Entry(op.fromPath));
    SourceStands(w, ops, env, i);
    FindFound(w.state, op.id);
    NoCreateAtSource(w, ops, i);
    CreatedElse(w, ops, env, Entry(op.fromPath));
    var q := Run(AfterCreates(w, ops, env), Renaming, env, i);
    MovedEntries(q.w, op.fromPath, Source(op).value, op.path, Rel(op));
  }

  lemma NoCreateAtSource(w: World, ops: seq<Op>, i: nat)
    requires WellPlanned(w, ops) && i < |ops| && SourceIn(w, ops[i])
    ensures NoneTouches(ops, Create, Entry(ops[i].fromPath))
  {
    forall j | 0 <= j < |ops| && ops[j].kind == Create
      ensures !Touches(ops[j], Entry(ops[i].fromPath))
    {
      OldIsNoTarget(w, ops, j, Source(ops[i]).value);
    }
  }
}
