/**
 * When every mirrored file still stands after the creates and renames: exactly for
 * movable plans that spare the held files.
 */
module MirrorPresence {
  import opened Common
  import opened MirrorModel
  import opened MirrorFrames
  import opened MirrorPhases

  function AfterRenames(w: World, ops: seq<Op>, env: Env, n: nat): World
    requires n <= |ops|
  {
    Run(AfterCreates(w, ops, env), Renaming, env, n).w
  }

  ghost predicate NoTarget(ops: seq<Op>, lo: nat, hi: nat, q: string)
    requires hi <= |ops|
  {
    forall j :: lo <= j < hi && ops[j].kind.Rename? ==> Rel(ops[j]) != q
  }

  /** Renames bring nothing to a path that is no target. */
  lemma {:induction false} AbsentStays(w: World, ops: seq<Op>, env: Env, lo: nat, hi: nat, q: string)
    requires AllPlanned(w, ops) && lo <= hi <= |ops| && NoTarget(ops, lo, hi, q)
    requires q !in AfterRenames(w, ops, env, lo).tree
    ensures q !in AfterRenames(w, ops, env, hi).tree
    decreases hi
  {
    if lo < hi {
      AbsentStays(w, ops, env, lo, hi - 1, q);
      RunLeaves(AfterCreates(w, ops, env), Renaming, env, hi - 1, hi - 1);
      RenameSelection(w, ops, env, hi - 1);
    }
  }

  lemma TargetAbsent(w: World, ops: seq<Op>, env: Env, i: nat)
    requires WellPlanned(w, ops) && i < |ops| && ops[i].kind.Rename?
    ensures Rel(ops[i]) !in AfterRenames(w, ops, env, i).tree
  {
    assert PlannedOp(w, ops[i]);
    forall j | 0 <= j < |ops| && j != i
      ensures Rel(ops[j]) != Rel(ops[i]) && (ops[j].kind.Create? ==> !Touches(ops[j], File(Rel(ops[i]))))
    {
      OthersUntouched(w, ops, i, j);
      assert PlannedOp(w, ops[j]);
    }
    CreatedElse(w, ops, env, File(Rel(ops[i])));
    AbsentStays(w, ops, env, 0, i, Rel(ops[i]));
  }

  lemma RenameStep(w: World, ops: seq<Op>, env: Env, i: nat)
    requires AllPlanned(w, ops) && i < |ops| && ops[i].kind.Rename?
    ensures var r := AfterRenames(w, ops, env, i);
            AfterRenames(w, ops, env, i + 1) ==
              if Source(ops[i]).None? then r
              else Moved(r, ops[i].fromPath, Source(ops[i]).value, ops[i].path, Rel(ops[i]))
  {
    assert PlannedOp(w, ops[i]);
    RunLeaves(AfterCreates(w, ops, env), Renaming, env, i, i);
    RenameSelection(w, ops, env, i);
  }

  lemma SourceGone(w: World, ops: seq<Op>, env: Env, i: nat)
    requires WellPlanned(w, ops) && i < |ops| && ops[i].kind.Rename? && Source(ops[i]).Some?
    ensures Source(ops[i]).value !in AfterRenames(w, ops, env, i + 1).tree
  {
    TargetAbsent(w, ops, env, i);
    RenameStep(w, ops, env, i);
  }

  lemma TargetNeedsSource(w: World, ops: seq<Op>, env: Env, i: nat)
    requires WellPlanned(w, ops) && i < |ops| && ops[i].kind.Rename?
    requires Rel(ops[i]) in Midway(w, ops, env).w.tree
    ensures Source(ops[i]).Some? && Source(ops[i]).value in AfterRenames(w, ops, env, i).tree
  {
    if !(Source(ops[i]).Some? && Source(ops[i]).value in AfterRenames(w, ops, env, i).tree) {
      TargetAbsent(w, ops, env, i);
      RenameStep(w, ops, env, i);
      forall j | i + 1 <= j < |ops|
        ensures Rel(ops[j]) != Rel(ops[i])
      {
        OthersUntouched(w, ops, i, j);
      }
      AbsentStays(w, ops, env, i + 1, |ops|, Rel(ops[i]));
    }
  }

  /** A moved-away source that is no later target is missing at the end. */
  lemma SourceLost(w: World, ops: seq<Op>, env: Env, i: nat, n: nat)
    requires WellPlanned(w, ops) && i < n <= |ops| && ops[i].kind.Rename? && Source(ops[i]).Some?
    requires NoTarget(ops, i + 1, n, Source(ops[i]).value)
    ensures Source(ops[i]).value !in AfterRenames(w, ops, env, n).tree
  {
    SourceGone(w, ops, env, i);
    AbsentStays(w, ops, env, i + 1, n, Source(ops[i]).value);
  }

  /** Every file that is not about to be updated stands. */
  ghost predicate AllStand(tree: Tree, ops: seq<Op>) {
    forall i :: 0 <= i < |ops| && !ops[i].kind.Update? ==> Rel(ops[i]) in tree
  }

  /** Whoever brought a new path into the tree before rename `i`. */
  lemma BroughtBy(w: World, ops: seq<Op>, env: Env, i: nat, q: string) returns (u: nat)
    requires WellPlanned(w, ops) && i < |ops| && q !in w.tree && q in AfterRenames(w, ops, env, i).tree
    ensures u < |ops| && Rel(ops[u]) == q && (ops[u].kind.Create? || (ops[u].kind.Rename? && u < i))
  {
    if u' :| 0 <= u' < |ops| && ops[u'].kind.Create? && Rel(ops[u']) == q {
      u := u';
    } else {
      forall j | 0 <= j < |ops| && ops[j].kind.Create?
        ensures !Touches(ops[j], File(q))
      {
        assert PlannedOp(w, ops[j]);
      }
      CreatedElse(w, ops, env, File(q));
      if NoTarget(ops, 0, i, q) {
        AbsentStays(w, ops, env, 0, i, q);
        assert false;
      }
      u :| 0 <= u < i && ops[u].kind.Rename? && Rel(ops[u]) == q;
    }
  }

  lemma SourceWasThere(w: World, ops: seq<Op>, env: Env, i: nat)
    requires WellPlanned(w, ops) && AllStand(Midway(w, ops, env).w.tree, ops) && i < |ops| && ops[i].kind.Rename?
    ensures SourceIn(w, ops[i])
  {
    TargetNeedsSource(w, ops, env, i);
    var q := Source(ops[i]).value;
    if q !in w.tree {
      var u := BroughtBy(w, ops, env, i, q);
      forall j | i + 1 <= j < |ops| && ops[j].kind.Rename?
        ensures Rel(ops[j]) != q
      {
        OthersUntouched(w, ops, u, j);
      }
      SourceLost(w, ops, env, i, |ops|);
    }
  }

  lemma OldIsNeverTarget(w: World, ops: seq<Op>, q: string)
    requires AllPlanned(w, ops) && q in w.tree
    ensures NoTarget(ops, 0, |ops|, q)
  {
    forall j | 0 <= j < |ops| && ops[j].kind.Rename?
      ensures Rel(ops[j]) != q
    {
      OldIsNoTarget(w, ops, j, q);
    }
  }

  lemma StandingIsMovable(w: World, ops: seq<Op>, env: Env)
    requires WellPlanned(w, ops) && AllStand(Midway(w, ops, env).w.tree, ops)
    ensures Movable(w, ops)
  {
    forall i | 0 <= i < |ops| && ops[i].kind.Rename?
      ensures SourceIn(w, ops[i])
    {
      SourceWasThere(w, ops, env, i);
    }
    forall i, j | 0 <= i < j < |ops| && ops[i].kind.Rename? && ops[j].kind.Rename?
      ensures Source(ops[i]) != Source(ops[j])
    {
      if Source(ops[i]) == Source(ops[j]) {
        SourceWasThere(w, ops, env, i);
        OldIsNeverTarget(w, ops, Source(ops[i]).value);
        SourceLost(w, ops, env, i, j);
        TargetNeedsSource(w, ops, env, j);
      }
    }
  }

  /** No rename moves `q` away. */
  ghost predicate Spares(ops: seq<Op>, q: string) {
    forall i :: 0 <= i < |ops| && ops[i].kind.Rename? ==> Source(ops[i]) != Some(q)
  }

  lemma StandingIsSpared(w: World, ops: seq<Op>, env: Env, q: string)
    requires WellPlanned(w, ops) && q in w.tree && q in Midway(w, ops, env).w.tree
    ensures Spares(ops, q)
  {
    forall i | 0 <= i < |ops| && ops[i].kind.Rename?
      ensures Source(ops[i]) != Some(q)
    {
      if Source(ops[i]) == Some(q) {
        OldIsNeverTarget(w, ops, q);
        SourceLost(w, ops, env, i, |ops|);
      }
    }
  }

  /** A spared file of the old tree is untouched by creates and renames. */
  lemma SparedStands(w: World, ops: seq<Op>, env: Env, q: string)
    requires WellPlanned(w, ops) && q in w.tree && Spares(ops, q)
    ensures See(Midway(w, ops, env).w, File(q)) == Bytes(w.tree[q])
  {
    OldSurvivesCreates(w, ops, env, q);
    OldIsNeverTarget(w, ops, q);
    assert ops[..|ops|] == ops;
    RenamedElse(w, ops, env, |ops|, File(q));
  }

  /** Renames leave a created file alone when their sources were in the old tree. */
  lemma CreatedStands(w: World, ops: seq<Op>, env: Env, i: nat)
    requires WellPlanned(w, ops) && Movable(w, ops) && i < |ops| && ops[i].kind.Create?
    ensures See(Midway(w, ops, env).w, File(Rel(ops[i]))) == See(AfterCreates(w, ops, env).w, File(Rel(ops[i])))
    ensures See(Midway(w, ops, env).w, Entry(ops[i].path)) == See(AfterCreates(w, ops, env).w, Entry(ops[i].path))
  {
    assert PlannedOp(w, ops[i]);
    forall j | 0 <= j < |ops| && ops[j].kind.Rename?
      ensures !Touches(ops[j], File(Rel(ops[i]))) && !Touches(ops[j], Entry(ops[i].path))
    {
      OthersUntouched(w, ops, i, j);
      assert PlannedOp(w, ops[j]) && SourceIn(w, ops[j]);
    }
    assert ops[..|ops|] == ops;
    RenamedElse(w, ops, env, |ops|, File(Rel(ops[i])));
    RenamedElse(w, ops, env, |ops|, Entry(ops[i].path));
  }

  ghost predicate Arrives(ops: seq<Op>, env: Env) {
    forall i :: 0 <= i < |ops| && ops[i].kind.Create? ==> WriteBody(ops[i], 0, env).Some?
  }

  /** Hash-equal files, and files the pass did not plan for (`kept`), are only held if nothing moves them. */
  ghost predicate SparesHeld(w: World, ops: seq<Op>, kept: set<string>) {
    && (forall i :: 0 <= i < |ops| && ops[i].kind.Noop? ==> Spares(ops, Rel(ops[i])))
    && (forall q :: q in kept ==> q in w.tree && Spares(ops, q))
  }

  lemma MovableStands(w: World, ops: seq<Op>, env: Env, kept: set<string>)
    requires WellPlanned(w, ops) && Arrives(ops, env) && Movable(w, ops) && SparesHeld(w, ops, kept)
    ensures AllStand(Midway(w, ops, env).w.tree, ops) && kept <= Midway(w, ops, env).w.tree.Keys
  {
    forall i | 0 <= i < |ops| && !ops[i].kind.Update?
      ensures Rel(ops[i]) in Midway(w, ops, env).w.tree
    {
      assert PlannedOp(w, ops[i]);
      match ops[i].kind
      case Create =>
        CreatedAt(w, ops, env, i);
        CreatedStands(w, ops, env, i);
      case Rename => RenamedAt(w, ops, env, i);
      case Noop => SparedStands(w, ops, env, Rel(ops[i]));
    }
    forall q | q in kept
      ensures q in Midway(w, ops, env).w.tree
    {
      SparedStands(w, ops, env, q);
    }
  }

  lemma KeptIsSpared(w: World, ops: seq<Op>, env: Env, q: string)
    requires WellPlanned(w, ops) && q in Midway(w, ops, env).w.tree
    requires forall i :: 0 <= i < |ops| ==> Rel(ops[i]) != q
    ensures q in w.tree && Spares(ops, q)
  {
    if q !in w.tree {
      forall j | 0 <= j < |ops|
        ensures !(ops[j].kind.Create? && Touches(ops[j], File(q)))
      {
        assert PlannedOp(w, ops[j]);
      }
      CreatedElse(w, ops, env, File(q));
      AbsentStays(w, ops, env, 0, |ops|, q);
    }
    StandingIsSpared(w, ops, env, q);
  }

  /** The files stand after the creates and renames exactly when the plan is movable and spares the held ones. */
  lemma StandsIffMovable(w: World, ops: seq<Op>, env: Env, kept: set<string>)
    requires WellPlanned(w, ops) && Arrives(ops, env)
    requires forall i :: 0 <= i < |ops| ==> Rel(ops[i]) !in kept
    ensures AllStand(Midway(w, ops, env).w.tree, ops) && kept <= Midway(w, ops, env).w.tree.Keys <==>
            Movable(w, ops) && SparesHeld(w, ops, kept)
  {
    if Movable(w, ops) && SparesHeld(w, ops, kept) {
      MovableStands(w, ops, env, kept);
    }
    if AllStand(Midway(w, ops, env).w.tree, ops) && kept <= Midway(w, ops, env).w.tree.Keys {
      StandingIsMovable(w, ops, env);
      forall i | 0 <= i < |ops| && ops[i].kind.Noop?
        ensures Spares(ops, Rel(ops[i]))
      {
        assert PlannedOp(w, ops[i]);
        StandingIsSpared(w, ops, env, Rel(ops[i]));
      }
      forall q | q in kept
        ensures q in w.tree && Spares(ops, q)
      {
        KeptIsSpared(w, ops, env, q);
      }
    }
  }
}
