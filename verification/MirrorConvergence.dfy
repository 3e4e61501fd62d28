/** A pass ends with exactly the files of the new filemeta iff its plan is movable and spares the files it holds. */
module MirrorConvergence {
  import opened Common
  import opened Dict
  import opened Filemeta
  import opened MirrorModel
  import opened MirrorFrames
  import opened MirrorPhases
  import opened MirrorPresence
  import opened MirrorFinish

  // ----- filemetas -----

  /** Spelled as the walk spells it, or with one leading slash. */
  predicate CanonicalKey(key: string) {
    var r := Relative(key);
    r.Some? && (key == r.value || key == "/" + r.value)
  }

  /** File entries have a type, binary ones a hash to fetch by. */
  predicate Usable(m: Meta) {
    IsFile(m) ==> m.typ.Some? && m.typ.value != "" && (TypeOf(m.typ.value).Binary? ==> m.hash.Some?)
  }

  /** File entries can be planned and fetched, and name distinct files; other entries are as they are. */
  ghost predicate Workable(fm: Filemeta) {
    && IsDict(fm) && DistinctFiles(fm)
    && forall i {:trigger Relative(fm[i].0)} {:trigger Usable(fm[i].1)} :: 0 <= i < |fm| && IsFile(fm[i].1) ==>
         Relative(fm[i].0).Some? && Usable(fm[i].1)
  }

  /** And the file entries' keys are spelled canonically. */
  ghost predicate Canonical(fm: Filemeta) {
    && Workable(fm)
    && forall i {:trigger CanonicalKey(fm[i].0)} :: 0 <= i < |fm| && IsFile(fm[i].1) ==> CanonicalKey(fm[i].0)
  }

  ghost predicate IsFilePath(fm: Filemeta, p: string) {
    exists i :: 0 <= i < |fm| && IsFile(fm[i].1) && Relative(fm[i].0) == Some(p)
  }

  /** The tree holds every file of the filemeta, and nothing else but git's own files. */
  ghost predicate Mirrors(tree: Tree, fm: Filemeta) {
    forall p {:trigger p in tree} {:trigger IsFilePath(fm, p)} ::
      (IsFilePath(fm, p) ==> p in tree) && (p in tree && !Skipped(p) ==> IsFilePath(fm, p))
  }

  /** A visible path that is a key of the filemeta, but not a file's. */
  ghost predicate Clashes(fm: Filemeta, p: string) { !Skipped(p) && InFilemeta(fm, p) && !IsFilePath(fm, p) }

  /** A visible file whose key the deletion step does not recognise. */
  ghost predicate Misspelled(fm: Filemeta, p: string) { !Skipped(p) && IsFilePath(fm, p) && !InFilemeta(fm, p) }

  /** No file stands at a path of either kind. */
  ghost predicate Fits(tree: Tree, fm: Filemeta) {
    forall p :: p in tree ==> !Clashes(fm, p) && !Misspelled(fm, p)
  }

  lemma {:induction false} FilesMembers(fm: Filemeta, e: (string, Meta))
    ensures e in Files(fm) <==> e in fm && IsFile(e.1)
  {
    if fm != [] {
      FilesMembers(fm[..|fm| - 1], e);
      assert fm == fm[..|fm| - 1] + [fm[|fm| - 1]];
    }
  }

  lemma {:induction false} ChangedMembers(before: Filemeta, fm: Filemeta, e: (string, Meta))
    ensures e in Changed(before, fm) <==> e in fm && Get(before, e.0) != Some(e.1)
  {
    if fm != [] {
      ChangedMembers(before, fm[..|fm| - 1], e);
      assert fm == fm[..|fm| - 1] + [fm[|fm| - 1]];
    }
  }

  lemma DistinctAppend(fm: Filemeta, e: (string, Meta))
    requires DistinctFiles(fm)
    requires IsFile(e.1) ==> forall i :: 0 <= i < |fm| && IsFile(fm[i].1) ==> Relative(fm[i].0) != Relative(e.0)
    ensures DistinctFiles(fm + [e])
  {
  }

  lemma {:induction false} FilesDistinct(fm: Filemeta)
    requires DistinctFiles(fm)
    ensures DistinctFiles(Files(fm))
  {
    if fm != [] {
      var front, last := fm[..|fm| - 1], fm[|fm| - 1];
      FilesDistinct(front);
      forall i | 0 <= i < |Files(front)| && IsFile(last.1)
        ensures Relative(Files(front)[i].0) != Relative(last.0)
      {
        FilesMembers(front, Files(front)[i]);
      }
      DistinctAppend(Files(front), last);
      assert Files(front) + [] == Files(front);
    }
  }

  lemma {:induction false} ChangedDistinct(before: Filemeta, fm: Filemeta)
    requires DistinctFiles(fm)
    ensures DistinctFiles(Changed(before, fm))
  {
    if fm != [] {
      var front, last := fm[..|fm| - 1], fm[|fm| - 1];
      ChangedDistinct(before, front);
      forall i | 0 <= i < |Changed(before, front)| && IsFile(last.1) && IsFile(Changed(before, front)[i].1)
        ensures Relative(Changed(before, front)[i].0) != Relative(last.0)
      {
        ChangedMembers(before, front, Changed(before, front)[i]);
      }
      DistinctAppend(Changed(before, front), last);
      assert Changed(before, front) + [] == Changed(before, front);
    }
  }

  /** The file entries a pass plans for. */
  function Worklist(before: Filemeta, latest: Filemeta, incremental: bool): Filemeta {
    Files(Synced(before, latest, incremental))
  }

  ghost predicate IsPlanned(before: Filemeta, latest: Filemeta, incremental: bool, e: (string, Meta)) {
    e in latest && IsFile(e.1) && (incremental ==> Get(before, e.0) != Some(e.1))
  }

  lemma WorklistMembers(before: Filemeta, latest: Filemeta, incremental: bool, e: (string, Meta))
    ensures e in Worklist(before, latest, incremental) <==> IsPlanned(before, latest, incremental, e)
  {
    FilesMembers(Synced(before, latest, incremental), e);
    ChangedMembers(before, latest, e);
  }

  lemma WorklistIsGood(w: World, before: Filemeta, latest: Filemeta, incremental: bool)
    requires Workable(latest) && IsDict(w.state)
    ensures AllPlannable(Worklist(before, latest, incremental))
    ensures WellPlanned(w, Planned(w, before, latest, incremental))
  {
    var files := Worklist(before, latest, incremental);
    ChangedDistinct(before, latest);
    FilesDistinct(Synced(before, latest, incremental));
    forall i | 0 <= i < |files|
      ensures IsFile(files[i].1) && Plannable(files[i].0, files[i].1)
    {
      WorklistMembers(before, latest, incremental, files[i]);
      var j :| 0 <= j < |latest| && latest[j] == files[i];
      assert Usable(latest[j].1);
    }
    PlanIsWellPlanned(w, files);
  }

  /** Files of the filemeta this pass does not plan for. */
  ghost function Kept(before: Filemeta, latest: Filemeta, incremental: bool): set<string> {
    set i | 0 <= i < |latest| && IsFile(latest[i].1) && !IsPlanned(before, latest, incremental, latest[i])
          :: Relative(latest[i].0).GetOr("")
  }

  // ----- the theorem -----

  ghost predicate AllArrive(fetch: Fetch) { forall round, path, id :: fetch(round, path, id).Some? }

  /** The planned operation of index `i` stems from an entry of the filemeta. */
  lemma StemsFrom(w: World, before: Filemeta, latest: Filemeta, incremental: bool, i: nat)
    requires Workable(latest) && i < |Planned(w, before, latest, incremental)|
    ensures var (op, e) := (Planned(w, before, latest, incremental)[i], Worklist(before, latest, incremental)[i]);
            && e in latest && IsFile(e.1) && IsPlanned(before, latest, incremental, e)
            && op == PlanOp(w, e.0, e.1) && op.path == e.0 && Some(op.id) == e.1.id
            && Relative(op.path).Some? && IsFilePath(latest, Rel(op))
            && (op.ftype.Binary? ==> op.hash.Some?)
  {
    var e := Worklist(before, latest, incremental)[i];
    WorklistMembers(before, latest, incremental, e);
    var j :| 0 <= j < |latest| && latest[j] == e;
    assert Usable(latest[j].1);
    PlanOpIsPlanned(w, e.0, e.1);
  }

  lemma FileIsInFilemeta(fm: Filemeta, p: string)
    requires Canonical(fm) && IsFilePath(fm, p)
    ensures InFilemeta(fm, p) && Relative(p) == Some(p)
  {
    var i :| 0 <= i < |fm| && IsFile(fm[i].1) && Relative(fm[i].0) == Some(p);
    assert CanonicalKey(fm[i].0);
    HasAt(fm, i);
    RelativeSpelled(fm[i].0);
  }

  /** The world, plan and server of a pass, and what its deletions may be. */
  ghost predicate Ready(w: World, before: Filemeta, latest: Filemeta, incremental: bool, dels: seq<string>,
                        fetch: Fetch)
  {
    && Sound(w) && Workable(latest)
    && Lists(dels, ToDelete(PassMid(w, before, latest, incremental, fetch).w.tree, latest))
  }

  lemma DeletionsAreApart(w: World, before: Filemeta, latest: Filemeta, incremental: bool, dels: seq<string>,
                          fetch: Fetch)
    requires Ready(w, before, latest, incremental, dels, fetch) && Canonical(latest)
    ensures Apart(Planned(w, before, latest, incremental), dels)
    ensures WellPlanned(w, Planned(w, before, latest, incremental))
  {
    var ops := Planned(w, before, latest, incremental);
    WorklistIsGood(w, before, latest, incremental);
    MidwaySound(w, ops, Env(Threshold(latest), fetch));
    forall i | 0 <= i < |ops|
      ensures Rel(ops[i]) !in dels
    {
      StemsFrom(w, before, latest, incremental, i);
      FileIsInFilemeta(latest, Rel(ops[i]));
    }
  }

  lemma DeletionsAreListed(w: World, before: Filemeta, latest: Filemeta, incremental: bool, dels: seq<string>,
                           fetch: Fetch)
    requires Ready(w, before, latest, incremental, dels, fetch)
    ensures WellPlanned(w, Planned(w, before, latest, incremental)) && Listed(dels)
  {
    WorklistIsGood(w, before, latest, incremental);
    MidwaySound(w, Planned(w, before, latest, incremental), Env(Threshold(latest), fetch));
  }

  /** Every file that clashes with another use of its path is moved away by a rename. */
  ghost predicate ClashesMove(w: World, ops: seq<Op>, fm: Filemeta) {
    forall p :: Clashes(fm, p) && p in w.tree ==> !Spares(ops, p)
  }

  /** Every misspelled file was there under its path and is moved away, so that the last phase writes it anew. */
  ghost predicate MisspelledMove(w: World, ops: seq<Op>, fm: Filemeta) {
    forall p :: Misspelled(fm, p) ==> p in w.tree && !Spares(ops, p)
  }

  /** After the creates and renames a clashing file stands iff it was there and spared. */
  lemma ClashIff(w: World, before: Filemeta, latest: Filemeta, incremental: bool, env: Env, p: string)
    requires Workable(latest) && IsDict(w.state) && Clashes(latest, p)
    ensures var ops := Planned(w, before, latest, incremental);
            p in Midway(w, ops, env).w.tree <==> p in w.tree && Spares(ops, p)
  {
    var ops := Planned(w, before, latest, incremental);
    WorklistIsGood(w, before, latest, incremental);
    forall i | 0 <= i < |ops|
      ensures Rel(ops[i]) != p
    {
      StemsFrom(w, before, latest, incremental, i);
    }
    if p in Midway(w, ops, env).w.tree {
      KeptIsSpared(w, ops, env, p);
    } else if p in w.tree && Spares(ops, p) {
      SparedStands(w, ops, env, p);
    }
  }

  /** Where all other files stand, a misspelled one is absent iff it was there and moved away. */
  lemma MisspelledIff(w: World, before: Filemeta, latest: Filemeta, incremental: bool, fetch: Fetch, p: string)
    requires Workable(latest) && IsDict(w.state) && Misspelled(latest, p)
    requires Standing(w, before, latest, incremental, fetch)
    ensures p !in PassMid(w, before, latest, incremental, fetch).w.tree <==>
            p in w.tree && !Spares(Planned(w, before, latest, incremental), p)
  {
    var ops, env := Planned(w, before, latest, incremental), Env(Threshold(latest), fetch);
    WorklistIsGood(w, before, latest, incremental);
    if p in Midway(w, ops, env).w.tree {
      if p in w.tree {
        StandingIsSpared(w, ops, env, p);
      }
    } else {
      PlannedOrKept(w, before, latest, incremental, p);
      var i :| 0 <= i < |ops| && Rel(ops[i]) == p;
      assert PlannedOp(w, ops[i]);
      if Spares(ops, p) {
        SparedStands(w, ops, env, p);
      }
    }
  }

  lemma FitsIff(w: World, before: Filemeta, latest: Filemeta, incremental: bool, fetch: Fetch)
    requires Workable(latest) && IsDict(w.state) && Standing(w, before, latest, incremental, fetch)
    ensures var ops := Planned(w, before, latest, incremental);
            Fits(PassMid(w, before, latest, incremental, fetch).w.tree, latest) <==>
            ClashesMove(w, ops, latest) && MisspelledMove(w, ops, latest)
  {
    var ops, m := Planned(w, before, latest, incremental), PassMid(w, before, latest, incremental, fetch).w.tree;
    forall p | Clashes(latest, p)
      ensures p in m <==> p in w.tree && Spares(ops, p)
    {
      ClashIff(w, before, latest, incremental, Env(Threshold(latest), fetch), p);
    }
    forall p | Misspelled(latest, p)
      ensures p !in m <==> p in w.tree && !Spares(ops, p)
    {
      MisspelledIff(w, before, latest, incremental, fetch, p);
    }
  }

  /** The operation planned for an entry. */
  lemma PlannedAt(w: World, before: Filemeta, latest: Filemeta, incremental: bool, e: (string, Meta)) returns (i: nat)
    requires IsPlanned(before, latest, incremental, e)
    ensures i < |Planned(w, before, latest, incremental)| && Worklist(before, latest, incremental)[i] == e
    ensures Planned(w, before, latest, incremental)[i] == PlanOp(w, e.0, e.1)
  {
    WorklistMembers(before, latest, incremental, e);
    var files := Worklist(before, latest, incremental);
    i :| 0 <= i < |files| && files[i] == e;
  }

  /** A file path is an operation's target or kept. */
  lemma PlannedOrKept(w: World, before: Filemeta, latest: Filemeta, incremental: bool, p: string)
    requires Workable(latest) && IsFilePath(latest, p)
    ensures p in Kept(before, latest, incremental)
            || exists i :: 0 <= i < |Planned(w, before, latest, incremental)|
                 && Rel(Planned(w, before, latest, incremental)[i]) == p
  {
    var k :| 0 <= k < |latest| && IsFile(latest[k].1) && Relative(latest[k].0) == Some(p);
    if IsPlanned(before, latest, incremental, latest[k]) {
      var i := PlannedAt(w, before, latest, incremental, latest[k]);
      StemsFrom(w, before, latest, incremental, i);
      assert Rel(Planned(w, before, latest, incremental)[i]) == p;
    }
  }

  /** Kept files are files of the filemeta and no operation's target. */
  lemma KeptIsApart(w: World, before: Filemeta, latest: Filemeta, incremental: bool, p: string)
    requires Workable(latest) && p in Kept(before, latest, incremental)
    ensures IsFilePath(latest, p)
    ensures forall i :: 0 <= i < |Planned(w, before, latest, incremental)| ==>
            Rel(Planned(w, before, latest, incremental)[i]) != p
  {
    var k :| 0 <= k < |latest| && IsFile(latest[k].1) && !IsPlanned(before, latest, incremental, latest[k])
             && Relative(latest[k].0).GetOr("") == p;
    assert Usable(latest[k].1);
    var ops := Planned(w, before, latest, incremental);
    forall i | 0 <= i < |ops|
      ensures Rel(ops[i]) != p
    {
      StemsFrom(w, before, latest, incremental, i);
      var e := Worklist(before, latest, incremental)[i];
      var j :| 0 <= j < |latest| && latest[j] == e;
      SameFileSameEntry(latest, j, k);
    }
  }

  lemma SameFileSameEntry(fm: Filemeta, j: nat, k: nat)
    requires DistinctFiles(fm) && j < |fm| && k < |fm| && IsFile(fm[j].1) && IsFile(fm[k].1)
    ensures Relative(fm[j].0) == Relative(fm[k].0) ==> j == k
  {
    if j < k {
      assert Relative(fm[j].0) != Relative(fm[k].0);
    } else if k < j {
      assert Relative(fm[k].0) != Relative(fm[j].0);
    }
  }

  /** In the end a path is there if it stood or was updated, and was not listed. */
  lemma FinalMembership(w: World, before: Filemeta, latest: Filemeta, incremental: bool, dels: seq<string>,
                        fetch: Fetch, p: string)
    requires Ready(w, before, latest, incremental, dels, fetch) && AllArrive(fetch)
    ensures var (ops, env) := (Planned(w, before, latest, incremental), Env(Threshold(latest), fetch));
            p in Final(w, ops, env, dels).w.tree <==>
              p !in dels
              && (|| p in Midway(w, ops, env).w.tree
                  || exists i :: 0 <= i < |ops| && ops[i].kind.Update? && Rel(ops[i]) == p)
  {
    var ops, env := Planned(w, before, latest, incremental), Env(Threshold(latest), fetch);
    DeletionsAreListed(w, before, latest, incremental, dels, fetch);
    if p in dels {
      ListedIsGone(w, ops, env, dels, p);
    } else if i :| 0 <= i < |ops| && ops[i].kind.Update? && Rel(ops[i]) == p {
      StemsFrom(w, before, latest, incremental, i);
      UpdatedStands(w, ops, env, dels, i);
    } else {
      NoUpdateAt(w, ops, p);
      FinishElse(w, ops, env, dels, File(p));
    }
  }

  lemma NoUpdateAt(w: World, ops: seq<Op>, p: string)
    requires WellPlanned(w, ops) && forall i :: 0 <= i < |ops| && ops[i].kind.Update? ==> Rel(ops[i]) != p
    ensures NoUpdateTouches(ops, File(p))
  {
    forall j | 0 <= j < |ops| && ops[j].kind.Update?
      ensures !Touches(ops[j], File(p))
    {
      assert PlannedOp(w, ops[j]);
    }
  }

  lemma SoleTarget(w: World, ops: seq<Op>, i: nat)
    requires WellPlanned(w, ops) && i < |ops| && !ops[i].kind.Update?
    ensures forall j :: 0 <= j < |ops| && ops[j].kind.Update? ==> Rel(ops[j]) != Rel(ops[i])
  {
    forall j | 0 <= j < |ops| && ops[j].kind.Update?
      ensures Rel(ops[j]) != Rel(ops[i])
    {
      OthersUntouched(w, ops, i, j);
    }
  }

  ghost predicate Standing(w: World, before: Filemeta, latest: Filemeta, incremental: bool, fetch: Fetch) {
    var m := PassMid(w, before, latest, incremental, fetch);
    AllStand(m.w.tree, Planned(w, before, latest, incremental)) && Kept(before, latest, incremental) <= m.w.tree.Keys
  }

  lemma MirrorsIffStanding(w: World, before: Filemeta, latest: Filemeta, incremental: bool, dels: seq<string>,
                           fetch: Fetch)
    requires Ready(w, before, latest, incremental, dels, fetch) && AllArrive(fetch)
    ensures var (ops, env) := (Planned(w, before, latest, incremental), Env(Threshold(latest), fetch));
            Mirrors(Final(w, ops, env, dels).w.tree, latest) <==>
            Standing(w, before, latest, incremental, fetch) && Fits(Midway(w, ops, env).w.tree, latest)
  {
    var ops, env := Planned(w, before, latest, incremental), Env(Threshold(latest), fetch);
    var m, f := Midway(w, ops, env).w.tree, Final(w, ops, env, dels).w.tree;
    if Mirrors(f, latest) {
      MirroredStands(w, before, latest, incremental, dels, fetch);
      forall p | p in m
        ensures !Clashes(latest, p) && !Misspelled(latest, p)
      {
        FinalMembership(w, before, latest, incremental, dels, fetch, p);
      }
    }
    if Standing(w, before, latest, incremental, fetch) && Fits(m, latest) {
      forall p
        ensures IsFilePath(latest, p) ==> p in f
        ensures p in f && !Skipped(p) ==> IsFilePath(latest, p)
      {
        StandingPath(w, before, latest, incremental, dels, fetch, p);
      }
    }
  }

  lemma MirroredStands(w: World, before: Filemeta, latest: Filemeta, incremental: bool, dels: seq<string>, fetch: Fetch)
    requires Ready(w, before, latest, incremental, dels, fetch) && AllArrive(fetch)
    requires var (ops, env) := (Planned(w, before, latest, incremental), Env(Threshold(latest), fetch));
             Mirrors(Final(w, ops, env, dels).w.tree, latest)
    ensures Standing(w, before, latest, incremental, fetch)
  {
    var ops, m := Planned(w, before, latest, incremental), PassMid(w, before, latest, incremental, fetch).w.tree;
    DeletionsAreListed(w, before, latest, incremental, dels, fetch);
    forall i | 0 <= i < |ops| && !ops[i].kind.Update?
      ensures Rel(ops[i]) in m
    {
      StemsFrom(w, before, latest, incremental, i);
      FinalMembership(w, before, latest, incremental, dels, fetch, Rel(ops[i]));
      SoleTarget(w, ops, i);
    }
    forall p | p in Kept(before, latest, incremental)
      ensures p in m
    {
      KeptIsApart(w, before, latest, incremental, p);
      FinalMembership(w, before, latest, incremental, dels, fetch, p);
    }
  }

  lemma StandingPath(w: World, before: Filemeta, latest: Filemeta, incremental: bool, dels: seq<string>, fetch: Fetch,
                     p: string)
    requires Ready(w, before, latest, incremental, dels, fetch) && AllArrive(fetch)
    requires Standing(w, before, latest, incremental, fetch)
    requires Fits(PassMid(w, before, latest, incremental, fetch).w.tree, latest)
    ensures var f := Final(w, Planned(w, before, latest, incremental), Env(Threshold(latest), fetch), dels).w.tree;
            (IsFilePath(latest, p) ==> p in f) && (p in f && !Skipped(p) ==> IsFilePath(latest, p))
  {
    var ops := Planned(w, before, latest, incremental);
    FinalMembership(w, before, latest, incremental, dels, fetch, p);
    if IsFilePath(latest, p) {
      PlannedOrKept(w, before, latest, incremental, p);
    } else if i :| 0 <= i < |ops| && Rel(ops[i]) == p {
      StemsFrom(w, before, latest, incremental, i);
    }
  }

  /**
   * Convergence of the paths, from any tree and any tracked state: an applied
   * pass ends with exactly the files of the filemeta if and only if every planned
   * rename has its own source in the tree, no rename takes away a file that is
   * held because its hash matched or its entry did not change, every file whose
   * path the filemeta uses for something else is taken away by a rename, and so
   * is every file whose key is spelled otherwise than the deletion step expects.
   */
  lemma PathsConverge(w: World, before: Filemeta, latest: Filemeta, incremental: bool, dels: seq<string>, allow: bool,
                      fetch: Fetch)
    requires Ready(w, before, latest, incremental, dels, fetch) && AllArrive(fetch)
    requires !Refused(w, latest) && !Gated(latest, dels, allow)
    ensures Pass(w, before, latest, incremental, dels, allow, fetch).accepted
    ensures Mirrors(Pass(w, before, latest, incremental, dels, allow, fetch).w.tree, latest) <==>
            Movable(w, Planned(w, before, latest, incremental))
            && SparesHeld(w, Planned(w, before, latest, incremental), Kept(before, latest, incremental))
            && ClashesMove(w, Planned(w, before, latest, incremental), latest)
            && MisspelledMove(w, Planned(w, before, latest, incremental), latest)
  {
    var ops, env := Planned(w, before, latest, incremental), Env(Threshold(latest), fetch);
    var kept := Kept(before, latest, incremental);
    WorklistIsGood(w, before, latest, incremental);
    MirrorsIffStanding(w, before, latest, incremental, dels, fetch);
    forall i | 0 <= i < |ops|
      ensures Rel(ops[i]) !in kept && WriteBody(ops[i], 0, env).Some?
    {
      StemsFrom(w, before, latest, incremental, i);
      if Rel(ops[i]) in kept {
        KeptIsApart(w, before, latest, incremental, Rel(ops[i]));
      }
    }
    StandsIffMovable(w, ops, env, kept);
    if Standing(w, before, latest, incremental, fetch) {
      FitsIff(w, before, latest, incremental, fetch);
    }
  }

  /** Canonically spelled files are recognised. */
  lemma CanonicalIsSpelled(w: World, ops: seq<Op>, fm: Filemeta)
    requires Canonical(fm)
    ensures MisspelledMove(w, ops, fm)
  {
    forall p | IsFilePath(fm, p)
      ensures InFilemeta(fm, p)
    {
      FileIsInFilemeta(fm, p);
    }
  }
}
