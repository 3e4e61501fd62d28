/** Passes that happen: small folders on which the exceptional outcomes can be followed to the end. */
module MirrorStory {
  import opened Common
  import opened Dict
  import opened Filemeta
  import opened MirrorModel
  import opened MirrorFrames
  import opened MirrorPhases
  import opened MirrorPresence
  import opened MirrorHolders
  import opened MirrorConvergence
  import opened MirrorEntries
  import opened MirrorAgreement
  import opened MirrorStale
  import opened MirrorSafety
  import MirrorFinish

  // ----- a path dropped under a leading slash, and its document's return -----

  lemma SlashedAtom(s: string)
    requires Atom(s)
    ensures Relative("/" + s) == Some(s) && CanonicalKey("/" + s) && "/" + s != s && !Atom("/" + s)
  {
    AtomPath(s);
    RelativeSpelled(s);
    assert ("/" + s)[0] == '/';
  }

  function Slashed(s: string): Filemeta { [("/" + s, Doc("1", None))] }

  function SlashedWorld(s: string, x: Body): World { World(map[s := x], [("/" + s, Some("1"))]) }

  function Single(k: string, m: Meta): Filemeta { [(k, m)] }

  lemma SingleIsCanonical(k: string, m: Meta)
    requires CanonicalKey(k) && Usable(m) && IsFile(m)
    ensures Canonical(Single(k, m)) && DistinctIds(Single(k, m))
    ensures forall l :: Get(Single(k, m), l) == if l == k then Some(m) else None
    ensures forall p :: IsFilePath(Single(k, m), p) <==> Relative(k) == Some(p)
  {
    assert Single(k, m)[1..] == [];
    assert forall l :: Get<Meta>([], l) == None;
    forall p | Relative(k) == Some(p)
      ensures IsFilePath(Single(k, m), p)
    {
      assert Relative(Single(k, m)[0].0) == Some(p);
    }
  }

  lemma SlashedAgrees(s: string, x: Body)
    requires Atom(s)
    ensures Agrees(SlashedWorld(s, x), Slashed(s))
  {
    AtomPath(s);
    SlashedAtom(s);
    SingleIsCanonical("/" + s, Doc("1", None));
    var d: Tracking := [("/" + s, Some("1"))];
    assert d[1..] == [];
    assert forall l :: Get<Option<string>>([], l) == None;
    assert IsDict(d) && SlashedWorld(s, x).state == d;
  }

  /** First the document goes away and another one is published: the new filemeta has only `t`. */
  function Replacing(s: string, t: string, incremental: bool, fetch: Fetch): Turn {
    Turn(Single(t, Doc("2", None)), incremental, [s], false, fetch)
  }

  lemma SingleWorklist(before: Filemeta, k: string, m: Meta, incremental: bool)
    requires IsFile(m) && Get(before, k) != Some(m)
    ensures Worklist(before, Single(k, m), incremental) == Single(k, m)
  {
    assert Single(k, m)[..0] == [];
    assert Changed(before, []) == [] && Files([]) == [];
    assert Changed(before, Single(k, m)) == Single(k, m);
  }

  lemma OtherIsUntracked(s: string)
    ensures FindByDocId([("/" + s, Some("1"))], "2") == None
  {
    var d: Tracking := [("/" + s, Some("1"))];
    assert d[1..] == [] && d[0].1 != Some("2");
  }

  lemma CreatePlan(w: World, t: string, id: string)
    requires Relative(t) == Some(t) && t !in w.tree && FindByDocId(w.state, id) == None
    ensures PlanOp(w, t, Doc(id, None)) == Op(Create, t, id, Document, None, "", false, None)
  {
  }

  lemma SlashedHasNot(s: string, t: string)
    requires Atom(s) && Atom(t)
    ensures Get(Slashed(s), t) == None
  {
    SlashedAtom(s);
    SingleIsCanonical("/" + s, Doc("1", None));
    assert Slashed(s) == Single("/" + s, Doc("1", None));
  }

  lemma ReplacingPlan(s: string, t: string, x: Body, turn: Turn)
    requires Atom(s) && Atom(t) && s != t && turn.latest == Single(t, Doc("2", None))
    ensures OpsOf(SlashedWorld(s, x), Slashed(s), turn)
         == [Op(Create, t, "2", Document, None, "", false, None)]
    ensures Relative(t) == Some(t)
  {
    AtomPath(t);
    OtherIsUntracked(s);
    SlashedHasNot(s, t);
    SingleWorklist(Slashed(s), t, Doc("2", None), turn.incremental);
    CreatePlan(SlashedWorld(s, x), t, "2");
  }

  lemma SingleCount(t: string)
    ensures FileCount(Single(t, Doc("2", None))) == 1
  {
    assert Single(t, Doc("2", None))[..0] == [];
  }

  lemma ReplacingMid(s: string, t: string, x: Body, turn: Turn, p: string)
    requires Atom(s) && Atom(t) && s != t && turn.latest == Single(t, Doc("2", None)) && AllArrive(turn.fetch)
    ensures p in Midway(SlashedWorld(s, x), OpsOf(SlashedWorld(s, x), Slashed(s), turn), EnvOf(turn)).w.tree
            <==> p == s || p == t
  {
    var (w, ops) := (SlashedWorld(s, x), OpsOf(SlashedWorld(s, x), Slashed(s), turn));
    AtomPath(t);
    ReplacingPlan(s, t, x, turn);
    OneCreateMid(w, ops, EnvOf(turn), p);
  }

  lemma OneCreateMid(w: World, ops: seq<Op>, env: Env, p: string)
    requires IsDict(w.state) && |ops| == 1 && PlannedOp(w, ops[0]) && ops[0].kind.Create?
             && WriteBody(ops[0], 0, env).Some?
    ensures p in Midway(w, ops, env).w.tree <==> p in w.tree || p == Rel(ops[0])
  {
    MidMembership(w, ops, env, p);
  }

  lemma ReplacingLists(s: string, t: string, x: Body, turn: Turn)
    requires Atom(s) && Atom(t) && s != t && turn.latest == Single(t, Doc("2", None)) && AllArrive(turn.fetch)
    ensures Lists([s], ToDelete(Midway(SlashedWorld(s, x), OpsOf(SlashedWorld(s, x), Slashed(s), turn),
                                       EnvOf(turn)).w.tree,
                                turn.latest))
  {
    AtomIsSeen(s);
    AtomPath(t);
    SingleIsCanonical(t, Doc("2", None));
    SlashedAtom(t);
    var mid := Midway(SlashedWorld(s, x), OpsOf(SlashedWorld(s, x), Slashed(s), turn), EnvOf(turn)).w.tree;
    forall p
      ensures p in ToDelete(mid, turn.latest) <==> p == s
    {
      ReplacingMid(s, t, x, turn, p);
      NoSlashInFront(p, t);
    }
  }

  lemma NoSlashInFront(p: string, t: string)
    requires Atom(t)
    ensures "/" + p != t
  {
    assert ("/" + p)[0] == '/';
  }

  lemma ReplacingIsOrdinary(s: string, t: string, x: Body, incremental: bool, fetch: Fetch)
    requires Atom(s) && Atom(t) && s != t && AllArrive(fetch)
    ensures var (w, turn) := (SlashedWorld(s, x), Replacing(s, t, incremental, fetch));
            Ordinary(w, Slashed(s), turn) && NoopsTracked(w, OpsOf(w, Slashed(s), turn))
  {
    var (w, turn) := (SlashedWorld(s, x), Replacing(s, t, incremental, fetch));
    AtomPath(t);
    SlashedAgrees(s, x);
    SingleIsCanonical(t, Doc("2", None));
    ReplacingPlan(s, t, x, turn);
    ReplacingLists(s, t, x, turn);
    SingleCount(t);
  }

  // ----- the same document comes back at another path -----

  function Restored(t: string, u: string): Filemeta { Pair(u, Doc("1", None), t, Doc("2", None)) }

  /** What the first pass leaves: only `t` is mirrored, and document 1 is still looked up at the vanished file. */
  ghost predicate LeftBehind(w: World, s: string, t: string) {
    && Sound(w) && FindByDocId(w.state, "1") == Some("/" + s)
    && forall p :: !Skipped(p) ==> (p in w.tree <==> p == t)
  }

  lemma ReplacingDrops(s: string, t: string, x: Body)
    requires Atom(s) && Atom(t) && s != t
    ensures DroppedWithSlash(SlashedWorld(s, x), Single(t, Doc("2", None)), "/" + s, "1")
  {
    AtomPath(t);
    SlashedAtom(s);
    SingleIsCanonical(t, Doc("2", None));
  }

  lemma SingleIsMirrored(w: World, t: string, p: string)
    requires Atom(t) && Mirrors(w.tree, Single(t, Doc("2", None))) && !Skipped(p)
    ensures p in w.tree <==> p == t
  {
    AtomPath(t);
    SingleIsCanonical(t, Doc("2", None));
  }

  lemma ReplacingLeavesBehind(s: string, t: string, x: Body, incremental: bool, fetch: Fetch)
    requires Atom(s) && Atom(t) && s != t && AllArrive(fetch)
    ensures var r := PassOf(SlashedWorld(s, x), Slashed(s), Replacing(s, t, incremental, fetch));
            r.accepted && LeftBehind(r.w, s, t)
  {
    var (w, before, turn) := (SlashedWorld(s, x), Slashed(s), Replacing(s, t, incremental, fetch));
    SlashedAgrees(s, x);
    ReplacingIsOrdinary(s, t, x, incremental, fetch);
    ReplacingDrops(s, t, x);
    DroppedStaysTracked(w, before, turn, "/" + s, "1");
    SingleConverges(w, before, turn, t);
    forall p | !Skipped(p)
      ensures p in PassOf(w, before, turn).w.tree <==> p == t
    {
      SingleIsMirrored(PassOf(w, before, turn).w, t, p);
    }
  }

  lemma SingleConverges(w: World, before: Filemeta, turn: Turn, t: string)
    requires Agrees(w, before) && Ordinary(w, before, turn) && NoopsTracked(w, OpsOf(w, before, turn))
    requires Atom(t) && turn.latest == Single(t, Doc("2", None))
    ensures PassOf(w, before, turn).accepted && Mirrors(PassOf(w, before, turn).w.tree, turn.latest)
  {
    AgreesMovable(w, before, turn);
    SingleHasNoClash(w, OpsOf(w, before, turn), t);
    CanonicalIsSpelled(w, OpsOf(w, before, turn), turn.latest);
    HeldAreSpared(w, before, turn);
    OrdinaryConverges(w, before, turn);
  }

  lemma SingleHasNoClash(w: World, ops: seq<Op>, t: string)
    requires Atom(t)
    ensures ClashesMove(w, ops, Single(t, Doc("2", None)))
  {
    AtomPath(t);
    SingleIsCanonical(t, Doc("2", None));
    forall p
      ensures !Clashes(Single(t, Doc("2", None)), p)
    {
      NoSlashInFront(p, t);
    }
  }

  lemma OrdinaryConverges(w: World, before: Filemeta, turn: Turn)
    requires Ordinary(w, before, turn) && Movable(w, OpsOf(w, before, turn))
    requires SparesHeld(w, OpsOf(w, before, turn), Kept(before, turn.latest, turn.incremental))
    requires ClashesMove(w, OpsOf(w, before, turn), turn.latest)
             && MisspelledMove(w, OpsOf(w, before, turn), turn.latest)
    ensures PassOf(w, before, turn).accepted && Mirrors(PassOf(w, before, turn).w.tree, turn.latest)
  {
    PathsConverge(w, before, turn.latest, turn.incremental, turn.dels, turn.allow, turn.fetch);
  }

  /** A plan without creates whose renames all look for a missing file. */
  ghost predicate Stuck(w: World, ops: seq<Op>) {
    forall i :: 0 <= i < |ops| ==>
      !ops[i].kind.Create? && (ops[i].kind.Rename? ==> Source(ops[i]).Some? && Source(ops[i]).value !in w.tree)
  }

  lemma {:induction false} StuckHolders(w: World, ops: seq<Op>, env: Env, n: nat)
    requires Stuck(w, ops) && n <= |ops|
    ensures Holders(w, ops, env, n).Keys == w.tree.Keys
  {
    if n > 0 {
      StuckHolders(w, ops, env, n - 1);
    }
  }

  lemma StuckStands(w: World, ops: seq<Op>, env: Env, p: string)
    requires AllPlanned(w, ops) && Stuck(w, ops)
    ensures p in Midway(w, ops, env).w.tree <==> p in w.tree
  {
    StuckHolders(w, ops, env, |ops|);
    HoldersStand(w, ops, env, |ops|, p);
  }

  lemma RestoredIsCanonical(t: string, u: string)
    requires Atom(t) && Atom(u) && t != u
    ensures Canonical(Restored(t, u)) && FileCount(Restored(t, u)) == 2
    ensures forall e :: e in Restored(t, u) <==> e == (u, Doc("1", None)) || e == (t, Doc("2", None))
  {
    PairIsCanonical(u, Doc("1", None), t, Doc("2", None));
    PairFiles(u, Doc("1", None), t, Doc("2", None));
  }

  lemma RestoringOp(w: World, s: string, t: string, k: string, m: Meta)
    requires LeftBehind(w, s, t) && Relative("/" + s) == Some(s) && s !in w.tree && t in w.tree
             && Relative(k) == Some(k)
    requires (k != t && "/" + s != k && m == Doc("1", None)) || (k == t && m == Doc("2", None))
    ensures var op := PlanOp(w, k, m); !op.kind.Create? && (op.kind.Rename? ==> Source(op) == Some(s))
  {
  }

  lemma RestoringIsStuck(w: World, before: Filemeta, s: string, t: string, u: string, incremental: bool)
    requires Atom(s) && Atom(t) && Atom(u) && s != t && u != t && LeftBehind(w, s, t)
    ensures Stuck(w, Planned(w, before, Restored(t, u), incremental))
  {
    var ops := Planned(w, before, Restored(t, u), incremental);
    RestoredIsCanonical(t, u);
    AtomIsSeen(s);
    AtomIsSeen(t);
    AtomPath(t);
    AtomPath(u);
    SlashedAtom(s);
    forall i | 0 <= i < |ops|
      ensures !ops[i].kind.Create? && (ops[i].kind.Rename? ==> Source(ops[i]).Some? && Source(ops[i]).value !in w.tree)
    {
      var e := Worklist(before, Restored(t, u), incremental)[i];
      WorklistMembers(before, Restored(t, u), incremental, e);
      RestoringOp(w, s, t, e.0, e.1);
    }
  }

  lemma RestoringDeletesNothing(w: World, before: Filemeta, s: string, t: string, u: string, incremental: bool,
                                fetch: Fetch)
    requires Atom(s) && Atom(t) && Atom(u) && s != t && u != t && LeftBehind(w, s, t)
    ensures ToDelete(PassMid(w, before, Restored(t, u), incremental, fetch).w.tree, Restored(t, u)) == {}
  {
    var latest := Restored(t, u);
    var (ops, env) := (Planned(w, before, latest, incremental), Env(Threshold(latest), fetch));
    RestoredIsCanonical(t, u);
    RestoringIsStuck(w, before, s, t, u, incremental);
    WorklistIsGood(w, before, latest, incremental);
    forall p | p in Midway(w, ops, env).w.tree && !Skipped(p)
      ensures InFilemeta(latest, p)
    {
      StuckStands(w, ops, env, p);
      HasAt(latest, 1);
    }
  }

  /** A pass that is neither refused nor gated runs to the end. */
  lemma PassIsFinal(w: World, before: Filemeta, latest: Filemeta, incremental: bool, dels: seq<string>, fetch: Fetch)
    requires IsDict(w.state) && Canonical(latest) && !Refused(w, latest) && !Gated(latest, dels, false)
    ensures var r := Pass(w, before, latest, incremental, dels, false, fetch);
            r.accepted && r.w == MirrorFinish.Final(w, Planned(w, before, latest, incremental),
                                                    Env(Threshold(latest), fetch), dels).w
  {
    WorklistIsGood(w, before, latest, incremental);
  }

  lemma RestoringMisses(w: World, before: Filemeta, s: string, t: string, u: string, incremental: bool, fetch: Fetch)
    requires Atom(s) && Atom(t) && Atom(u) && s != t && u != t && LeftBehind(w, s, t) && AllArrive(fetch)
    requires Ready(w, before, Restored(t, u), incremental, [], fetch)
    ensures var (ops, env) := (Planned(w, before, Restored(t, u), incremental), Env(Threshold(Restored(t, u)), fetch));
            u !in MirrorFinish.Final(w, ops, env, []).w.tree
  {
    var latest := Restored(t, u);
    var (ops, env) := (Planned(w, before, latest, incremental), Env(Threshold(latest), fetch));
    AtomIsSeen(u);
    RestoringIsStuck(w, before, s, t, u, incremental);
    WorklistIsGood(w, before, latest, incremental);
    StuckStands(w, ops, env, u);
    FinalMembership(w, before, latest, incremental, [], fetch, u);
    forall i | 0 <= i < |ops| && ops[i].kind.Update?
      ensures Rel(ops[i]) != u
    {
      assert PlannedOp(w, ops[i]);
    }
  }

  /** The second pass, from whatever the first one left. */
  lemma SecondPass(w: World, s: string, t: string, u: string, incremental: bool, fetch: Fetch)
    requires Atom(s) && Atom(t) && Atom(u) && s != t && u != t && LeftBehind(w, s, t) && AllArrive(fetch)
    ensures var (before, latest) := (Single(t, Doc("2", None)), Restored(t, u));
            var r := Pass(w, before, latest, incremental, [], false, fetch);
            && Ready(w, before, latest, incremental, [], fetch)
            && r.accepted && u !in r.w.tree
  {
    var (before, latest) := (Single(t, Doc("2", None)), Restored(t, u));
    RestoredIsCanonical(t, u);
    RestoringDeletesNothing(w, before, s, t, u, incremental, fetch);
    RestoringMisses(w, before, s, t, u, incremental, fetch);
    PassIsFinal(w, before, latest, incremental, [], fetch);
  }

  lemma RestoredIsWanted(t: string, u: string)
    requires Atom(u)
    ensures IsFilePath(Restored(t, u), u)
  {
    AtomPath(u);
    assert Relative(Restored(t, u)[0].0) == Some(u);
  }

  /**
   * The story from beginning to end, for any three names and any answers of the
   * server: document 1 is mirrored at `s` under the key "/s"; a pass replaces it
   * by document 2 at `t`; a pass brings document 1 back at `u`. Both passes are
   * accepted and delete what the walk finds, and `u` is missing.
   */
  lemma SlashStory(s: string, t: string, u: string, x: Body, incremental: bool, fetch: Fetch)
    requires Atom(s) && Atom(t) && Atom(u) && s != t && u != t && AllArrive(fetch)
    ensures var (w, turn) := (SlashedWorld(s, x), Replacing(s, t, incremental, fetch));
            var first := PassOf(w, Slashed(s), turn);
            var second := Pass(first.w, turn.latest, Restored(t, u), incremental, [], false, fetch);
            && Agrees(w, Slashed(s)) && Ordinary(w, Slashed(s), turn)
            && Ready(first.w, turn.latest, Restored(t, u), incremental, [], fetch)
            && first.accepted && second.accepted && IsFilePath(Restored(t, u), u) && u !in second.w.tree
  {
    SlashedAgrees(s, x);
    ReplacingIsOrdinary(s, t, x, incremental, fetch);
    ReplacingLeavesBehind(s, t, x, incremental, fetch);
    RestoredIsWanted(t, u);
    SecondPass(PassOf(SlashedWorld(s, x), Slashed(s), Replacing(s, t, incremental, fetch)).w, s, t, u, incremental,
               fetch);
  }

  // ----- two keys for one file -----

  /** Documents 1 and 2 stand at `k` and `l`; the filemeta moves both to one file under two keys. */
  function TwoFiles(k: string, l: string, x: Body, y: Body): World {
    World(map[k := x, l := y], [(k, Some("1")), (l, Some("2"))])
  }

  function Crossing(s: string): Filemeta { Pair(s, Doc("1", None), "/" + s, Doc("2", None)) }

  ghost predicate ThreeAtoms(k: string, l: string, s: string) {
    Atom(k) && Atom(l) && Atom(s) && k != l && k != s && l != s
  }

  function RenameOp(from: string, path: string, id: string): Op {
    Op(Rename, path, id, Document, None, from, false, None)
  }

  lemma BothTracked(k: string, l: string)
    requires k != l
    ensures var d: Tracking := [(k, Some("1")), (l, Some("2"))];
            IsDict(d) && FindByDocId(d, "1") == Some(k) && FindByDocId(d, "2") == Some(l)
  {
    var d: Tracking := [(k, Some("1")), (l, Some("2"))];
    assert d[1..] == [(l, Some("2"))] && d[1..][1..] == [];
    assert Get<Option<string>>([], k) == None && Get<Option<string>>([], l) == None;
    assert Get(d[1..], k) == Get(d[1..][1..], k);
    assert IsDict(d[1..]);
    assert d[0].1 != Some("2");
  }

  lemma RenamePlan(w: World, from: string, path: string, id: string)
    requires Relative(path).Some? && Relative(path).value !in w.tree && FindByDocId(w.state, id) == Some(from)
    requires from != "" && from != path
    ensures PlanOp(w, path, Doc(id, None)) == RenameOp(from, path, id)
  {
  }

  lemma CrossingPlan(k: string, l: string, s: string, x: Body, y: Body)
    requires ThreeAtoms(k, l, s)
    ensures Planned(TwoFiles(k, l, x, y), [], Crossing(s), false) == [RenameOp(k, s, "1"), RenameOp(l, "/" + s, "2")]
    ensures Relative(k) == Some(k) && Relative(l) == Some(l) && Relative(s) == Some(s) && Relative("/" + s) == Some(s)
  {
    AtomPath(k);
    AtomPath(l);
    AtomPath(s);
    SlashedAtom(s);
    BothTracked(k, l);
    PairFiles(s, Doc("1", None), "/" + s, Doc("2", None));
    RenamePlan(TwoFiles(k, l, x, y), k, s, "1");
    RenamePlan(TwoFiles(k, l, x, y), l, "/" + s, "2");
  }

  lemma CrossingHolders(w: World, ops: seq<Op>, env: Env, k: string, l: string, s: string)
    requires |ops| == 2 && ops[0].kind.Rename? && ops[1].kind.Rename? && k != l && k != s && l != s
    requires Source(ops[0]) == Some(k) && Source(ops[1]) == Some(l) && Rel(ops[0]) == Rel(ops[1]) == s
    requires w.tree.Keys == {k, l}
    ensures Holders(w, ops, env, 2) == map[s := l] && Overwrites(w, ops, env, 1, k)
  {
    assert Origins(w, ops, env) == {k, l};
    assert Holders(w, ops, env, 0) == map[k := k, l := l];
    assert Holders(w, ops, env, 1) == map[s := k, l := l];
  }

  lemma CrossingIsPlanned(k: string, l: string, s: string, x: Body, y: Body)
    requires ThreeAtoms(k, l, s)
    ensures AllPlanned(TwoFiles(k, l, x, y), Planned(TwoFiles(k, l, x, y), [], Crossing(s), false))
    ensures AllPlannable(Worklist([], Crossing(s), false)) && FileCount(Crossing(s)) == 2
  {
    BothTracked(k, l);
    AtomPath(s);
    SlashedAtom(s);
    PairFiles(s, Doc("1", None), "/" + s, Doc("2", None));
    PlanIsPlanned(TwoFiles(k, l, x, y), Crossing(s));
  }

  /** After the renames `s` holds the second file's bytes and nothing else is left. */
  lemma CrossingMid(k: string, l: string, s: string, x: Body, y: Body, env: Env, p: string)
    requires ThreeAtoms(k, l, s)
    ensures var (w, ops) := (TwoFiles(k, l, x, y), Planned(TwoFiles(k, l, x, y), [], Crossing(s), false));
            && See(Midway(w, ops, env).w, File(p)) == (if p == s then Bytes(y) else Absent)
            && !Survives(w, ops, env, |ops|, k)
  {
    var (w, ops) := (TwoFiles(k, l, x, y), Planned(TwoFiles(k, l, x, y), [], Crossing(s), false));
    CrossingPlan(k, l, s, x, y);
    CrossingIsPlanned(k, l, s, x, y);
    CrossingHolders(w, ops, env, k, l, s);
    HoldersStand(w, ops, env, 2, p);
    OldSurvivesCreates(w, ops, env, l);
  }

  /** Without updates and deletions the last phase changes nothing. */
  lemma NothingToFinish(w: World, ops: seq<Op>, env: Env, p: string)
    requires AllPlanned(w, ops) && forall i :: 0 <= i < |ops| ==> !ops[i].kind.Update?
    ensures See(MirrorFinish.Final(w, ops, env, []).w, File(p)) == See(Midway(w, ops, env).w, File(p))
  {
    FinalEndsWell(w, ops, env, [], p);
  }

  lemma CrossingEnds(k: string, l: string, s: string, x: Body, y: Body, env: Env, p: string)
    requires ThreeAtoms(k, l, s)
    ensures var (w, ops) := (TwoFiles(k, l, x, y), Planned(TwoFiles(k, l, x, y), [], Crossing(s), false));
            See(MirrorFinish.Final(w, ops, env, []).w, File(p)) == See(Midway(w, ops, env).w, File(p))
  {
    CrossingPlan(k, l, s, x, y);
    CrossingIsPlanned(k, l, s, x, y);
    NothingToFinish(TwoFiles(k, l, x, y), [RenameOp(k, s, "1"), RenameOp(l, "/" + s, "2")], env, p);
  }

  /**
   * Two keys that name one file cost the bytes of the document that gets there
   * first: the accepted pass leaves one file, with the other document's bytes.
   */
  lemma TwoSpellingsOverwrite(k: string, l: string, s: string, x: Body, y: Body, fetch: Fetch, p: string)
    requires ThreeAtoms(k, l, s)
    ensures var (w, latest) := (TwoFiles(k, l, x, y), Crossing(s));
            var r := Pass(w, [], latest, false, [], false, fetch);
            && CanonicalKeys(latest) && r.accepted && RenamedOver(w, [], latest, false, fetch, k)
            && See(r.w, File(p)) == (if p == s then Bytes(y) else Absent)
  {
    var env := Env(Threshold(Crossing(s)), fetch);
    CrossingPlan(k, l, s, x, y);
    CrossingIsPlanned(k, l, s, x, y);
    CrossingMid(k, l, s, x, y, env, p);
    CrossingEnds(k, l, s, x, y, env, p);
    CrossingKeys(s);
  }

  ghost predicate CanonicalKeys(fm: Filemeta) { IsDict(fm) && forall i :: 0 <= i < |fm| ==> CanonicalKey(fm[i].0) }

  lemma CrossingKeys(s: string)
    requires Atom(s)
    ensures CanonicalKeys(Crossing(s))
  {
    AtomPath(s);
    SlashedAtom(s);
    var fm := Crossing(s);
    assert fm[1..] == [fm[1]] && fm[1..][1..] == [];
    assert Get<Meta>([], s) == None && Get<Meta>([], "/" + s) == None;
    assert Get(fm[1..], s) == Get(fm[1..][1..], s);
    assert IsDict(fm[1..]);
  }
}
