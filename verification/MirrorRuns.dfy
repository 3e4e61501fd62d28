/** Many passes: agreement over every run, the bytes each file ends with, and what repeating a pass does. */
module MirrorRuns {
  import opened Common
  import opened Dict
  import opened Filemeta
  import opened MirrorModel
  import opened MirrorFrames
  import opened MirrorPhases
  import opened MirrorPresence
  import opened MirrorFinish
  import opened MirrorTruncation
  import opened MirrorConvergence
  import opened MirrorEntries
  import opened MirrorAgreement
  import Paths
  import Text

  /** The pass before each turn is ordinary, its hash-equal files are tracked and its dropped paths plain. */
  ghost predicate Keeps(w: World, before: Filemeta, t: Turn) {
    && Ordinary(w, before, t)
    && NoopsTracked(w, OpsOf(w, before, t)) && DropsPlain(w, OpsOf(w, before, t), t.latest)
  }

  /** Worlds and stored filemetas along a sequence of passes. */
  ghost predicate IsRun(ws: seq<World>, fms: seq<Filemeta>, turns: seq<Turn>) {
    && |ws| == |fms| == |turns| + 1
    && forall i :: 0 <= i < |turns| ==>
         Keeps(ws[i], fms[i], turns[i]) && ws[i + 1] == PassOf(ws[i], fms[i], turns[i]).w
             && fms[i + 1] == turns[i].latest
  }

  /** After every pass of a run the tree mirrors the stored filemeta and the state tracks exactly its files. */
  lemma {:induction false} RunAgrees(ws: seq<World>, fms: seq<Filemeta>, turns: seq<Turn>, n: nat)
    requires IsRun(ws, fms, turns) && Agrees(ws[0], fms[0]) && n <= |turns|
    ensures Agrees(ws[n], fms[n])
  {
    if n > 0 {
      RunAgrees(ws, fms, turns, n - 1);
      AgreementIff(ws[n - 1], fms[n - 1], turns[n - 1]);
      assert ws[n - 1 + 1] == PassOf(ws[n - 1], fms[n - 1], turns[n - 1]).w;
    }
  }

  ghost predicate Plain(fm: Filemeta) { forall i :: 0 <= i < |fm| ==> Relative(fm[i].0) == Some(fm[i].0) }

  /** No entry stays without staying a file. */
  ghost predicate KeepsKinds(before: Filemeta, latest: Filemeta) {
    forall i :: 0 <= i < |latest| && !IsFile(latest[i].1) ==> OwnerIn(before, latest[i].0).None?
  }

  /** No git file is dropped. */
  ghost predicate KeepsGit(before: Filemeta, latest: Filemeta) {
    forall k :: OwnerIn(before, k).Some? && Skipped(k) ==> OwnerIn(latest, k).Some?
  }

  /** Keys without a leading slash drop plainly. */
  lemma PlainDropsPlain(w: World, before: Filemeta, t: Turn)
    requires Agrees(w, before) && Plain(t.latest) && Plain(before)
    requires KeepsKinds(before, t.latest) && KeepsGit(before, t.latest)
    ensures DropsPlain(w, OpsOf(w, before, t), t.latest)
  {
    forall k | Get(w.state, k).Some? && OwnerIn(t.latest, k).None?
      ensures Relative(k) == Some(k) && !InFilemeta(t.latest, k) && !Skipped(k)
    {
      var _ := TrackedIsFile(w, before, k);
      DroppedIsPlain(before, t.latest, k);
    }
  }

  lemma DroppedIsPlain(before: Filemeta, latest: Filemeta, k: string)
    requires Plain(before) && Plain(latest) && KeepsKinds(before, latest) && KeepsGit(before, latest)
    requires OwnerIn(before, k).Some? && OwnerIn(latest, k).None?
    ensures Relative(k) == Some(k) && !InFilemeta(latest, k) && !Skipped(k)
  {
    var _ := GetFound(before, k);
    PlainKey(latest, k);
    if Has(latest, k) {
      var j := GetFound(latest, k);
    }
  }

  /** No plain key is a slash in front of another. */
  lemma PlainKey(fm: Filemeta, k: string)
    requires Plain(fm) && Relative(k) == Some(k)
    ensures !Has(fm, "/" + k)
  {
    if Has(fm, "/" + k) {
      RelativeSpelled(k);
      var i := GetFound(fm, "/" + k);
    }
  }

  /** No file entry carries a hash. */
  ghost predicate Hashless(fm: Filemeta) { forall i :: 0 <= i < |fm| && IsFile(fm[i].1) ==> fm[i].1.hash.None? }

  lemma HashlessHasNoNoops(w: World, before: Filemeta, t: Turn)
    requires Canonical(t.latest) && Hashless(t.latest)
    ensures NoopsTracked(w, OpsOf(w, before, t))
  {
    forall i | 0 <= i < |OpsOf(w, before, t)|
      ensures !OpsOf(w, before, t)[i].kind.Noop?
    {
      StemsFrom(w, before, t.latest, t.incremental, i);
      var e := Worklist(before, t.latest, t.incremental)[i];
      var j :| 0 <= j < |t.latest| && t.latest[j] == e;
    }
  }

  /** What is asked of one publication after another: about filemetas and fetches alone. */
  ghost predicate PlainTurn(before: Filemeta, t: Turn) {
    && Canonical(t.latest) && DistinctIds(t.latest) && Plain(t.latest) && Hashless(t.latest)
    && KeepsKinds(before, t.latest) && KeepsGit(before, t.latest) && FileCount(t.latest) > 0 && AllArrive(t.fetch)
  }

  /** The deletions are those the walk finds, and no gate closes. */
  ghost predicate Ungated(w: World, before: Filemeta, t: Turn) {
    && Lists(t.dels, ToDelete(PassMid(w, before, t.latest, t.incremental, t.fetch).w.tree, t.latest))
    && !Gated(t.latest, t.dels, t.allow)
    && forall i :: 0 <= i < |OpsOf(w, before, t)| ==> !IsGated(w, OpsOf(w, before, t), EnvOf(t), i)
  }

  ghost predicate IsPlainRun(ws: seq<World>, fms: seq<Filemeta>, turns: seq<Turn>) {
    && |ws| == |fms| == |turns| + 1 && Plain(fms[0])
    && forall i :: 0 <= i < |turns| ==>
         && PlainTurn(fms[i], turns[i]) && Ungated(ws[i], fms[i], turns[i])
         && ws[i + 1] == PassOf(ws[i], fms[i], turns[i]).w && fms[i + 1] == turns[i].latest
  }

  lemma PlainTurnAgrees(w: World, before: Filemeta, t: Turn)
    requires Agrees(w, before) && Plain(before) && PlainTurn(before, t) && Ungated(w, before, t)
    ensures Agrees(PassOf(w, before, t).w, t.latest)
  {
    HashlessHasNoNoops(w, before, t);
    PlainDropsPlain(w, before, t);
    assert Ordinary(w, before, t);
    AgreementIff(w, before, t);
  }

  /**
   * Any sequence of publications whose keys have no leading slash, whose ids are
   * distinct and whose entries carry no hash keeps tree, state and stored
   * filemeta in agreement, as long as fetches are answered and no gate closes.
   */
  lemma {:induction false} PlainRunAgrees(ws: seq<World>, fms: seq<Filemeta>, turns: seq<Turn>, n: nat)
    requires IsPlainRun(ws, fms, turns) && Agrees(ws[0], fms[0]) && n <= |turns|
    ensures Agrees(ws[n], fms[n]) && Plain(fms[n])
  {
    if n > 0 {
      PlainRunAgrees(ws, fms, turns, n - 1);
      assert ws[n - 1 + 1] == PassOf(ws[n - 1], fms[n - 1], turns[n - 1]).w;
      PlainTurnAgrees(ws[n - 1], fms[n - 1], turns[n - 1]);
    }
  }

  // ----- contents -----

  /** The server answers every fetch with the document's current body. */
  ghost predicate Serves(fetch: Fetch, remote: string -> Body) {
    forall round, path, id :: fetch(round, path, id) == Some(remote(id))
  }

  /** The bytes a file of the filemeta should end with, read off the world before the pass. */
  function Expected(w: World, before: Filemeta, t: Turn, remote: string -> Body, e: (string, Meta)): Content {
    var rel := Relative(e.0).GetOr("");
    var id := if HasId(e.1) then e.1.id.value else "";
    var from := FindByDocId(w.state, id);
    var source := if from.Some? then Relative(from.value).GetOr("") else "";
    if rel in w.tree && (e.1.Meta? && e.1.hash == Some(w.tree[rel])) then Bytes(w.tree[rel])
    else if rel in w.tree && t.incremental && Get(before, e.0) == Some(e.1) then Bytes(w.tree[rel])
    else if rel in w.tree then Bytes(remote(id))
    else if from.Some? && source in w.tree then Bytes(w.tree[source])
    else Bytes(remote(id))
  }

  lemma ExpectedByPlan(w: World, before: Filemeta, t: Turn, remote: string -> Body, e: (string, Meta), op: Op)
    requires IsPlanned(before, t.latest, t.incremental, e) && op == PlanOp(w, e.0, e.1) && PlannedOp(w, op)
             && Writes(op)
    requires op.kind.Rename? ==> SourceIn(w, op)
    requires op.kind.Create? ==> FindByDocId(w.state, op.id).None?
    ensures op.kind.Rename? ==> Expected(w, before, t, remote, e) == Bytes(w.tree[Source(op).value])
    ensures !op.kind.Rename? ==> Expected(w, before, t, remote, e) == Bytes(remote(op.id))
  {
  }

  lemma CreatedIsUntracked(w: World, before: Filemeta, op: Op)
    requires Agrees(w, before) && PlannedOp(w, op) && op.kind.Create?
    requires var found := FindByDocId(w.state, op.id); found.Some? ==> found.value == "" || found.value == op.path
    ensures FindByDocId(w.state, op.id).None?
  {
    if FindByDocId(w.state, op.id).Some? {
      FindFound(w.state, op.id);
      var k := TrackedIsFile(w, before, FindByDocId(w.state, op.id).value);
      EmptyIsNoKey();
    }
  }

  lemma ExpectedOfOp(w: World, before: Filemeta, t: Turn, remote: string -> Body, i: nat)
    requires Agrees(w, before) && Ordinary(w, before, t) && Serves(t.fetch, remote) && i < |OpsOf(w, before, t)|
    requires Writes(OpsOf(w, before, t)[i])
    ensures See(PassOf(w, before, t).w, File(Rel(OpsOf(w, before, t)[i])))
         == Expected(w, before, t, remote, Worklist(before, t.latest, t.incremental)[i])
  {
    var (ops, e) := (OpsOf(w, before, t), Worklist(before, t.latest, t.incremental)[i]);
    OrdinaryIsSmooth(w, before, t);
    StemsFrom(w, before, t.latest, t.incremental, i);
    WrittenBytes(w, ops, EnvOf(t), t.dels, i);
    assert PlannedOp(w, ops[i]);
    if ops[i].kind.Create? {
      CreatedIsUntracked(w, before, ops[i]);
    }
    WorklistIsGood(w, before, t.latest, t.incremental);
    ExpectedByPlan(w, before, t, remote, e, ops[i]);
  }

  lemma EmptyIsNoKey()
    ensures Relative("").None?
  {
    assert Text.Split("", '/') == [""];
    assert Paths.Kept([""][1..]) == [];
  }

  lemma HeldFileEnds(w: World, before: Filemeta, t: Turn, q: string)
    requires Agrees(w, before) && Ordinary(w, before, t) && q in w.tree && Spares(OpsOf(w, before, t), q)
    requires IsFilePath(t.latest, q)
    requires forall i :: 0 <= i < |OpsOf(w, before, t)| && OpsOf(w, before, t)[i].kind.Update? ==>
             Rel(OpsOf(w, before, t)[i]) != q
    ensures See(PassOf(w, before, t).w, File(q)) == Bytes(w.tree[q])
  {
    OrdinaryIsSmooth(w, before, t);
    FileIsInFilemeta(t.latest, q);
    HeldBytes(w, OpsOf(w, before, t), EnvOf(t), t.dels, q);
  }

  lemma PlannedBytes(w: World, before: Filemeta, t: Turn, remote: string -> Body, e: (string, Meta))
    requires Agrees(w, before) && Ordinary(w, before, t) && NoopsTracked(w, OpsOf(w, before, t))
             && Serves(t.fetch, remote)
    requires IsPlanned(before, t.latest, t.incremental, e)
    ensures See(PassOf(w, before, t).w, File(Relative(e.0).GetOr(""))) == Expected(w, before, t, remote, e)
  {
    var ops := OpsOf(w, before, t);
    var i := PlannedAt(w, before, t.latest, t.incremental, e);
    WorklistIsGood(w, before, t.latest, t.incremental);
    StemsFrom(w, before, t.latest, t.incremental, i);
    assert PlannedOp(w, ops[i]);
    if Writes(ops[i]) {
      ExpectedOfOp(w, before, t, remote, i);
    } else {
      NoopBytes(w, before, t, i);
      ExpectedOfNoop(w, before, t, remote, e, ops[i]);
    }
  }

  lemma ExpectedOfNoop(w: World, before: Filemeta, t: Turn, remote: string -> Body, e: (string, Meta), op: Op)
    requires op == PlanOp(w, e.0, e.1) && PlannedOp(w, op) && op.kind.Noop?
    ensures Expected(w, before, t, remote, e) == See(w, File(Rel(op)))
  {
  }

  lemma NoopBytes(w: World, before: Filemeta, t: Turn, i: nat)
    requires Agrees(w, before) && Ordinary(w, before, t) && NoopsTracked(w, OpsOf(w, before, t))
    requires i < |OpsOf(w, before, t)| && OpsOf(w, before, t)[i].kind.Noop?
    ensures var op := OpsOf(w, before, t)[i];
            op.hash.Some? && See(w, File(Rel(op))) == Bytes(op.hash.value) == See(PassOf(w, before, t).w, File(Rel(op)))
  {
    var ops := OpsOf(w, before, t);
    WorklistIsGood(w, before, t.latest, t.incremental);
    StemsFrom(w, before, t.latest, t.incremental, i);
    assert PlannedOp(w, ops[i]);
    NoopSpared(w, before, t, i);
    SoleTarget(w, ops, i);
    HeldFileEnds(w, before, t, Rel(ops[i]));
  }

  lemma KeptBytes(w: World, before: Filemeta, t: Turn, remote: string -> Body, j: nat)
    requires Agrees(w, before) && Ordinary(w, before, t) && j < |t.latest| && IsFile(t.latest[j].1)
    requires !IsPlanned(before, t.latest, t.incremental, t.latest[j])
    ensures See(PassOf(w, before, t).w, File(Relative(t.latest[j].0).GetOr("")))
            == Expected(w, before, t, remote, t.latest[j])
  {
    var e := t.latest[j];
    KeptEntry(w, before, t, e);
    var rel := Relative(e.0).value;
    assert rel in Kept(before, t.latest, t.incremental);
    KeptIsApart(w, before, t.latest, t.incremental, rel);
    HeldFileEnds(w, before, t, rel);
  }

  /**
   * Every file of the filemeta ends with the bytes of its own document: the
   * served body, or what it already had where the hash matched, the entry did not
   * change, or the document only moved (swaps and chains of renames included).
   */
  lemma BodiesConverge(w: World, before: Filemeta, t: Turn, remote: string -> Body, j: nat)
    requires Agrees(w, before) && Ordinary(w, before, t) && NoopsTracked(w, OpsOf(w, before, t))
             && Serves(t.fetch, remote)
    requires j < |t.latest| && IsFile(t.latest[j].1)
    ensures See(PassOf(w, before, t).w, File(Relative(t.latest[j].0).GetOr("")))
            == Expected(w, before, t, remote, t.latest[j])
  {
    if IsPlanned(before, t.latest, t.incremental, t.latest[j]) {
      PlannedBytes(w, before, t, remote, t.latest[j]);
    } else {
      KeptBytes(w, before, t, remote, j);
    }
  }

  // ----- repeating a pass -----

  /** On unchanged remote data only updates and no-ops are planned. */
  lemma RepeatPlansNoMoves(w: World, fm: Filemeta, t: Turn, i: nat)
    requires Agrees(w, fm) && t.latest == fm && i < |OpsOf(w, fm, t)|
    ensures OpsOf(w, fm, t)[i].kind.Update? || OpsOf(w, fm, t)[i].kind.Noop?
    ensures Get(w.state, OpsOf(w, fm, t)[i].path) == Some(Some(OpsOf(w, fm, t)[i].id))
    ensures !t.incremental
  {
    WorklistIsGood(w, fm, fm, t.incremental);
    StemsFrom(w, fm, fm, t.incremental, i);
    assert PlannedOp(w, OpsOf(w, fm, t)[i]);
    var j :| 0 <= j < |fm| && fm[j] == Worklist(fm, fm, t.incremental)[i];
    FileIsTracked(w, fm, j);
    GetAt(fm, j);
  }

  lemma RepeatStandsStill(w: World, fm: Filemeta, t: Turn, place: Place)
    requires Agrees(w, fm) && t.latest == fm
    ensures See(Midway(w, OpsOf(w, fm, t), EnvOf(t)).w, place) == See(w, place)
  {
    var ops := OpsOf(w, fm, t);
    WorklistIsGood(w, fm, fm, t.incremental);
    forall i | 0 <= i < |ops|
      ensures ops[i].kind.Update? || ops[i].kind.Noop?
    {
      RepeatPlansNoMoves(w, fm, t, i);
    }
    assert ops[..|ops|] == ops;
    CreatedElse(w, ops, EnvOf(t), place);
    RenamedElse(w, ops, EnvOf(t), |ops|, place);
  }

  /** Nothing is deleted either: whatever the fetches answer, a repeated pass plans no create, rename or delete. */
  lemma RepeatDeletesNothing(w: World, fm: Filemeta, t: Turn)
    requires Agrees(w, fm) && t.latest == fm && Ready(w, fm, fm, t.incremental, t.dels, t.fetch)
    ensures t.dels == []
  {
    if t.dels != [] {
      var d := t.dels[0];
      assert d in t.dels;
      RepeatStandsStill(w, fm, t, File(d));
      FileIsInFilemeta(fm, d);
    }
  }

  /** An incremental pass on unchanged remote data does nothing at all. */
  lemma IncrementalRepeatIsIdle(w: World, fm: Filemeta, t: Turn)
    requires Agrees(w, fm) && t.latest == fm && t.incremental && Ready(w, fm, fm, true, t.dels, t.fetch)
    ensures PassOf(w, fm, t).w == w && PassOf(w, fm, t).ops == []
  {
    RepeatDeletesNothing(w, fm, t);
    var ops := OpsOf(w, fm, t);
    if ops != [] {
      RepeatPlansNoMoves(w, fm, t, 0);
    }
    assert Midway(w, [], EnvOf(t)).ops + DeleteOps([]) == [];
  }

  /**
   * A repeated pass keeps the agreement, and leaves the tree as it was iff every
   * updated file already held the served body.
   */
  lemma RepeatIsFixpoint(w: World, fm: Filemeta, t: Turn, remote: string -> Body)
    requires Agrees(w, fm) && t.latest == fm && Ordinary(w, fm, t) && Serves(t.fetch, remote)
    ensures Agrees(PassOf(w, fm, t).w, fm)
    ensures PassOf(w, fm, t).w.tree == w.tree <==>
            forall i :: 0 <= i < |OpsOf(w, fm, t)| && OpsOf(w, fm, t)[i].kind.Update? ==>
              See(w, File(Rel(OpsOf(w, fm, t)[i]))) == Bytes(remote(OpsOf(w, fm, t)[i].id))
  {
    var ops := OpsOf(w, fm, t);
    var end := PassOf(w, fm, t).w;
    forall i | 0 <= i < |ops| && ops[i].kind.Noop?
      ensures Get(w.state, ops[i].path) == Some(Some(ops[i].id))
    {
      RepeatPlansNoMoves(w, fm, t, i);
    }
    AgreementIff(w, fm, t);
    forall i | 0 <= i < |ops| && ops[i].kind.Update?
      ensures Rel(ops[i]) in w.tree && See(end, File(Rel(ops[i]))) == Bytes(remote(ops[i].id))
    {
      RepeatedUpdate(w, fm, t, remote, i);
    }
    forall p
      ensures See(end, File(p)) == See(w, File(p))
              || exists i :: 0 <= i < |ops| && ops[i].kind.Update? && Rel(ops[i]) == p
    {
      RepeatedElse(w, fm, t, p);
    }
    if forall i :: 0 <= i < |ops| && ops[i].kind.Update? ==> See(w, File(Rel(ops[i]))) == Bytes(remote(ops[i].id)) {
      forall p
        ensures See(end, File(p)) == See(w, File(p))
      {
      }
      SameTree(end, w);
    }
  }

  lemma RepeatedUpdate(w: World, fm: Filemeta, t: Turn, remote: string -> Body, i: nat)
    requires Agrees(w, fm) && t.latest == fm && Ordinary(w, fm, t) && Serves(t.fetch, remote)
    requires i < |OpsOf(w, fm, t)| && OpsOf(w, fm, t)[i].kind.Update?
    ensures var op := OpsOf(w, fm, t)[i];
            Rel(op) in w.tree && See(PassOf(w, fm, t).w, File(Rel(op))) == Bytes(remote(op.id))
  {
    var ops := OpsOf(w, fm, t);
    OrdinaryIsSmooth(w, fm, t);
    StemsFrom(w, fm, fm, t.incremental, i);
    assert PlannedOp(w, ops[i]);
    WrittenBytes(w, ops, EnvOf(t), t.dels, i);
  }

  lemma RepeatedElse(w: World, fm: Filemeta, t: Turn, p: string)
    requires Agrees(w, fm) && t.latest == fm && Ordinary(w, fm, t)
    ensures See(PassOf(w, fm, t).w, File(p)) == See(w, File(p))
            || exists i :: 0 <= i < |OpsOf(w, fm, t)| && OpsOf(w, fm, t)[i].kind.Update? && Rel(OpsOf(w, fm, t)[i]) == p
  {
    var ops := OpsOf(w, fm, t);
    OrdinaryIsSmooth(w, fm, t);
    RepeatDeletesNothing(w, fm, t);
    if forall i :: 0 <= i < |ops| && ops[i].kind.Update? ==> Rel(ops[i]) != p {
      NoUpdateAt(w, ops, p);
      FinishElse(w, ops, EnvOf(t), t.dels, File(p));
      RepeatStandsStill(w, fm, t, File(p));
    }
  }

  lemma SameTree(v: World, w: World)
    requires forall p :: See(v, File(p)) == See(w, File(p))
    ensures v.tree == w.tree
  {
    assert forall p :: p in v.tree <==> See(v, File(p)) != Absent;
    assert forall p :: p in w.tree <==> See(w, File(p)) != Absent;
    forall p | p in v.tree
      ensures p in w.tree && v.tree[p] == w.tree[p]
    {
      assert See(v, File(p)) == See(w, File(p));
    }
  }
}
