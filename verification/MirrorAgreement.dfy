/** Tree, tracked state and filemeta in agreement: when a pass keeps it, over any number of passes. */
module MirrorAgreement {
  import opened Common
  import opened Dict
  import opened Filemeta
  import opened MirrorModel
  import opened MirrorFrames
  import opened MirrorPhases
  import opened MirrorPresence
  import opened MirrorFinish
  import opened MirrorTruncation
  import opened MirrorConvergence
  import opened MirrorEntries

  /** The document the filemeta puts at a path. */
  function OwnerIn(fm: Filemeta, k: string): Option<Option<string>> {
    var m := Get(fm, k);
    if m.Some? && IsFile(m.value) then Some(m.value.id) else None
  }

  ghost predicate DistinctIds(fm: Filemeta) {
    forall i, j {:trigger IsFile(fm[i].1), IsFile(fm[j].1)} ::
      0 <= i < j < |fm| && IsFile(fm[i].1) && IsFile(fm[j].1) ==> fm[i].1.id != fm[j].1.id
  }

  /** The tree mirrors the filemeta, and the state tracks exactly its files, each for its own document. */
  ghost predicate Agrees(w: World, fm: Filemeta) {
    && Sound(w) && Canonical(fm) && DistinctIds(fm) && Mirrors(w.tree, fm)
    && forall k :: Get(w.state, k) == OwnerIn(fm, k)
  }

  datatype Turn = Turn(latest: Filemeta, incremental: bool, dels: seq<string>, allow: bool, fetch: Fetch)

  function OpsOf(w: World, before: Filemeta, t: Turn): seq<Op> { Planned(w, before, t.latest, t.incremental) }

  function EnvOf(t: Turn): Env { Env(Threshold(t.latest), t.fetch) }

  function PassOf(w: World, before: Filemeta, t: Turn): PassResult {
    Pass(w, before, t.latest, t.incremental, t.dels, t.allow, t.fetch)
  }

  /** An applied pass: canonical filemeta with distinct ids, every fetch answered, nothing refused or gated. */
  ghost predicate Ordinary(w: World, before: Filemeta, t: Turn) {
    && Ready(w, before, t.latest, t.incremental, t.dels, t.fetch)
    && Canonical(t.latest) && DistinctIds(t.latest) && AllArrive(t.fetch)
    && !Refused(w, t.latest) && !Gated(t.latest, t.dels, t.allow)
    && forall i :: 0 <= i < |OpsOf(w, before, t)| ==> !IsGated(w, OpsOf(w, before, t), EnvOf(t), i)
  }

  lemma TrackedIsFile(w: World, fm: Filemeta, k: string) returns (i: nat)
    requires Agrees(w, fm) && Get(w.state, k).Some?
    ensures i < |fm| && fm[i].0 == k && IsFile(fm[i].1) && Get(w.state, k) == Some(fm[i].1.id)
    ensures Relative(k).Some? && Relative(k).value in w.tree && IsFilePath(fm, Relative(k).value)
  {
    assert Get(w.state, k) == OwnerIn(fm, k);
    i := GetFound(fm, k);
    assert CanonicalKey(fm[i].0);
    assert IsFilePath(fm, Relative(k).value);
  }

  lemma FileIsTracked(w: World, fm: Filemeta, i: nat)
    requires Agrees(w, fm) && i < |fm| && IsFile(fm[i].1)
    ensures Get(w.state, fm[i].0) == Some(fm[i].1.id)
    ensures Relative(fm[i].0).Some? && Relative(fm[i].0).value in w.tree
  {
    GetAt(fm, i);
    assert Get(w.state, fm[i].0) == OwnerIn(fm, fm[i].0);
    var _ := TrackedIsFile(w, fm, fm[i].0);
  }

  lemma OneEntryPerId(fm: Filemeta, i: nat, j: nat)
    requires DistinctIds(fm) && i < |fm| && j < |fm| && IsFile(fm[i].1) && IsFile(fm[j].1)
    ensures fm[i].1.id == fm[j].1.id ==> i == j
  {
    if i < j {
      assert fm[i].1.id != fm[j].1.id;
    } else if j < i {
      assert fm[j].1.id != fm[i].1.id;
    }
  }

  /** Two tracked spellings never name the same file. */
  lemma OneSpelling(w: World, fm: Filemeta, k: string, l: string)
    requires Agrees(w, fm) && Get(w.state, k).Some? && Get(w.state, l).Some? && Relative(k) == Relative(l)
    ensures k == l
  {
    var i := TrackedIsFile(w, fm, k);
    var j := TrackedIsFile(w, fm, l);
    SameFileSameEntry(fm, i, j);
  }

  lemma OpIdsDistinct(w: World, before: Filemeta, t: Turn, i: nat, j: nat)
    requires Canonical(t.latest) && DistinctIds(t.latest) && IsDict(w.state)
    requires i < |OpsOf(w, before, t)| && j < |OpsOf(w, before, t)| && i != j
    ensures OpsOf(w, before, t)[i].id != OpsOf(w, before, t)[j].id
  {
    var ops := OpsOf(w, before, t);
    WorklistIsGood(w, before, t.latest, t.incremental);
    StemsFrom(w, before, t.latest, t.incremental, i);
    StemsFrom(w, before, t.latest, t.incremental, j);
    OthersUntouched(w, ops, i, j);
    var (e, f) := (Worklist(before, t.latest, t.incremental)[i], Worklist(before, t.latest, t.incremental)[j]);
    var a :| 0 <= a < |t.latest| && t.latest[a] == e;
    var b :| 0 <= b < |t.latest| && t.latest[b] == f;
    OneEntryPerId(t.latest, a, b);
  }

  lemma SourceIsTracked(w: World, before: Filemeta, t: Turn, i: nat)
    requires Agrees(w, before) && Canonical(t.latest) && i < |OpsOf(w, before, t)|
             && OpsOf(w, before, t)[i].kind.Rename?
    ensures var op := OpsOf(w, before, t)[i];
            Get(w.state, op.fromPath) == Some(Some(op.id)) && SourceIn(w, op)
  {
    var op := OpsOf(w, before, t)[i];
    WorklistIsGood(w, before, t.latest, t.incremental);
    assert PlannedOp(w, op);
    FindFound(w.state, op.id);
    var _ := TrackedIsFile(w, before, op.fromPath);
  }

  lemma AgreesMovable(w: World, before: Filemeta, t: Turn)
    requires Agrees(w, before) && Canonical(t.latest) && DistinctIds(t.latest)
    ensures Movable(w, OpsOf(w, before, t))
  {
    var ops := OpsOf(w, before, t);
    forall i | 0 <= i < |ops| && ops[i].kind.Rename?
      ensures SourceIn(w, ops[i])
    {
      SourceIsTracked(w, before, t, i);
    }
    forall i, j | 0 <= i < j < |ops| && ops[i].kind.Rename? && ops[j].kind.Rename?
      ensures Source(ops[i]) != Source(ops[j])
    {
      SourceIsTracked(w, before, t, i);
      SourceIsTracked(w, before, t, j);
      OpIdsDistinct(w, before, t, i, j);
      if Source(ops[i]) == Source(ops[j]) {
        OneSpelling(w, before, ops[i].fromPath, ops[j].fromPath);
      }
    }
  }

  /** A file tracked for a document that is not being renamed is spared. */
  lemma OwnIsSpared(w: World, before: Filemeta, t: Turn, k: string, id: string)
    requires Agrees(w, before) && Canonical(t.latest) && Get(w.state, k) == Some(Some(id))
    requires forall i :: 0 <= i < |OpsOf(w, before, t)| && OpsOf(w, before, t)[i].kind.Rename? ==>
             OpsOf(w, before, t)[i].id != id
    ensures Relative(k).Some? && Spares(OpsOf(w, before, t), Relative(k).value) && !IsSource(OpsOf(w, before, t), k)
  {
    var ops := OpsOf(w, before, t);
    var _ := TrackedIsFile(w, before, k);
    forall i | 0 <= i < |ops| && ops[i].kind.Rename?
      ensures Source(ops[i]) != Relative(k) && ops[i].fromPath != k
    {
      SourceIsTracked(w, before, t, i);
      if Source(ops[i]) == Relative(k) {
        OneSpelling(w, before, k, ops[i].fromPath);
      }
    }
  }

  lemma OrdinaryIsSmooth(w: World, before: Filemeta, t: Turn)
    requires Agrees(w, before) && Ordinary(w, before, t)
    ensures Smooth(w, OpsOf(w, before, t), EnvOf(t), t.dels) && Arrives(OpsOf(w, before, t), EnvOf(t))
    ensures PassOf(w, before, t).accepted && PassOf(w, before, t).w == Final(w, OpsOf(w, before, t), EnvOf(t), t.dels).w
  {
    var ops := OpsOf(w, before, t);
    AgreesMovable(w, before, t);
    DeletionsAreApart(w, before, t.latest, t.incremental, t.dels, t.fetch);
    WorklistIsGood(w, before, t.latest, t.incremental);
    forall i | 0 <= i < |ops|
      ensures WriteBody(ops[i], 0, EnvOf(t)).Some? && WriteBody(ops[i], 1, EnvOf(t)).Some?
    {
      StemsFrom(w, before, t.latest, t.incremental, i);
    }
  }

  /** Every hash-equal file is already tracked for its own document. */
  ghost predicate NoopsTracked(w: World, ops: seq<Op>) {
    forall i :: 0 <= i < |ops| && ops[i].kind.Noop? ==> Get(w.state, ops[i].path) == Some(Some(ops[i].id))
  }

  /**
   * A tracked path that the filemeta drops, and no rename takes along, is spelled
   * like its file, no git file, and the filemeta has no other use for it.
   */
  ghost predicate DropsPlain(w: World, ops: seq<Op>, latest: Filemeta) {
    forall k :: Get(w.state, k).Some? && OwnerIn(latest, k).None? && !IsSource(ops, k) ==>
      Relative(k) == Some(k) && !InFilemeta(latest, k) && !Skipped(k)
  }

  // ----- what the pass makes of each entry -----

  /** An entry the pass does not plan for was tracked for its document and is spared. */
  lemma KeptEntry(w: World, before: Filemeta, t: Turn, e: (string, Meta))
    requires Agrees(w, before) && Canonical(t.latest) && DistinctIds(t.latest)
    requires e in t.latest && IsFile(e.1) && !IsPlanned(before, t.latest, t.incremental, e)
    ensures Get(w.state, e.0) == Some(e.1.id)
    ensures Relative(e.0).Some? && Relative(e.0).value in w.tree
    ensures Spares(OpsOf(w, before, t), Relative(e.0).value) && !IsSource(OpsOf(w, before, t), e.0)
    ensures forall i :: 0 <= i < |OpsOf(w, before, t)| ==> OpsOf(w, before, t)[i].path != e.0
  {
    var ops := OpsOf(w, before, t);
    var b := GetFound(before, e.0);
    FileIsTracked(w, before, b);
    var k :| 0 <= k < |t.latest| && t.latest[k] == e;
    forall i | 0 <= i < |ops|
      ensures ops[i].id != e.1.id.value && ops[i].path != e.0
    {
      StemsFrom(w, before, t.latest, t.incremental, i);
      var f := Worklist(before, t.latest, t.incremental)[i];
      var j :| 0 <= j < |t.latest| && t.latest[j] == f;
      assert j != k;
      if j < k {
        assert f.1.id != e.1.id;
        KeysDistinct(t.latest, j, k);
      } else {
        assert e.1.id != f.1.id;
        KeysDistinct(t.latest, k, j);
      }
    }
    OwnIsSpared(w, before, t, e.0, e.1.id.value);
  }

  lemma NoopSpared(w: World, before: Filemeta, t: Turn, i: nat)
    requires Agrees(w, before) && Canonical(t.latest) && DistinctIds(t.latest)
    requires i < |OpsOf(w, before, t)| && OpsOf(w, before, t)[i].kind.Noop?
    requires Get(w.state, OpsOf(w, before, t)[i].path) == Some(Some(OpsOf(w, before, t)[i].id))
    ensures Spares(OpsOf(w, before, t), Rel(OpsOf(w, before, t)[i]))
            && !IsSource(OpsOf(w, before, t), OpsOf(w, before, t)[i].path)
  {
    var ops := OpsOf(w, before, t);
    forall j | 0 <= j < |ops| && ops[j].kind.Rename?
      ensures ops[j].id != ops[i].id
    {
      OpIdsDistinct(w, before, t, i, j);
    }
    OwnIsSpared(w, before, t, ops[i].path, ops[i].id);
  }

  lemma HeldAreSpared(w: World, before: Filemeta, t: Turn)
    requires Agrees(w, before) && Ordinary(w, before, t) && NoopsTracked(w, OpsOf(w, before, t))
    ensures SparesHeld(w, OpsOf(w, before, t), Kept(before, t.latest, t.incremental))
  {
    var ops := OpsOf(w, before, t);
    forall i | 0 <= i < |ops| && ops[i].kind.Noop?
      ensures Spares(ops, Rel(ops[i]))
    {
      NoopSpared(w, before, t, i);
    }
    forall q | q in Kept(before, t.latest, t.incremental)
      ensures q in w.tree && Spares(ops, q)
    {
      var k :| 0 <= k < |t.latest| && IsFile(t.latest[k].1) && !IsPlanned(before, t.latest, t.incremental, t.latest[k])
               && Relative(t.latest[k].0).GetOr("") == q;
      KeptEntry(w, before, t, t.latest[k]);
    }
  }

  lemma OpOwner(w: World, before: Filemeta, t: Turn, i: nat)
    requires Canonical(t.latest) && i < |OpsOf(w, before, t)|
    ensures OwnerIn(t.latest, OpsOf(w, before, t)[i].path) == Some(Some(OpsOf(w, before, t)[i].id))
  {
    StemsFrom(w, before, t.latest, t.incremental, i);
    var j :| 0 <= j < |t.latest| && t.latest[j] == Worklist(before, t.latest, t.incremental)[i];
    GetAt(t.latest, j);
  }

  lemma WritesAtIsFile(w: World, before: Filemeta, t: Turn, k: string)
    requires Canonical(t.latest) && WritesAt(OpsOf(w, before, t), k)
    ensures OwnerIn(t.latest, k).Some?
    ensures forall i :: 0 <= i < |OpsOf(w, before, t)| && OpsOf(w, before, t)[i].path == k ==>
              OwnerIn(t.latest, k) == Some(Some(OpsOf(w, before, t)[i].id))
  {
    var ops := OpsOf(w, before, t);
    forall i | 0 <= i < |ops| && ops[i].path == k
      ensures OwnerIn(t.latest, k) == Some(Some(ops[i].id))
    {
      OpOwner(w, before, t, i);
    }
  }

  /** A file of the new filemeta is tracked for its document at the end, if hash-equal files were. */
  lemma FileEntryEnds(w: World, before: Filemeta, t: Turn, k: string)
    requires Agrees(w, before) && Ordinary(w, before, t) && NoopsTracked(w, OpsOf(w, before, t))
             && OwnerIn(t.latest, k).Some?
    ensures Get(PassOf(w, before, t).w.state, k) == OwnerIn(t.latest, k)
  {
    var ops := OpsOf(w, before, t);
    OrdinaryIsSmooth(w, before, t);
    EntryFinal(w, ops, EnvOf(t), t.dels, k);
    if WritesAt(ops, k) {
      WritesAtIsFile(w, before, t, k);
    } else {
      var j := GetFound(t.latest, k);
      if IsPlanned(before, t.latest, t.incremental, t.latest[j]) {
        HeldEntry(w, before, t, t.latest[j]);
      } else {
        KeptEntry(w, before, t, t.latest[j]);
        KeyIsNotDeleted(w, before, t, k);
      }
    }
  }

  /** A planned entry that is not written is held by its hash. */
  lemma HeldEntry(w: World, before: Filemeta, t: Turn, e: (string, Meta))
    requires Agrees(w, before) && Ordinary(w, before, t) && NoopsTracked(w, OpsOf(w, before, t))
    requires IsPlanned(before, t.latest, t.incremental, e) && !WritesAt(OpsOf(w, before, t), e.0)
    ensures Get(w.state, e.0) == Some(e.1.id) && e.0 !in t.dels && !IsSource(OpsOf(w, before, t), e.0)
  {
    var ops := OpsOf(w, before, t);
    var i := PlannedAt(w, before, t.latest, t.incremental, e);
    OrdinaryIsSmooth(w, before, t);
    StemsFrom(w, before, t.latest, t.incremental, i);
    assert PlannedOp(w, ops[i]);
    NoopSpared(w, before, t, i);
    TargetsAreNotDeleted(w, ops, EnvOf(t), t.dels, i);
  }

  lemma KeyIsNotDeleted(w: World, before: Filemeta, t: Turn, k: string)
    requires Ready(w, before, t.latest, t.incremental, t.dels, t.fetch) && Has(t.latest, k)
    ensures k !in t.dels
  {
  }

  /** Which paths the walk finds to delete. */
  lemma DeletedIff(w: World, before: Filemeta, t: Turn, k: string)
    requires Agrees(w, before) && Ordinary(w, before, t) && Get(w.state, k).Some? && OwnerIn(t.latest, k).None?
    requires !IsSource(OpsOf(w, before, t), k)
    ensures k in t.dels <==> Relative(k) == Some(k) && !InFilemeta(t.latest, k) && !Skipped(k)
  {
    var ops := OpsOf(w, before, t);
    var b := TrackedIsFile(w, before, k);
    OrdinaryIsSmooth(w, before, t);
    if k in t.dels {
      assert Relative(k) == Some(k);
    } else if Relative(k) == Some(k) && !InFilemeta(t.latest, k) && !Skipped(k) {
      DroppedStands(w, before, t, k);
      FileIsInFilemeta(before, k);
    }
  }

  /** A tracked file that no rename takes stands when deletions are computed. */
  lemma DroppedStands(w: World, before: Filemeta, t: Turn, k: string)
    requires Agrees(w, before) && Ordinary(w, before, t) && Get(w.state, k).Some? && Relative(k) == Some(k)
    requires !IsSource(OpsOf(w, before, t), k)
    ensures k in Midway(w, OpsOf(w, before, t), EnvOf(t)).w.tree
  {
    var ops := OpsOf(w, before, t);
    var b := TrackedIsFile(w, before, k);
    OrdinaryIsSmooth(w, before, t);
    forall i | 0 <= i < |ops| && ops[i].kind.Rename?
      ensures Source(ops[i]) != Some(k)
    {
      SourceIsTracked(w, before, t, i);
      if Source(ops[i]) == Some(k) {
        OneSpelling(w, before, k, ops[i].fromPath);
      }
    }
    SparedStands(w, ops, EnvOf(t), k);
  }

  lemma DroppedEntryEnds(w: World, before: Filemeta, t: Turn, k: string)
    requires Agrees(w, before) && Ordinary(w, before, t) && OwnerIn(t.latest, k).None?
    ensures Get(PassOf(w, before, t).w.state, k) ==
            if IsSource(OpsOf(w, before, t), k)
               || (Relative(k) == Some(k) && !InFilemeta(t.latest, k) && !Skipped(k)) then None
            else Get(w.state, k)
  {
    var ops := OpsOf(w, before, t);
    OrdinaryIsSmooth(w, before, t);
    EntryFinal(w, ops, EnvOf(t), t.dels, k);
    if WritesAt(ops, k) {
      WritesAtIsFile(w, before, t, k);
    } else if !IsSource(ops, k) && Get(w.state, k).Some? {
      DeletedIff(w, before, t, k);
    } else if !IsSource(ops, k) && k in t.dels {
      assert Relative(k) == Some(k);
    }
  }

  /** Tracking at the end is right exactly when hash-equal files were tracked and dropped paths are plain. */
  lemma TracksIff(w: World, before: Filemeta, t: Turn)
    requires Agrees(w, before) && Ordinary(w, before, t)
    ensures (forall k :: Get(PassOf(w, before, t).w.state, k) == OwnerIn(t.latest, k)) <==>
            NoopsTracked(w, OpsOf(w, before, t)) && DropsPlain(w, OpsOf(w, before, t), t.latest)
  {
    var ops := OpsOf(w, before, t);
    var end := PassOf(w, before, t).w;
    if NoopsTracked(w, ops) && DropsPlain(w, ops, t.latest) {
      forall k
        ensures Get(end.state, k) == OwnerIn(t.latest, k)
      {
        if OwnerIn(t.latest, k).Some? {
          FileEntryEnds(w, before, t, k);
        } else {
          DroppedEntryEnds(w, before, t, k);
        }
      }
    }
    if forall k :: Get(end.state, k) == OwnerIn(t.latest, k) {
      forall i | 0 <= i < |ops| && ops[i].kind.Noop?
        ensures Get(w.state, ops[i].path) == Some(Some(ops[i].id))
      {
        NoopEntryUnchanged(w, before, t, i);
      }
      forall k | Get(w.state, k).Some? && OwnerIn(t.latest, k).None? && !IsSource(ops, k)
        ensures Relative(k) == Some(k) && !InFilemeta(t.latest, k) && !Skipped(k)
      {
        DroppedEntryEnds(w, before, t, k);
      }
    }
  }

  lemma NoopIsNotWritten(w: World, ops: seq<Op>, i: nat)
    requires WellPlanned(w, ops) && i < |ops| && ops[i].kind.Noop?
    ensures !WritesAt(ops, ops[i].path)
  {
    forall k | 0 <= k < |ops| && Writes(ops[k])
      ensures ops[k].path != ops[i].path
    {
      OthersUntouched(w, ops, i, k);
    }
  }

  lemma NoopEntryUnchanged(w: World, before: Filemeta, t: Turn, i: nat)
    requires Agrees(w, before) && Ordinary(w, before, t) && i < |OpsOf(w, before, t)|
             && OpsOf(w, before, t)[i].kind.Noop?
    ensures var op := OpsOf(w, before, t)[i];
            && OwnerIn(t.latest, op.path) == Some(Some(op.id))
            && (Get(PassOf(w, before, t).w.state, op.path).None?
                || Get(PassOf(w, before, t).w.state, op.path) == Get(w.state, op.path))
  {
    var ops := OpsOf(w, before, t);
    OrdinaryIsSmooth(w, before, t);
    OpOwner(w, before, t, i);
    NoopIsNotWritten(w, ops, i);
    EntryFinal(w, ops, EnvOf(t), t.dels, ops[i].path);
  }

  /** A file whose path the filemeta uses for something else is tracked and dropped. */
  lemma ClashIsTracked(w: World, before: Filemeta, latest: Filemeta, p: string) returns (k: string)
    requires Agrees(w, before) && Clashes(latest, p) && p in w.tree
    ensures Get(w.state, k).Some? && Relative(k) == Some(p) && OwnerIn(latest, k).None?
  {
    var b :| 0 <= b < |before| && IsFile(before[b].1) && Relative(before[b].0) == Some(p);
    k := before[b].0;
    FileIsTracked(w, before, b);
    if OwnerIn(latest, k).Some? {
      var i := GetFound(latest, k);
    }
  }

  lemma PlainDropsMoveClashes(w: World, before: Filemeta, t: Turn)
    requires Agrees(w, before) && DropsPlain(w, OpsOf(w, before, t), t.latest)
    ensures ClashesMove(w, OpsOf(w, before, t), t.latest)
  {
    var ops := OpsOf(w, before, t);
    forall p | Clashes(t.latest, p) && p in w.tree
      ensures !Spares(ops, p)
    {
      var k := ClashIsTracked(w, before, t.latest, p);
      assert IsSource(ops, k);
    }
  }

  /**
   * An ordinary pass keeps tree, tracked state and filemeta in agreement if and
   * only if every hash-equal file was already tracked for its own document, and
   * every dropped path is tracked without a leading slash, is no git file, and has
   * no entry left.
   */
  lemma AgreementIff(w: World, before: Filemeta, t: Turn)
    requires Agrees(w, before) && Ordinary(w, before, t)
    ensures Agrees(PassOf(w, before, t).w, t.latest) <==>
            NoopsTracked(w, OpsOf(w, before, t)) && DropsPlain(w, OpsOf(w, before, t), t.latest)
  {
    var ops := OpsOf(w, before, t);
    OrdinaryIsSmooth(w, before, t);
    TracksIff(w, before, t);
    FinalSound(w, ops, EnvOf(t), t.dels);
    PathsConverge(w, before, t.latest, t.incremental, t.dels, t.allow, t.fetch);
    if NoopsTracked(w, ops) && DropsPlain(w, ops, t.latest) {
      HeldAreSpared(w, before, t);
      PlainDropsMoveClashes(w, before, t);
      AgreesMovable(w, before, t);
      CanonicalIsSpelled(w, ops, t.latest);
    }
  }
}
