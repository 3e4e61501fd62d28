/** A pass over only the changed entries does to paths and owners what a pass over all entries does. */
module MirrorIncremental {
  import opened Common
  import opened Dict
  import opened Filemeta
  import opened MirrorModel
  import opened MirrorPhases
  import opened MirrorPresence
  import opened MirrorConvergence
  import opened MirrorEntries
  import opened MirrorAgreement

  /** The same filemeta and server answers, once over all entries and once over the changed ones. */
  ghost predicate Twins(full: Turn, inc: Turn) {
    !full.incremental && inc.incremental && full.latest == inc.latest && full.fetch == inc.fetch
  }

  ghost predicate Setting(w: World, before: Filemeta, full: Turn, inc: Turn) {
    Twins(full, inc) && Agrees(w, before) && Ordinary(w, before, full) && Ordinary(w, before, inc)
  }

  lemma IncrementalOpIsFull(w: World, before: Filemeta, full: Turn, inc: Turn, i: nat) returns (j: nat)
    requires Twins(full, inc) && Canonical(inc.latest) && i < |OpsOf(w, before, inc)|
    ensures j < |OpsOf(w, before, full)| && OpsOf(w, before, full)[j] == OpsOf(w, before, inc)[i]
  {
    StemsFrom(w, before, inc.latest, true, i);
    j := PlannedAt(w, before, full.latest, false, Worklist(before, inc.latest, true)[i]);
  }

  /** An unchanged entry's file stands where it belongs, so it is neither created nor renamed. */
  lemma FullMoveIsIncremental(w: World, before: Filemeta, full: Turn, inc: Turn, i: nat) returns (j: nat)
    requires Twins(full, inc) && Agrees(w, before) && Canonical(full.latest) && i < |OpsOf(w, before, full)|
    requires OpsOf(w, before, full)[i].kind.Create? || OpsOf(w, before, full)[i].kind.Rename?
    ensures j < |OpsOf(w, before, inc)| && OpsOf(w, before, inc)[j] == OpsOf(w, before, full)[i]
  {
    var e := Worklist(before, full.latest, false)[i];
    StemsFrom(w, before, full.latest, false, i);
    WorklistIsGood(w, before, full.latest, false);
    assert PlannedOp(w, OpsOf(w, before, full)[i]);
    if Get(before, e.0) == Some(e.1) {
      var b := GetFound(before, e.0);
      FileIsTracked(w, before, b);
    }
    j := PlannedAt(w, before, inc.latest, true, e);
  }

  /** Both passes move and create the same files. */
  ghost predicate SameMoves(a: seq<Op>, b: seq<Op>) {
    && (forall i :: 0 <= i < |a| && (a[i].kind.Create? || a[i].kind.Rename?) ==> a[i] in b)
    && (forall i :: 0 <= i < |b| && (b[i].kind.Create? || b[i].kind.Rename?) ==> b[i] in a)
  }

  lemma MovesAgree(w: World, before: Filemeta, full: Turn, inc: Turn)
    requires Twins(full, inc) && Agrees(w, before) && Canonical(full.latest)
    ensures SameMoves(OpsOf(w, before, full), OpsOf(w, before, inc))
  {
    var (a, b) := (OpsOf(w, before, full), OpsOf(w, before, inc));
    forall i | 0 <= i < |a| && (a[i].kind.Create? || a[i].kind.Rename?)
      ensures a[i] in b
    {
      var j := FullMoveIsIncremental(w, before, full, inc, i);
    }
    forall i | 0 <= i < |b|
      ensures b[i] in a
    {
      var j := IncrementalOpIsFull(w, before, full, inc, i);
    }
  }

  lemma MovesDecide(a: seq<Op>, b: seq<Op>, p: string)
    requires SameMoves(a, b)
    ensures Spares(a, p) <==> Spares(b, p)
    ensures IsSource(a, p) <==> IsSource(b, p)
    ensures (exists i :: 0 <= i < |a| && (a[i].kind.Create? || a[i].kind.Rename?) && Rel(a[i]) == p)
       <==> (exists i :: 0 <= i < |b| && (b[i].kind.Create? || b[i].kind.Rename?) && Rel(b[i]) == p)
  {
    MovesImply(a, b, p);
    MovesImply(b, a, p);
  }

  lemma MovesImply(a: seq<Op>, b: seq<Op>, p: string)
    requires forall i :: 0 <= i < |a| && (a[i].kind.Create? || a[i].kind.Rename?) ==> a[i] in b
    ensures Spares(b, p) ==> Spares(a, p)
    ensures IsSource(a, p) ==> IsSource(b, p)
    ensures (exists i :: 0 <= i < |a| && (a[i].kind.Create? || a[i].kind.Rename?) && Rel(a[i]) == p)
       ==> (exists i :: 0 <= i < |b| && (b[i].kind.Create? || b[i].kind.Rename?) && Rel(b[i]) == p)
  {
    if i :| 0 <= i < |a| && (a[i].kind.Create? || a[i].kind.Rename?) && Rel(a[i]) == p {
      var j :| 0 <= j < |b| && b[j] == a[i];
    }
    if i :| 0 <= i < |a| && a[i].kind.Rename? && a[i].fromPath == p {
      var j :| 0 <= j < |b| && b[j] == a[i];
    }
    if Spares(b, p) {
      forall i | 0 <= i < |a| && a[i].kind.Rename?
        ensures Source(a[i]) != Some(p)
      {
        var j :| 0 <= j < |b| && b[j] == a[i];
      }
    }
  }

  lemma MidwaysAgree(w: World, before: Filemeta, full: Turn, inc: Turn, p: string)
    requires Setting(w, before, full, inc)
    ensures p in Midway(w, OpsOf(w, before, full), EnvOf(full)).w.tree <==>
            p in Midway(w, OpsOf(w, before, inc), EnvOf(inc)).w.tree
    ensures p in full.dels <==> p in inc.dels
  {
    OrdinaryIsSmooth(w, before, full);
    OrdinaryIsSmooth(w, before, inc);
    MovesAgree(w, before, full, inc);
    MovesDecide(OpsOf(w, before, full), OpsOf(w, before, inc), p);
    MidMembership(w, OpsOf(w, before, full), EnvOf(full), p);
    MidMembership(w, OpsOf(w, before, inc), EnvOf(inc), p);
  }

  /** An update of the full pass that the incremental one leaves out concerns a file it keeps as it is. */
  lemma ExtraUpdateIsKept(w: World, before: Filemeta, full: Turn, inc: Turn, i: nat)
    requires Setting(w, before, full, inc) && i < |OpsOf(w, before, full)|
    requires OpsOf(w, before, full)[i] !in OpsOf(w, before, inc)
    ensures var op := OpsOf(w, before, full)[i];
            && Rel(op) in Midway(w, OpsOf(w, before, inc), EnvOf(inc)).w.tree && Rel(op) !in inc.dels
            && Get(w.state, op.path) == Some(Some(op.id)) && op.path !in inc.dels
            && !IsSource(OpsOf(w, before, inc), op.path) && !WritesAt(OpsOf(w, before, inc), op.path)
  {
    var e := Worklist(before, full.latest, false)[i];
    StemsFrom(w, before, full.latest, false, i);
    ExtraIsUnplanned(w, before, full, inc, i);
    UnplannedIsKept(w, before, inc, e);
    KeptEntry(w, before, inc, e);
  }

  /** What only the full pass plans, the incremental one does not plan for. */
  lemma ExtraIsUnplanned(w: World, before: Filemeta, full: Turn, inc: Turn, i: nat)
    requires Twins(full, inc) && Canonical(inc.latest) && i < |OpsOf(w, before, full)|
    requires OpsOf(w, before, full)[i] !in OpsOf(w, before, inc)
    ensures !IsPlanned(before, inc.latest, true, Worklist(before, full.latest, false)[i])
  {
    var e := Worklist(before, full.latest, false)[i];
    StemsFrom(w, before, full.latest, false, i);
    if IsPlanned(before, inc.latest, true, e) {
      var j := PlannedAt(w, before, inc.latest, true, e);
    }
  }

  /** The file of an entry that is not planned for stands midway, and is not listed. */
  lemma UnplannedIsKept(w: World, before: Filemeta, t: Turn, e: (string, Meta))
    requires Agrees(w, before) && Ordinary(w, before, t)
    requires e in t.latest && IsFile(e.1) && !IsPlanned(before, t.latest, t.incremental, e)
    ensures Relative(e.0).Some? && Relative(e.0).value in Midway(w, OpsOf(w, before, t), EnvOf(t)).w.tree
    ensures e.0 !in t.dels && Relative(e.0).value !in t.dels
  {
    KeptEntry(w, before, t, e);
    OrdinaryIsSmooth(w, before, t);
    SparedStands(w, OpsOf(w, before, t), EnvOf(t), Relative(e.0).value);
    var k :| 0 <= k < |t.latest| && t.latest[k] == e;
    assert IsFilePath(t.latest, Relative(e.0).value);
    FileIsInFilemeta(t.latest, Relative(e.0).value);
    HasAt(t.latest, k);
    KeyIsNotDeleted(w, before, t, e.0);
  }

  /** Both passes end with the same files. */
  lemma SamePaths(w: World, before: Filemeta, full: Turn, inc: Turn, p: string)
    requires Setting(w, before, full, inc)
    ensures p in PassOf(w, before, full).w.tree <==> p in PassOf(w, before, inc).w.tree
  {
    var (a, b) := (OpsOf(w, before, full), OpsOf(w, before, inc));
    OrdinaryIsSmooth(w, before, full);
    OrdinaryIsSmooth(w, before, inc);
    MidwaysAgree(w, before, full, inc, p);
    FinalMembership(w, before, full.latest, false, full.dels, full.fetch, p);
    FinalMembership(w, before, inc.latest, true, inc.dels, inc.fetch, p);
    if i :| 0 <= i < |a| && a[i].kind.Update? && Rel(a[i]) == p {
      if a[i] !in b {
        ExtraUpdateIsKept(w, before, full, inc, i);
      }
    }
    if i :| 0 <= i < |b| && b[i].kind.Update? && Rel(b[i]) == p {
      var j := IncrementalOpIsFull(w, before, full, inc, i);
    }
  }

  lemma WritesAgree(w: World, before: Filemeta, full: Turn, inc: Turn, k: string)
    requires Twins(full, inc) && Canonical(inc.latest) && WritesAt(OpsOf(w, before, inc), k)
    ensures WritesAt(OpsOf(w, before, full), k)
  {
    var b := OpsOf(w, before, inc);
    var i :| 0 <= i < |b| && Writes(b[i]) && b[i].path == k;
    var j := IncrementalOpIsFull(w, before, full, inc, i);
  }

  lemma WrittenOwner(w: World, before: Filemeta, t: Turn, k: string)
    requires Agrees(w, before) && Ordinary(w, before, t) && WritesAt(OpsOf(w, before, t), k)
    ensures Get(PassOf(w, before, t).w.state, k) == OwnerIn(t.latest, k)
  {
    OrdinaryIsSmooth(w, before, t);
    EntryFinal(w, OpsOf(w, before, t), EnvOf(t), t.dels, k);
    WritesAtIsFile(w, before, t, k);
  }

  lemma UnwrittenOwner(w: World, before: Filemeta, t: Turn, k: string)
    requires Agrees(w, before) && Ordinary(w, before, t) && !WritesAt(OpsOf(w, before, t), k)
    ensures Get(PassOf(w, before, t).w.state, k) ==
            if k in t.dels || IsSource(OpsOf(w, before, t), k) then None else Get(w.state, k)
  {
    OrdinaryIsSmooth(w, before, t);
    EntryFinal(w, OpsOf(w, before, t), EnvOf(t), t.dels, k);
  }

  lemma ExtraOwner(w: World, before: Filemeta, full: Turn, inc: Turn, k: string)
    requires Setting(w, before, full, inc) && WritesAt(OpsOf(w, before, full), k) && !WritesAt(OpsOf(w, before, inc), k)
    ensures Get(w.state, k) == OwnerIn(full.latest, k) && k !in inc.dels && !IsSource(OpsOf(w, before, inc), k)
  {
    var a := OpsOf(w, before, full);
    var i :| 0 <= i < |a| && Writes(a[i]) && a[i].path == k;
    ExtraUpdateIsKept(w, before, full, inc, i);
    OpOwner(w, before, full, i);
  }

  /** Both passes end with the same document tracked at every path. */
  lemma SameOwners(w: World, before: Filemeta, full: Turn, inc: Turn, k: string)
    requires Setting(w, before, full, inc)
    ensures Get(PassOf(w, before, full).w.state, k) == Get(PassOf(w, before, inc).w.state, k)
  {
    var (a, b) := (OpsOf(w, before, full), OpsOf(w, before, inc));
    if WritesAt(b, k) {
      WritesAgree(w, before, full, inc, k);
      WrittenOwner(w, before, full, k);
      WrittenOwner(w, before, inc, k);
    } else if WritesAt(a, k) {
      ExtraOwner(w, before, full, inc, k);
      WrittenOwner(w, before, full, k);
      UnwrittenOwner(w, before, inc, k);
    } else {
      MovesAgree(w, before, full, inc);
      MovesDecide(a, b, k);
      MidwaysAgree(w, before, full, inc, k);
      UnwrittenOwner(w, before, full, k);
      UnwrittenOwner(w, before, inc, k);
    }
  }

  /**
   * Incremental refines full: from a tree and state that agree with the old
   * filemeta, both end with the same files, tracked for the same documents.
   */
  lemma IncrementalRefinesFull(w: World, before: Filemeta, full: Turn, inc: Turn)
    requires Setting(w, before, full, inc)
    ensures PassOf(w, before, full).w.tree.Keys == PassOf(w, before, inc).w.tree.Keys
    ensures forall k :: Get(PassOf(w, before, full).w.state, k) == Get(PassOf(w, before, inc).w.state, k)
  {
    forall p
      ensures p in PassOf(w, before, full).w.tree <==> p in PassOf(w, before, inc).w.tree
    {
      SamePaths(w, before, full, inc, p);
    }
    forall k
      ensures Get(PassOf(w, before, full).w.state, k) == Get(PassOf(w, before, inc).w.state, k)
    {
      SameOwners(w, before, full, inc, k);
    }
  }
}
