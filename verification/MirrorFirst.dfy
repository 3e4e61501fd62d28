/** The first mirror of a folder, and the runs that start with it. */
module MirrorFirst {
  import opened MirrorModel
  import opened MirrorPhases
  import opened MirrorPresence
  import opened MirrorTruncation
  import opened MirrorConvergence
  import opened MirrorAgreement
  import opened MirrorRuns

  const NOTHING: World := World(map[], [])

  lemma NothingAgrees()
    ensures Agrees(NOTHING, [])
  {
  }

  /** In an empty folder every file is planned as a create, and none sets out to empty a file. */
  lemma FirstPlansCreates(t: Turn, i: nat)
    requires Canonical(t.latest) && i < |OpsOf(NOTHING, [], t)|
    ensures OpsOf(NOTHING, [], t)[i].kind.Create? && !IsGated(NOTHING, OpsOf(NOTHING, [], t), EnvOf(t), i)
  {
    StemsFrom(NOTHING, [], t.latest, t.incremental, i);
  }

  /** So nothing is left over that would have to be deleted. */
  lemma FirstDeletesNothing(t: Turn)
    requires Canonical(t.latest)
    ensures ToDelete(PassMid(NOTHING, [], t.latest, t.incremental, t.fetch).w.tree, t.latest) == {}
  {
    var ops, env := OpsOf(NOTHING, [], t), EnvOf(t);
    WorklistIsGood(NOTHING, [], t.latest, t.incremental);
    forall p | p in Midway(NOTHING, ops, env).w.tree
      ensures InFilemeta(t.latest, p)
    {
      if i :| 0 <= i < |ops| && Rel(ops[i]) == p {
        StemsFrom(NOTHING, [], t.latest, t.incremental, i);
        FileIsInFilemeta(t.latest, p);
      } else {
        KeptIsSpared(NOTHING, ops, env, p);
      }
    }
  }

  /** The first pass over an empty folder meets every condition of a run, whatever is published. */
  lemma FirstPassKeeps(t: Turn)
    requires Canonical(t.latest) && DistinctIds(t.latest) && AllArrive(t.fetch) && t.dels == []
    ensures Keeps(NOTHING, [], t)
  {
    var ops := OpsOf(NOTHING, [], t);
    FirstDeletesNothing(t);
    forall i | 0 <= i < |ops|
      ensures ops[i].kind.Create? && !IsGated(NOTHING, ops, EnvOf(t), i)
    {
      FirstPlansCreates(t, i);
    }
    assert (set p | p in NOTHING.tree && Counted(p)) == {};
  }

  /** Hence the first pass ends with tree, tracked state and filemeta in agreement, full or incremental. */
  lemma FirstPassAgrees(t: Turn)
    requires Canonical(t.latest) && DistinctIds(t.latest) && AllArrive(t.fetch) && t.dels == []
    ensures PassOf(NOTHING, [], t).accepted && Agrees(PassOf(NOTHING, [], t).w, t.latest)
  {
    NothingAgrees();
    FirstPassKeeps(t);
    OrdinaryIsSmooth(NOTHING, [], t);
    AgreementIff(NOTHING, [], t);
  }
}
