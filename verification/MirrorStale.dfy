/**
 * The two ways an accepted pass misses its filemeta: a hash-equal file that is
 * moved away, and a stale tracked path.
 */
module MirrorStale {
  import opened Common
  import opened Dict
  import opened Filemeta
  import opened Text
  import opened MirrorModel
  import opened MirrorFrames
  import opened MirrorPhases
  import opened MirrorPresence
  import opened MirrorConvergence
  import opened MirrorEntries
  import opened MirrorAgreement
  import MirrorFinish
  import Paths

  // ----- stale tracking -----

  ghost predicate Mentions(fm: Filemeta, id: string) {
    exists i :: 0 <= i < |fm| && IsFile(fm[i].1) && fm[i].1.id == Some(id)
  }

  /** Tracked with a leading slash and dropped, document and file, by the new filemeta. */
  ghost predicate DroppedWithSlash(w: World, latest: Filemeta, k: string, id: string) {
    && Get(w.state, k) == Some(Some(id)) && !Mentions(latest, id) && OwnerIn(latest, k).None?
    && Relative(k).Some? && Relative(k) != Some(k) && !InFilemeta(latest, Relative(k).value)
  }

  lemma {:induction false} FindUnique(state: Tracking, id: string, k: string)
    requires IsDict(state) && Get(state, k) == Some(Some(id))
    requires forall l :: Get(state, l) == Some(Some(id)) ==> l == k
    ensures FindByDocId(state, id) == Some(k)
  {
    var i := GetFound(state, k);
    FindSome(state, id, i);
    FindFound(state, id);
  }

  lemma {:induction false} FindSome(state: Tracking, id: string, i: nat)
    requires i < |state| && state[i].1 == Some(id)
    ensures FindByDocId(state, id).Some?
  {
    if state[0].1 != Some(id) {
      FindSome(state[1..], id, i - 1);
    }
  }

  lemma OpIdIsMentioned(w: World, before: Filemeta, t: Turn, i: nat)
    requires Canonical(t.latest) && i < |OpsOf(w, before, t)|
    ensures Mentions(t.latest, OpsOf(w, before, t)[i].id)
  {
    StemsFrom(w, before, t.latest, t.incremental, i);
    var e := Worklist(before, t.latest, t.incremental)[i];
    var j :| 0 <= j < |t.latest| && t.latest[j] == e;
  }

  lemma DroppedIsNoSource(w: World, before: Filemeta, t: Turn, k: string, id: string)
    requires Agrees(w, before) && Canonical(t.latest) && DroppedWithSlash(w, t.latest, k, id)
    ensures !IsSource(OpsOf(w, before, t), k)
  {
    var ops := OpsOf(w, before, t);
    forall i | 0 <= i < |ops| && ops[i].kind.Rename?
      ensures ops[i].fromPath != k
    {
      SourceIsTracked(w, before, t, i);
      OpIdIsMentioned(w, before, t, i);
    }
  }

  /** A slash-spelled path survives the deletion of its file in the tracked state. */
  lemma DroppedStaysTracked(w: World, before: Filemeta, t: Turn, k: string, id: string)
    requires Agrees(w, before) && Ordinary(w, before, t) && NoopsTracked(w, OpsOf(w, before, t))
    requires DroppedWithSlash(w, t.latest, k, id)
    ensures var end := PassOf(w, before, t).w;
            && Sound(end) && Get(end.state, k) == Some(Some(id)) && FindByDocId(end.state, id) == Some(k)
            && (Skipped(Relative(k).value) || Relative(k).value !in end.tree)
  {
    var end := PassOf(w, before, t).w;
    DroppedIsNoSource(w, before, t, k, id);
    DroppedEntryEnds(w, before, t, k);
    OrdinaryIsSmooth(w, before, t);
    MirrorFinish.FinalSound(w, OpsOf(w, before, t), EnvOf(t), t.dels);
    forall l | Get(end.state, l) == Some(Some(id))
      ensures l == k
    {
      OnlyOwner(w, before, t, k, id, l);
    }
    FindUnique(end.state, id, k);
    if !Skipped(Relative(k).value) {
      DroppedFileGoes(w, before, t, Relative(k).value);
    }
  }

  /** A visible file the filemeta does not mention is gone after an ordinary pass. */
  lemma DroppedFileGoes(w: World, before: Filemeta, t: Turn, r: string)
    requires Agrees(w, before) && Ordinary(w, before, t) && !Skipped(r) && !InFilemeta(t.latest, r)
    ensures r !in PassOf(w, before, t).w.tree
  {
    var ops := OpsOf(w, before, t);
    OrdinaryIsSmooth(w, before, t);
    FinalMembership(w, before, t.latest, t.incremental, t.dels, t.fetch, r);
    forall i | 0 <= i < |ops|
      ensures Rel(ops[i]) != r
    {
      StemsFrom(w, before, t.latest, t.incremental, i);
      FileIsInFilemeta(t.latest, Rel(ops[i]));
    }
  }

  lemma OnlyOwner(w: World, before: Filemeta, t: Turn, k: string, id: string, l: string)
    requires Agrees(w, before) && Ordinary(w, before, t) && NoopsTracked(w, OpsOf(w, before, t))
    requires DroppedWithSlash(w, t.latest, k, id) && Get(PassOf(w, before, t).w.state, l) == Some(Some(id))
    ensures l == k
  {
    if OwnerIn(t.latest, l).Some? {
      FileEntryEnds(w, before, t, l);
      var j := GetFound(t.latest, l);
      assert Mentions(t.latest, id);
    } else {
      DroppedEntryEnds(w, before, t, l);
      SameOwnerSamePath(w, before, k, l, id);
    }
  }

  lemma SameOwnerSamePath(w: World, fm: Filemeta, k: string, l: string, id: string)
    requires Agrees(w, fm) && Get(w.state, k) == Some(Some(id)) && Get(w.state, l) == Some(Some(id))
    ensures k == l
  {
    var i := TrackedIsFile(w, fm, k);
    var j := TrackedIsFile(w, fm, l);
    OneEntryPerId(fm, i, j);
  }

  /**
   * So a document that was dropped under a leading slash and comes back at
   * another path is planned as a rename from the vanished file: whatever the
   * other entries, the accepted pass does not end with the filemeta's files.
   */
  lemma RestoredFileIsMissing(w: World, latest: Filemeta, before: Filemeta, incremental: bool, dels: seq<string>,
                              allow: bool, fetch: Fetch, k: string, e: (string, Meta))
    requires Ready(w, before, latest, incremental, dels, fetch) && AllArrive(fetch)
    requires !Refused(w, latest) && !Gated(latest, dels, allow)
    requires IsPlanned(before, latest, incremental, e) && Relative(e.0).GetOr("") !in w.tree && e.0 != k && k != ""
    requires FindByDocId(w.state, e.1.id.value) == Some(k) && Relative(k).GetOr("") !in w.tree
    ensures Pass(w, before, latest, incremental, dels, allow, fetch).accepted
    ensures !Mirrors(Pass(w, before, latest, incremental, dels, allow, fetch).w.tree, latest)
  {
    var i := PlannedAt(w, before, latest, incremental, e);
    StemsFrom(w, before, latest, incremental, i);
    var op := Planned(w, before, latest, incremental)[i];
    assert op.kind.Rename? && op.fromPath == k;
    assert !SourceIn(w, op);
    PathsConverge(w, before, latest, incremental, dels, allow, fetch);
  }

  // ----- the smallest hash-equal loss -----

  predicate Atom(s: string) { s != "" && '/' !in s && s != "." && s != ".." && !(".git" <= s) }

  lemma AtomPath(s: string)
    requires Atom(s)
    ensures Relative(s) == Some(s) && CanonicalKey(s)
  {
    SplitAtom(s, '/');
    Paths.KeptFixed([s]);
  }

  lemma AtomIsSeen(s: string)
    requires Atom(s)
    ensures !Skipped(s)
  {
    SplitAtom(s, '/');
    assert [s][..0] == [];
  }

  function Doc(id: string, hash: Option<Body>): Meta { Meta(Some(id), Some("document"), hash, "") }

  function OneFile(s: string, x: Body): World { World(map[s := x], [(s, Some("1"))]) }

  function Pair(k: string, m: Meta, l: string, n: Meta): Filemeta { [(k, m), (l, n)] }

  lemma PairIsCanonical(k: string, m: Meta, l: string, n: Meta)
    requires Atom(k) && Atom(l) && k != l && Usable(m) && Usable(n)
    ensures Canonical(Pair(k, m, l, n))
  {
    var fm := Pair(k, m, l, n);
    AtomPath(k);
    AtomPath(l);
    assert fm[1..] == [(l, n)];
    assert [(l, n)][1..] == [];
    assert !Has<Meta>([], k) && !Has<Meta>([], l);
    assert Get(fm[1..], k) == Get([(l, n)][1..], k);
    assert IsDict(fm[1..]);
  }

  lemma PairFiles(k: string, m: Meta, l: string, n: Meta)
    requires IsFile(m) && IsFile(n)
    ensures Files(Pair(k, m, l, n)) == Pair(k, m, l, n) && FileCount(Pair(k, m, l, n)) == 2
  {
    var fm := Pair(k, m, l, n);
    assert fm[..1] == [(k, m)] && fm[..1][..0] == [];
    assert Files(fm[..1]) == [(k, m)] && FileCount(fm[..1]) == 1;
  }

  /** The plan when document 1 moves from `s` to `t` and document 2 takes over `s` with the same bytes. */
  lemma TakeoverPlan(s: string, t: string, x: Body)
    requires Atom(s) && Atom(t) && s != t
    ensures var ops := Planned(OneFile(s, x), [], Pair(s, Doc("2", Some(x)), t, Doc("1", None)), false);
            && |ops| == 2 && ops[0].kind.Noop? && Rel(ops[0]) == s && ops[1].kind.Rename? && Source(ops[1]) == Some(s)
  {
    PairFiles(s, Doc("2", Some(x)), t, Doc("1", None));
    AtomPath(s);
    AtomPath(t);
  }

  /**
   * A hash-equal file is left alone even when a rename is about to move it away:
   * the pass is accepted, and the path is missing afterwards.
   */
  lemma HashEqualFileIsLost(s: string, t: string, x: Body, dels: seq<string>, fetch: Fetch)
    requires Atom(s) && Atom(t) && s != t && AllArrive(fetch)
    requires Lists(dels, ToDelete(PassMid(OneFile(s, x), [], Pair(s, Doc("2", Some(x)), t, Doc("1", None)), false,
                                          fetch).w.tree,
                                  Pair(s, Doc("2", Some(x)), t, Doc("1", None))))
    ensures var (w, latest) := (OneFile(s, x), Pair(s, Doc("2", Some(x)), t, Doc("1", None)));
            var r := Pass(w, [], latest, false, dels, true, fetch);
            Canonical(latest) && r.accepted && !Mirrors(r.w.tree, latest)
  {
    var (w, latest) := (OneFile(s, x), Pair(s, Doc("2", Some(x)), t, Doc("1", None)));
    PairIsCanonical(s, Doc("2", Some(x)), t, Doc("1", None));
    PairFiles(s, Doc("2", Some(x)), t, Doc("1", None));
    TakeoverPlan(s, t, x);
    AtomPath(s);
    OneFileIsSound(s, x);
    var ops := Planned(w, [], latest, false);
    assert !Spares(ops, s);
    PathsConverge(w, [], latest, false, dels, true, fetch);
  }

  lemma OneFileIsSound(s: string, x: Body)
    requires Atom(s)
    ensures Sound(OneFile(s, x))
  {
    AtomPath(s);
    var d: Tracking := [(s, Some("1"))];
    assert d[1..] == [];
    assert !Has<Option<string>>([], s);
  }
}
