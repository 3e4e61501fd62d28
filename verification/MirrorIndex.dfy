/**
 * The resource index rebuilt after a pass: each mirrored document is found at its
 * filemeta path, dropped ones nowhere.
 */
module MirrorIndex {
  import opened Common
  import opened Dict
  import opened Filemeta
  import opened MirrorModel
  import opened MirrorAgreement
  import MirrorStale
  import Index = ResourceIndex

  /** The folder's part of `local_file_state`, with types and times, shows this tracked state. */
  ghost predicate Shows(info: Index.FolderState, state: Tracking) {
    && |info| == |state|
    && forall i :: 0 <= i < |state| ==> info[i].0 == state[i].0 && info[i].1.Info? && info[i].1.docId == state[i].1
  }

  lemma {:induction false} ShownKeys(info: Index.FolderState, state: Tracking, k: string)
    requires Shows(info, state)
    ensures Has(info, k) <==> Has(state, k)
  {
    if state != [] {
      ShownKeys(info[1..], state[1..], k);
    }
  }

  lemma {:induction false} ShownIsDict(info: Index.FolderState, state: Tracking)
    requires Shows(info, state) && IsDict(state)
    ensures IsDict(info)
  {
    if state != [] {
      ShownIsDict(info[1..], state[1..]);
      ShownKeys(info[1..], state[1..], info[0].0);
    }
  }

  /** What one relay has on record: its filemetas, tracked states and hashes, and the configured folders. */
  datatype Relay = Relay(filemetas: Dict<Filemeta>, states: Dict<Index.FolderState>, hashes: seq<string>,
                         connectors: Option<set<string>>)

  function Lookup(r: Relay, id: string): Option<Index.Entry> {
    Index.Precedence(r.filemetas, r.states, r.hashes, r.connectors, id)
  }

  /** Folder `k` is configured, its tracked state is that of `w`, and no other folder tracks `id`. */
  ghost predicate TracksAlone(r: Relay, k: nat, w: World, id: string) {
    && k < |r.states| && Index.ShouldSync(r.connectors, r.states[k].0) && Shows(r.states[k].1, w.state)
    && forall m :: 0 <= m < |r.states| && m != k ==> Index.Scan(r.states[m].1, id).None?
  }

  lemma TrackedHere(info: Index.FolderState, w: World, i: nat, id: string)
    requires Shows(info, w.state) && IsDict(w.state) && Index.Tracks(info, i, id)
    ensures i < |info| && Get(w.state, info[i].0) == Some(Some(id))
  {
    GetAt(w.state, i);
  }

  /** In agreement a document is tracked at the path of its entry alone. */
  lemma TrackedAtEntry(info: Index.FolderState, w: World, fm: Filemeta, j: nat, i: nat)
    requires Shows(info, w.state) && Agrees(w, fm) && j < |fm| && IsFile(fm[j].1)
    requires Index.Tracks(info, i, fm[j].1.id.value)
    ensures info[i].0 == fm[j].0
  {
    TrackedHere(info, w, i, fm[j].1.id.value);
    FileIsTracked(w, fm, j);
    MirrorStale.SameOwnerSamePath(w, fm, info[i].0, fm[j].0, fm[j].1.id.value);
  }

  lemma EntryIsTracked(info: Index.FolderState, w: World, fm: Filemeta, j: nat) returns (i: nat)
    requires Shows(info, w.state) && Agrees(w, fm) && j < |fm| && IsFile(fm[j].1)
    ensures Index.Tracks(info, i, fm[j].1.id.value)
  {
    FileIsTracked(w, fm, j);
    i := GetFound(w.state, fm[j].0);
  }

  /** Once tree, state and filemeta agree, the index finds each of the folder's documents at its filemeta path. */
  lemma IndexFindsFiles(r: Relay, k: nat, w: World, fm: Filemeta, j: nat)
    requires Agrees(w, fm) && j < |fm| && IsFile(fm[j].1) && !Index.Legacy(fm[j].1.id.value)
    requires TracksAlone(r, k, w, fm[j].1.id.value)
    ensures var entry := Lookup(r, fm[j].1.id.value);
            && entry.Some? && entry.value.FileEntry?
            && entry.value.folder == r.states[k].0 && entry.value.path == fm[j].0
  {
    var (folder, info, id) := (r.states[k].0, r.states[k].1, fm[j].1.id.value);
    var i := EntryIsTracked(info, w, fm, j);
    Index.LocalClaimsElsewhere(r.states, r.connectors, k, id);
    Index.LastLocalOf(folder, info, id);
    var entry := Index.Last(Index.LocalClaimsOf(folder, info), id);
    var l :| Index.Tracks(info, l, id) && entry.value.path == info[l].0;
    TrackedAtEntry(info, w, fm, j, l);
  }

  /** No filemeta mentions the document, no folder has its id, and no other folder tracks it. */
  ghost predicate Unmentioned(r: Relay, id: string) {
    && (forall f, i :: 0 <= f < |r.filemetas| && 0 <= i < |r.filemetas[f].1| && IsFileEntry(r.filemetas[f].1[i].1) ==>
          r.filemetas[f].1[i].1.id != Some(id))
    && (forall f :: 0 <= f < |r.filemetas| ==> r.filemetas[f].0 != id)
  }

  /** And a document that went away is found nowhere, save as a standalone hash when nothing is configured. */
  lemma IndexForgetsDropped(r: Relay, k: nat, w: World, fm: Filemeta, f: nat, id: string)
    requires Agrees(w, fm) && f < |r.filemetas| && r.filemetas[f].1 == fm
    requires TracksAlone(r, k, w, id) && Unmentioned(r, id) && !Index.Legacy(id)
    ensures Lookup(r, id) == if r.connectors.None? && id in r.hashes then Some(Index.Standalone) else None
  {
    var info := r.states[k].1;
    Index.ScanIsFirst(info, id);
    if Index.Scan(info, id).Some? {
      var i :| Index.Tracks(info, i, id);
      TrackedHere(info, w, i, id);
      var j := TrackedIsFile(w, fm, info[i].0);
    }
    Index.NoEarlierClaim(r.states, r.connectors, id);
    Index.NoFolderClaim(r.filemetas, r.connectors, id);
    Index.NoMetaClaim(r.filemetas, r.connectors, id);
  }

  /**
   * After an ordinary pass that keeps the agreement, the rebuilt index answers for
   * this folder what the new filemeta says: a document's path, and nothing for a
   * document that left.
   */
  lemma IndexAfterPass(r: Relay, k: nat, f: nat, w: World, before: Filemeta, t: Turn, id: string)
    requires Agrees(w, before) && Ordinary(w, before, t)
    requires NoopsTracked(w, OpsOf(w, before, t)) && DropsPlain(w, OpsOf(w, before, t), t.latest)
    requires f < |r.filemetas| && r.filemetas[f].1 == t.latest && !Index.Legacy(id)
    requires TracksAlone(r, k, PassOf(w, before, t).w, id)
    ensures forall j :: 0 <= j < |t.latest| && IsFile(t.latest[j].1) && t.latest[j].1.id == Some(id) ==>
              var entry := Lookup(r, id);
              entry.Some? && entry.value.FileEntry? && entry.value.folder == r.states[k].0
                  && entry.value.path == t.latest[j].0
    ensures Unmentioned(r, id) ==>
              Lookup(r, id) == if r.connectors.None? && id in r.hashes then Some(Index.Standalone) else None
  {
    var end := PassOf(w, before, t).w;
    AgreementIff(w, before, t);
    forall j | 0 <= j < |t.latest| && IsFile(t.latest[j].1) && t.latest[j].1.id == Some(id)
      ensures var entry := Lookup(r, id);
              entry.Some? && entry.value.FileEntry? && entry.value.folder == r.states[k].0
                  && entry.value.path == t.latest[j].0
    {
      IndexFindsFiles(r, k, end, t.latest, j);
    }
    if Unmentioned(r, id) {
      IndexForgetsDropped(r, k, end, t.latest, f, id);
    }
  }
}
