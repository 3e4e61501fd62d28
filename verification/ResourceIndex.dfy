/** The per-relay resource index of `persistence.py` and the lookups it must agree with. */
module ResourceIndex {
  import opened Common
  import opened Dict
  import opened Filemeta
  import opened Text

  datatype FileInfo = NotInfo | Info(docId: Option<string>, typ: Option<string>)

  type FolderState = Dict<FileInfo>

  datatype Entry =
    | FolderEntry(id: string)
    | FileEntry(typ: string, folder: string, path: string)
    | Standalone

  /** One assignment `relay_index[id] = entry`, in the order the source makes them. */
  type Claims = seq<(string, Entry)>

  predicate Legacy(id: string) { '-' in id && |Split(id, '-')| > 5 }

  function Lower(s: string): string {
    if s == "" then "" else [if 'A' <= s[0] <= 'Z' then s[0] - 'A' + 'a' else s[0]] + Lower(s[1..])
  }

  predicate EndsWith(s: string, suffix: string) { |s| >= |suffix| && s[|s| - |suffix|..] == suffix }

  function InferType(path: string): string {
    var p := Lower(path);
    if EndsWith(p, ".canvas") then "canvas"
    else if EndsWith(p, ".md") || EndsWith(p, ".txt") || EndsWith(p, ".json") then "document"
    else "file"
  }

  function LocalType(path: string, info: FileInfo): string
    requires info.Info?
  {
    if info.typ.Some? && info.typ.value != "" then info.typ.value else InferType(path)
  }

  /** `connectors` is `None` when none are configured at all, else the folders configured for this relay. */
  predicate ShouldSync(connectors: Option<set<string>>, folder: string) {
    connectors.Some? ==> folder in connectors.value
  }

  function FolderClaims(fms: Dict<Filemeta>, cs: Option<set<string>>): Claims {
    if fms == [] then []
    else
      FolderClaims(fms[..|fms| - 1], cs)
      + (var f := fms[|fms| - 1].0; if ShouldSync(cs, f) then [(f, FolderEntry(f))] else [])
  }

  function LocalClaimsOf(folder: string, state: FolderState): Claims {
    if state == [] then []
    else
      LocalClaimsOf(folder, state[..|state| - 1])
      + (var (path, info) := state[|state| - 1];
         if info.Info? && info.docId.Some? && !Legacy(info.docId.value) then
           [(info.docId.value, FileEntry(LocalType(path, info), folder, path))]
         else [])
  }

  function LocalClaims(states: Dict<FolderState>, cs: Option<set<string>>): Claims {
    if states == [] then []
    else
      LocalClaims(states[..|states| - 1], cs)
      + (var (f, state) := states[|states| - 1]; if ShouldSync(cs, f) then LocalClaimsOf(f, state) else [])
  }

  function MetaClaimsOf(folder: string, fm: Filemeta): Claims {
    if fm == [] then []
    else
      MetaClaimsOf(folder, fm[..|fm| - 1])
      + (var (path, m) := fm[|fm| - 1];
         if IsFileEntry(m) && !Legacy(m.id.value) then
           [(m.id.value, FileEntry(if m.typ.Some? then m.typ.value else "document", folder, path))]
         else [])
  }

  function MetaClaims(fms: Dict<Filemeta>, cs: Option<set<string>>): Claims {
    if fms == [] then []
    else
      MetaClaims(fms[..|fms| - 1], cs)
      + (var (f, fm) := fms[|fms| - 1]; if ShouldSync(cs, f) then MetaClaimsOf(f, fm) else [])
  }

  function First(claims: Claims, id: string): Option<Entry> { Get(claims, id) }

  function Last(claims: Claims, id: string): Option<Entry> {
    if claims == [] then None
    else if claims[|claims| - 1].0 == id then Some(claims[|claims| - 1].1)
    else Last(claims[..|claims| - 1], id)
  }

  function OrElse(a: Option<Entry>, b: Option<Entry>): Option<Entry> { if a.Some? then a else b }

  function At(index: map<string, Entry>, id: string): Option<Entry> {
    if id in index then Some(index[id]) else None
  }

  function StandaloneIn(hashes: seq<string>, id: string): Option<Entry> {
    if id in hashes && !Legacy(id) then Some(Standalone) else None
  }

  /** Last local-state match, else folder, else first filemeta match, else a standalone hash without connectors. */
  function Precedence(fms: Dict<Filemeta>, states: Dict<FolderState>, hashes: seq<string>,
                      cs: Option<set<string>>, id: string): Option<Entry> {
    var tracked := OrElse(Last(LocalClaims(states, cs), id), Last(FolderClaims(fms, cs), id));
    var known := OrElse(tracked, First(MetaClaims(fms, cs), id));
    OrElse(known, if cs.None? then StandaloneIn(hashes, id) else None)
  }

  lemma {:induction false} FirstConcat(a: Claims, b: Claims, id: string)
    ensures First(a + b, id) == OrElse(First(a, id), First(b, id))
  {
    if a == [] {
      assert a + b == b;
    } else {
      assert (a + b)[1..] == a[1..] + b;
      FirstConcat(a[1..], b, id);
    }
  }

  lemma {:induction false} LastConcat(a: Claims, b: Claims, id: string)
    ensures Last(a + b, id) == OrElse(Last(b, id), Last(a, id))
  {
    if b == [] {
      assert a + b == a;
    } else {
      assert (a + b)[..|a + b| - 1] == a + b[..|b| - 1];
      LastConcat(a, b[..|b| - 1], id);
    }
  }

  /** `index` answers every lookup as "last of `over`, else what `under` answered". */
  ghost predicate Overrides(index: map<string, Entry>, over: Claims, under: map<string, Entry>) {
    forall id :: At(index, id) == OrElse(Last(over, id), At(under, id))
  }

  /** `index` answers every lookup as "what `over` answered, else first of `under`". */
  ghost predicate Extends(index: map<string, Entry>, over: map<string, Entry>, under: Claims) {
    forall id :: At(index, id) == OrElse(At(over, id), First(under, id))
  }

  lemma OverridesAppend(index: map<string, Entry>, over: Claims, under: map<string, Entry>, more: Claims)
    requires Overrides(index, over, under) && |more| <= 1
    ensures more == [] ==> Overrides(index, over + more, under)
    ensures more != [] ==> Overrides(index[more[0].0 := more[0].1], over + more, under)
  {
    forall id {
      LastConcat(over, more, id);
    }
  }

  lemma ExtendsAppend(index: map<string, Entry>, over: map<string, Entry>, under: Claims, more: Claims)
    requires Extends(index, over, under) && |more| <= 1
    ensures more == [] || more[0].0 in index ==> Extends(index, over, under + more)
    ensures more != [] && more[0].0 !in index ==> Extends(index[more[0].0 := more[0].1], over, under + more)
  {
    forall id
      ensures First(under + more, id) ==
              OrElse(First(under, id), if more != [] && more[0].0 == id then Some(more[0].1) else None)
    {
      FirstConcat(under, more, id);
      assert more != [] ==> Get(more[1..], id).None?;
    }
  }

  class RelayIndex {
    var filemetas: Dict<Filemeta>
    var states: Dict<FolderState>
    var hashes: seq<string>
    var connectors: Option<set<string>>
    var index: map<string, Entry>

    constructor (fms: Dict<Filemeta>, states: Dict<FolderState>, hashes: seq<string>, cs: Option<set<string>>)
      ensures filemetas == fms && this.states == states && this.hashes == hashes && connectors == cs
    {
      filemetas, this.states, this.hashes, connectors, index := fms, states, hashes, cs, map[];
    }

    method IndexFolders()
      modifies this`index
      ensures Overrides(index, FolderClaims(filemetas, connectors), map[])
    {
      index := map[];
      for i := 0 to |filemetas|
        invariant Overrides(index, FolderClaims(filemetas[..i], connectors), map[])
      {
        var f := filemetas[i].0;
        assert filemetas[..i + 1][..i] == filemetas[..i];
        var sync := ShouldSync(connectors, f);
        OverridesAppend(index, FolderClaims(filemetas[..i], connectors), map[],
                        if sync then [(f, FolderEntry(f))] else []);
        if sync {
          index := index[f := FolderEntry(f)];
        }
      }
      assert filemetas[..|filemetas|] == filemetas;
    }

    method IndexLocalFolder(folder: string, state: FolderState, ghost done: Claims, ghost under: map<string, Entry>)
      requires Overrides(index, done, under)
      modifies this`index
      ensures Overrides(index, done + LocalClaimsOf(folder, state), under)
    {
      assert done + [] == done;
      for j := 0 to |state|
        invariant Overrides(index, done + LocalClaimsOf(folder, state[..j]), under)
      {
        var path, info := state[j].0, state[j].1;
        assert state[..j + 1][..j] == state[..j];
        ghost var so := LocalClaimsOf(folder, state[..j]);
        if info.Info? && info.docId.Some? && !Legacy(info.docId.value) {
          var entry := FileEntry(LocalType(path, info), folder, path);
          OverridesAppend(index, done + so, under, [(info.docId.value, entry)]);
          assert done + so + [(info.docId.value, entry)] == done + (so + [(info.docId.value, entry)]);
          index := index[info.docId.value := entry];
        } else {
          assert LocalClaimsOf(folder, state[..j + 1]) == so;
        }
      }
      assert state[..|state|] == state;
    }

    method IndexLocalState()
      modifies this`index
      ensures Overrides(index, LocalClaims(states, connectors), old(index))
    {
      for i := 0 to |states|
        invariant Overrides(index, LocalClaims(states[..i], connectors), old(index))
      {
        var f := states[i].0;
        assert states[..i + 1][..i] == states[..i];
        ghost var done := LocalClaims(states[..i], connectors);
        if ShouldSync(connectors, f) {
          IndexLocalFolder(f, states[i].1, done, old(index));
        } else {
          assert LocalClaims(states[..i + 1], connectors) == done;
        }
      }
      assert states[..|states|] == states;
    }

    method IndexFilemetaFolder(folder: string, fm: Filemeta, ghost over: map<string, Entry>, ghost done: Claims)
      requires Extends(index, over, done)
      modifies this`index
      ensures Extends(index, over, done + MetaClaimsOf(folder, fm))
    {
      assert done + [] == done;
      for j := 0 to |fm|
        invariant Extends(index, over, done + MetaClaimsOf(folder, fm[..j]))
      {
        var path, m := fm[j].0, fm[j].1;
        assert fm[..j + 1][..j] == fm[..j];
        ghost var so := MetaClaimsOf(folder, fm[..j]);
        if IsFileEntry(m) && !Legacy(m.id.value) {
          var entry := FileEntry(if m.typ.Some? then m.typ.value else "document", folder, path);
          ExtendsAppend(index, over, done + so, [(m.id.value, entry)]);
          assert done + so + [(m.id.value, entry)] == done + (so + [(m.id.value, entry)]);
          if m.id.value !in index {
            index := index[m.id.value := entry];
          }
        } else {
          assert MetaClaimsOf(folder, fm[..j + 1]) == so;
        }
      }
      assert fm[..|fm|] == fm;
    }

    method IndexFilemetas()
      modifies this`index
      ensures Extends(index, old(index), MetaClaims(filemetas, connectors))
    {
      for i := 0 to |filemetas|
        invariant Extends(index, old(index), MetaClaims(filemetas[..i], connectors))
      {
        var f := filemetas[i].0;
        assert filemetas[..i + 1][..i] == filemetas[..i];
        ghost var done := MetaClaims(filemetas[..i], connectors);
        if ShouldSync(connectors, f) {
          IndexFilemetaFolder(f, filemetas[i].1, old(index), done);
        } else {
          assert MetaClaims(filemetas[..i + 1], connectors) == done;
        }
      }
      assert filemetas[..|filemetas|] == filemetas;
    }

    method IndexHashes()
      modifies this`index
      ensures forall id :: At(index, id) == OrElse(At(old(index), id), StandaloneIn(hashes, id))
    {
      for i := 0 to |hashes|
        invariant forall id :: At(index, id) == OrElse(At(old(index), id), StandaloneIn(hashes[..i], id))
      {
        assert hashes[..i + 1] == hashes[..i] + [hashes[i]];
        if !Legacy(hashes[i]) && hashes[i] !in index {
          index := index[hashes[i] := Standalone];
        }
      }
      assert hashes[..|hashes|] == hashes;
    }

    /** The rebuilt index answers every lookup by precedence. */
    method Build()
      modifies this`index
      ensures forall id :: At(index, id) == Precedence(filemetas, states, hashes, connectors, id)
    {
      IndexFolders();
      IndexLocalState();
      IndexFilemetas();
      if connectors.None? {
        IndexHashes();
      }
    }
  }

  // ----- agreement with the linear scan -----

  /** `find_local_file_by_doc_id` within one folder. */
  function Scan(state: FolderState, id: string): Option<string> {
    if state == [] then None
    else if state[0].1.Info? && state[0].1.docId == Some(id) then Some(state[0].0)
    else Scan(state[1..], id)
  }

  method FindLocalFileByDocId(state: FolderState, id: string) returns (path: Option<string>)
    ensures path == Scan(state, id)
  {
    for i := 0 to |state|
      invariant Scan(state, id) == Scan(state[i..], id)
    {
      if state[i].1.Info? && state[i].1.docId == Some(id) {
        return Some(state[i].0);
      }
      assert state[i..][1..] == state[i + 1..];
    }
    return None;
  }

  ghost predicate Tracks(state: FolderState, i: int, id: string) {
    0 <= i < |state| && state[i].1.Info? && state[i].1.docId == Some(id)
  }

  lemma {:induction false} ScanIsFirst(state: FolderState, id: string)
    ensures Scan(state, id).None? ==> forall i :: !Tracks(state, i, id)
    ensures Scan(state, id).Some? ==>
      exists i :: Tracks(state, i, id) && state[i].0 == Scan(state, id).value
                  && forall j :: j < i ==> !Tracks(state, j, id)
  {
    if state != [] {
      if Tracks(state, 0, id) {
        assert forall j :: j < 0 ==> !Tracks(state, j, id);
      } else {
        ScanIsFirst(state[1..], id);
        forall i | Tracks(state, i, id)
          ensures Tracks(state[1..], i - 1, id)
        {
        }
        if Scan(state, id).Some? {
          var i :| Tracks(state[1..], i, id) && state[1..][i].0 == Scan(state, id).value
                   && forall j :: j < i ==> !Tracks(state[1..], j, id);
          assert Tracks(state, i + 1, id);
        }
      }
    }
  }

  lemma {:induction false} LastLocalOf(folder: string, state: FolderState, id: string)
    requires !Legacy(id)
    ensures var l := Last(LocalClaimsOf(folder, state), id);
            && (l.None? ==> forall i :: !Tracks(state, i, id))
            && (l.Some? ==> exists i :: Tracks(state, i, id)
                                        && l.value == FileEntry(LocalType(state[i].0, state[i].1), folder, state[i].0)
                                        && forall j :: j > i ==> !Tracks(state, j, id))
  {
    if state != [] {
      var n := |state| - 1;
      var front := state[..n];
      LastLocalOf(folder, front, id);
      LastConcat(LocalClaimsOf(folder, front), LocalClaimsOf(folder, state)[|LocalClaimsOf(folder, front)|..], id);
      assert LocalClaimsOf(folder, state) ==
        LocalClaimsOf(folder, front) + LocalClaimsOf(folder, state)[|LocalClaimsOf(folder, front)|..];
      if Tracks(state, n, id) {
        assert forall j :: j > n ==> !Tracks(state, j, id);
      } else {
        forall i | Tracks(state, i, id)
          ensures Tracks(front, i, id)
        {
        }
        var l := Last(LocalClaimsOf(folder, front), id);
        if l.Some? {
          var i :| Tracks(front, i, id)
                   && l.value == FileEntry(LocalType(front[i].0, front[i].1), folder, front[i].0)
                   && forall j :: j > i ==> !Tracks(front, j, id);
          assert Tracks(state, i, id);
        }
      }
    }
  }

  lemma {:induction false} LocalClaimsElsewhere(states: Dict<FolderState>, cs: Option<set<string>>, k: nat, id: string)
    requires k < |states| && ShouldSync(cs, states[k].0) && !Legacy(id)
    requires forall m :: 0 <= m < |states| && m != k ==> Scan(states[m].1, id).None?
    ensures Last(LocalClaims(states, cs), id) == Last(LocalClaimsOf(states[k].0, states[k].1), id)
  {
    var n := |states| - 1;
    var front := LocalClaims(states[..n], cs);
    var own := if ShouldSync(cs, states[n].0) then LocalClaimsOf(states[n].0, states[n].1) else [];
    LastConcat(front, own, id);
    if k < n {
      LocalClaimsElsewhere(states[..n], cs, k, id);
      NoClaim(states[n].0, states[n].1, id);
    } else {
      NoEarlierClaim(states[..n], cs, id);
    }
  }

  lemma NoClaim(folder: string, state: FolderState, id: string)
    requires !Legacy(id) && Scan(state, id).None?
    ensures Last(LocalClaimsOf(folder, state), id).None?
  {
    ScanIsFirst(state, id);
    LastLocalOf(folder, state, id);
  }

  lemma {:induction false} NoEarlierClaim(states: Dict<FolderState>, cs: Option<set<string>>, id: string)
    requires !Legacy(id) && forall m :: 0 <= m < |states| ==> Scan(states[m].1, id).None?
    ensures Last(LocalClaims(states, cs), id).None?
  {
    if states != [] {
      var n := |states| - 1;
      NoEarlierClaim(states[..n], cs, id);
      NoClaim(states[n].0, states[n].1, id);
      LastConcat(LocalClaims(states[..n], cs),
                 if ShouldSync(cs, states[n].0) then LocalClaimsOf(states[n].0, states[n].1) else [], id);
    }
  }

  /** What one more entry of a filemeta claims for `id`. */
  lemma {:induction false} NoMetaClaimOf(folder: string, fm: Filemeta, id: string)
    requires forall i :: 0 <= i < |fm| && IsFileEntry(fm[i].1) ==> fm[i].1.id != Some(id)
    ensures First(MetaClaimsOf(folder, fm), id).None?
  {
    if fm != [] {
      var n := |fm| - 1;
      NoMetaClaimOf(folder, fm[..n], id);
      var own := MetaClaimsOf(folder, fm)[|MetaClaimsOf(folder, fm[..n])|..];
      assert MetaClaimsOf(folder, fm) == MetaClaimsOf(folder, fm[..n]) + own;
      FirstConcat(MetaClaimsOf(folder, fm[..n]), own, id);
      assert own != [] ==> Get(own[1..], id).None?;
    }
  }

  /** An id no filemeta mentions is claimed by none. */
  lemma {:induction false} NoMetaClaim(fms: Dict<Filemeta>, cs: Option<set<string>>, id: string)
    requires forall f, i :: 0 <= f < |fms| && 0 <= i < |fms[f].1| && IsFileEntry(fms[f].1[i].1) ==>
               fms[f].1[i].1.id != Some(id)
    ensures First(MetaClaims(fms, cs), id).None?
  {
    if fms != [] {
      var n := |fms| - 1;
      NoMetaClaim(fms[..n], cs, id);
      NoMetaClaimOf(fms[n].0, fms[n].1, id);
      FirstConcat(MetaClaims(fms[..n], cs),
                  if ShouldSync(cs, fms[n].0) then MetaClaimsOf(fms[n].0, fms[n].1) else [], id);
    }
  }

  /** An id that is no folder's is no folder entry. */
  lemma {:induction false} NoFolderClaim(fms: Dict<Filemeta>, cs: Option<set<string>>, id: string)
    requires forall f :: 0 <= f < |fms| ==> fms[f].0 != id
    ensures Last(FolderClaims(fms, cs), id).None?
  {
    if fms != [] {
      var n := |fms| - 1;
      NoFolderClaim(fms[..n], cs, id);
      LastConcat(FolderClaims(fms[..n], cs),
                 if ShouldSync(cs, fms[n].0) then [(fms[n].0, FolderEntry(fms[n].0))] else [], id);
    }
  }

  /**
   * For an id that one configured folder alone tracks, index and scan give the
   * same path exactly when that folder tracks it at a single path.
   */
  lemma IndexAgreesWithScan(fms: Dict<Filemeta>, states: Dict<FolderState>, hashes: seq<string>,
                            cs: Option<set<string>>, k: nat, id: string)
    requires k < |states| && ShouldSync(cs, states[k].0) && !Legacy(id) && IsDict(states[k].1)
    requires Scan(states[k].1, id).Some?
    requires forall m :: 0 <= m < |states| && m != k ==> Scan(states[m].1, id).None?
    ensures var entry := Precedence(fms, states, hashes, cs, id);
            && entry.Some? && entry.value.FileEntry?
            && (Scan(states[k].1, id) == Some(entry.value.path) <==>
                forall i, j :: Tracks(states[k].1, i, id) && Tracks(states[k].1, j, id) ==> i == j)
  {
    var state := states[k].1;
    LocalClaimsElsewhere(states, cs, k, id);
    ScanIsFirst(state, id);
    LastLocalOf(states[k].0, state, id);
    var entry := Last(LocalClaimsOf(states[k].0, state), id);
    var i :| Tracks(state, i, id) && state[i].0 == Scan(state, id).value && forall j :: j < i ==> !Tracks(state, j, id);
    var l :| Tracks(state, l, id) && entry.value.path == state[l].0 && forall j :: j > l ==> !Tracks(state, j, id);
    if i < l {
      KeysDistinct(state, i, l);
    }
  }
}
