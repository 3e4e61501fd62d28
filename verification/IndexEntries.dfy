/** What the resource index says of an id, in terms of the recorded entries: which, of what type, and for whom. */
module IndexEntries {
  import opened Common
  import opened Dict
  import opened Filemeta
  import opened Text
  import opened ResourceIndex

  // ----- characters -----

  /** Ids with five dashes or more are compound ids from older versions. */
  lemma LegacyIs(id: string)
    ensures Legacy(id) <==> Occurrences(id, '-') >= 5
  {
    SplitLength(id, '-');
    Occurs(id, '-');
  }

  /** The character without its ASCII case. */
  function Folded(c: char): char { if 'A' <= c <= 'Z' then c + (32 as char) else c }

  lemma {:induction false} LowerIs(s: string)
    ensures |Lower(s)| == |s| && forall i :: 0 <= i < |s| ==> Lower(s)[i] == Folded(s[i])
  {
    if s != "" {
      LowerIs(s[1..]);
    }
  }

  /** The path ends with the suffix in any case. */
  predicate HasSuffix(path: string, suffix: string) {
    |path| >= |suffix| && forall i :: 0 <= i < |suffix| ==> Folded(path[|path| - |suffix| + i]) == suffix[i]
  }

  lemma SuffixIs(path: string, suffix: string)
    ensures EndsWith(Lower(path), suffix) <==> HasSuffix(path, suffix)
  {
    LowerIs(path);
    if |path| >= |suffix| {
      var tail := Lower(path)[|path| - |suffix|..];
      assert forall i :: 0 <= i < |suffix| ==> tail[i] == Folded(path[|path| - |suffix| + i]);
    }
  }

  /** The stored type, or what the extension suggests when there is none. */
  lemma TypeIs(path: string, info: FileInfo)
    requires info.Info?
    ensures LocalType(path, info) ==
            if info.typ.Some? && info.typ.value != "" then info.typ.value
            else if HasSuffix(path, ".canvas") then "canvas"
            else if HasSuffix(path, ".md") || HasSuffix(path, ".txt") || HasSuffix(path, ".json") then "document"
            else "file"
  {
    SuffixIs(path, ".canvas");
    SuffixIs(path, ".md");
    SuffixIs(path, ".txt");
    SuffixIs(path, ".json");
  }

  // ----- the recorded entries -----

  /** No connector is configured at all, or this folder is. */
  predicate IsConfigured(cs: Option<set<string>>, folder: string) { cs == None || folder in cs.value }

  lemma ConfiguredIs(cs: Option<set<string>>, folder: string)
    ensures ShouldSync(cs, folder) <==> IsConfigured(cs, folder)
  {
  }

  /** Entry `i` of a configured folder's tracked state is the document's. */
  ghost predicate TrackedAt(states: Dict<FolderState>, cs: Option<set<string>>, id: string, f: int, i: int) {
    && 0 <= f < |states| && IsConfigured(cs, states[f].0)
    && 0 <= i < |states[f].1| && states[f].1[i].1.Info? && states[f].1[i].1.docId == Some(id)
  }

  /** And it is the last such entry. */
  ghost predicate LastTracked(states: Dict<FolderState>, cs: Option<set<string>>, id: string, f: int, i: int) {
    && TrackedAt(states, cs, id, f, i)
    && forall g, j :: TrackedAt(states, cs, id, g, j) ==> g < f || (g == f && j <= i)
  }

  function EntryFor(states: Dict<FolderState>, f: int, i: int): Entry
    requires 0 <= f < |states| && 0 <= i < |states[f].1| && states[f].1[i].1.Info?
  {
    FileEntry(LocalType(states[f].1[i].0, states[f].1[i].1), states[f].0, states[f].1[i].0)
  }

  /** `l` is the entry for the last place the document is tracked at, if there is one. */
  ghost predicate SaysTracked(states: Dict<FolderState>, cs: Option<set<string>>, id: string, l: Option<Entry>) {
    if l.None? then forall f, i :: !TrackedAt(states, cs, id, f, i)
    else exists f, i :: LastTracked(states, cs, id, f, i) && l.value == EntryFor(states, f, i)
  }

  lemma {:induction false} TrackedIsLast(states: Dict<FolderState>, cs: Option<set<string>>, id: string)
    requires !Legacy(id)
    ensures SaysTracked(states, cs, id, Last(LocalClaims(states, cs), id))
  {
    if states != [] {
      var n := |states| - 1;
      var own := if ShouldSync(cs, states[n].0) then LocalClaimsOf(states[n].0, states[n].1) else [];
      TrackedIsLast(states[..n], cs, id);
      LastConcat(LocalClaims(states[..n], cs), own, id);
      LastLocalOf(states[n].0, states[n].1, id);
      if Last(own, id).Some? {
        TrackedInLast(states, cs, id);
      } else {
        TrackedInFront(states, cs, id, Last(LocalClaims(states[..n], cs), id));
      }
    }
  }

  lemma TrackedInLast(states: Dict<FolderState>, cs: Option<set<string>>, id: string)
    requires !Legacy(id) && states != []
    requires var n := |states| - 1;
             ShouldSync(cs, states[n].0) && Last(LocalClaimsOf(states[n].0, states[n].1), id).Some?
    ensures var n := |states| - 1; SaysTracked(states, cs, id, Last(LocalClaimsOf(states[n].0, states[n].1), id))
  {
    var n := |states| - 1;
    var (folder, state) := states[n];
    var l := Last(LocalClaimsOf(folder, state), id);
    LastLocalOf(folder, state, id);
    var i :| Tracks(state, i, id) && l.value == FileEntry(LocalType(state[i].0, state[i].1), folder, state[i].0)
             && forall j :: j > i ==> !Tracks(state, j, id);
    FrontTracked(states, cs, id);
    assert LastTracked(states, cs, id, n, i);
  }

  lemma TrackedInFront(states: Dict<FolderState>, cs: Option<set<string>>, id: string, l: Option<Entry>)
    requires states != [] && SaysTracked(states[..|states| - 1], cs, id, l)
    requires var n := |states| - 1; IsConfigured(cs, states[n].0) ==> forall i :: !Tracks(states[n].1, i, id)
    ensures SaysTracked(states, cs, id, l)
  {
    var front := states[..|states| - 1];
    FrontTracked(states, cs, id);
    if l.Some? {
      var f, i :| LastTracked(front, cs, id, f, i) && l.value == EntryFor(front, f, i);
      assert LastTracked(states, cs, id, f, i);
    }
  }

  lemma FrontTracked(states: Dict<FolderState>, cs: Option<set<string>>, id: string)
    requires states != []
    ensures forall f, i :: TrackedAt(states, cs, id, f, i) <==>
              TrackedAt(states[..|states| - 1], cs, id, f, i)
              || (f == |states| - 1 && IsConfigured(cs, states[f].0) && Tracks(states[f].1, i, id))
  {
  }

  /** Entry `i` of a configured folder's filemeta mentions the id, and is no folder. */
  ghost predicate MentionedAt(fms: Dict<Filemeta>, cs: Option<set<string>>, id: string, f: int, i: int) {
    && 0 <= f < |fms| && IsConfigured(cs, fms[f].0) && MentionedIn(fms[f].1, id, i)
  }

  predicate MentionedIn(fm: Filemeta, id: string, i: int) {
    && 0 <= i < |fm| && fm[i].1.Meta? && fm[i].1.id == Some(id) && fm[i].1.typ != Some("folder")
  }

  ghost predicate FirstMentioned(fms: Dict<Filemeta>, cs: Option<set<string>>, id: string, f: int, i: int) {
    && MentionedAt(fms, cs, id, f, i)
    && forall g, j :: MentionedAt(fms, cs, id, g, j) ==> f < g || (f == g && i <= j)
  }

  /** A type that is not recorded is "document". */
  function MentionFor(folder: string, fm: Filemeta, i: int): Entry
    requires 0 <= i < |fm| && fm[i].1.Meta?
  {
    FileEntry(if fm[i].1.typ.Some? then fm[i].1.typ.value else "document", folder, fm[i].0)
  }

  lemma {:induction false} MentionedInFirst(folder: string, fm: Filemeta, id: string)
    requires !Legacy(id)
    ensures var e := First(MetaClaimsOf(folder, fm), id);
            && (e.None? ==> forall i :: !MentionedIn(fm, id, i))
            && (e.Some? ==> exists i :: MentionedIn(fm, id, i) && e.value == MentionFor(folder, fm, i)
                                        && forall j :: j < i ==> !MentionedIn(fm, id, j))
  {
    if fm != [] {
      var n := |fm| - 1;
      var own := MetaClaimsOf(folder, fm)[|MetaClaimsOf(folder, fm[..n])|..];
      MentionedInFirst(folder, fm[..n], id);
      assert MetaClaimsOf(folder, fm) == MetaClaimsOf(folder, fm[..n]) + own;
      FirstConcat(MetaClaimsOf(folder, fm[..n]), own, id);
      assert own != [] ==> Get(own[1..], id).None?;
      assert forall i :: MentionedIn(fm, id, i) <==> MentionedIn(fm[..n], id, i) || (i == n && MentionedIn(fm, id, n));
      var e := First(MetaClaimsOf(folder, fm[..n]), id);
      if e.Some? {
        var i :| MentionedIn(fm[..n], id, i) && e.value == MentionFor(folder, fm[..n], i)
                 && forall j :: j < i ==> !MentionedIn(fm[..n], id, j);
        assert MentionedIn(fm, id, i);
      } else if MentionedIn(fm, id, n) {
        assert First(own, id) == Some(MentionFor(folder, fm, n));
      }
    }
  }

  lemma {:induction false} MentionedIsFirst(fms: Dict<Filemeta>, cs: Option<set<string>>, id: string)
    requires !Legacy(id)
    ensures var e := First(MetaClaims(fms, cs), id);
            && (e.None? ==> forall f, i :: !MentionedAt(fms, cs, id, f, i))
            && (e.Some? ==> exists f, i :: FirstMentioned(fms, cs, id, f, i)
                                           && e.value == MentionFor(fms[f].0, fms[f].1, i))
  {
    if fms != [] {
      var n := |fms| - 1;
      var own := if ShouldSync(cs, fms[n].0) then MetaClaimsOf(fms[n].0, fms[n].1) else [];
      MentionedIsFirst(fms[..n], cs, id);
      MentionedInFirst(fms[n].0, fms[n].1, id);
      FirstConcat(MetaClaims(fms[..n], cs), own, id);
      FrontMentioned(fms, cs, id);
      if First(MetaClaims(fms[..n], cs), id).Some? {
        var f, i :| FirstMentioned(fms[..n], cs, id, f, i)
                    && First(MetaClaims(fms[..n], cs), id).value == MentionFor(fms[..n][f].0, fms[..n][f].1, i);
        assert FirstMentioned(fms, cs, id, f, i);
      } else if First(own, id).Some? {
        var i :| MentionedIn(fms[n].1, id, i) && First(own, id).value == MentionFor(fms[n].0, fms[n].1, i)
                 && forall j :: j < i ==> !MentionedIn(fms[n].1, id, j);
        assert FirstMentioned(fms, cs, id, n, i);
      }
    }
  }

  lemma FrontMentioned(fms: Dict<Filemeta>, cs: Option<set<string>>, id: string)
    requires fms != []
    ensures forall f, i :: MentionedAt(fms, cs, id, f, i) <==>
              MentionedAt(fms[..|fms| - 1], cs, id, f, i)
              || (f == |fms| - 1 && IsConfigured(cs, fms[f].0) && MentionedIn(fms[f].1, id, i))
  {
  }

  ghost predicate IsFolderId(fms: Dict<Filemeta>, cs: Option<set<string>>, id: string) {
    exists f :: 0 <= f < |fms| && fms[f].0 == id && IsConfigured(cs, id)
  }

  lemma {:induction false} FolderIs(fms: Dict<Filemeta>, cs: Option<set<string>>, id: string)
    ensures Last(FolderClaims(fms, cs), id) == if IsFolderId(fms, cs, id) then Some(FolderEntry(id)) else None
  {
    if fms != [] {
      var n := |fms| - 1;
      FolderIs(fms[..n], cs, id);
      LastConcat(FolderClaims(fms[..n], cs),
                 if ShouldSync(cs, fms[n].0) then [(fms[n].0, FolderEntry(fms[n].0))] else [], id);
      assert IsFolderId(fms, cs, id) <==> IsFolderId(fms[..n], cs, id) || (fms[n].0 == id && IsConfigured(cs, id));
    }
  }

  // ----- the whole answer -----

  lemma {:induction false} LegacyLocalOf(folder: string, state: FolderState, id: string)
    requires Legacy(id)
    ensures Last(LocalClaimsOf(folder, state), id).None?
  {
    if state != [] {
      var front := LocalClaimsOf(folder, state[..|state| - 1]);
      LegacyLocalOf(folder, state[..|state| - 1], id);
      LastConcat(front, LocalClaimsOf(folder, state)[|front|..], id);
      assert LocalClaimsOf(folder, state) == front + LocalClaimsOf(folder, state)[|front|..];
    }
  }

  lemma {:induction false} LegacyLocals(states: Dict<FolderState>, cs: Option<set<string>>, id: string)
    requires Legacy(id)
    ensures Last(LocalClaims(states, cs), id).None?
  {
    if states != [] {
      var n := |states| - 1;
      LegacyLocals(states[..n], cs, id);
      LegacyLocalOf(states[n].0, states[n].1, id);
      LastConcat(LocalClaims(states[..n], cs),
                 if ShouldSync(cs, states[n].0) then LocalClaimsOf(states[n].0, states[n].1) else [], id);
    }
  }

  lemma {:induction false} LegacyMetaOf(folder: string, fm: Filemeta, id: string)
    requires Legacy(id)
    ensures First(MetaClaimsOf(folder, fm), id).None?
  {
    if fm != [] {
      var front := MetaClaimsOf(folder, fm[..|fm| - 1]);
      var own := MetaClaimsOf(folder, fm)[|front|..];
      LegacyMetaOf(folder, fm[..|fm| - 1], id);
      FirstConcat(front, own, id);
      assert MetaClaimsOf(folder, fm) == front + own;
      assert own != [] ==> own[0].0 != id && Get(own[1..], id).None?;
    }
  }

  lemma {:induction false} LegacyMetas(fms: Dict<Filemeta>, cs: Option<set<string>>, id: string)
    requires Legacy(id)
    ensures First(MetaClaims(fms, cs), id).None?
  {
    if fms != [] {
      var n := |fms| - 1;
      LegacyMetas(fms[..n], cs, id);
      LegacyMetaOf(fms[n].0, fms[n].1, id);
      FirstConcat(MetaClaims(fms[..n], cs),
                  if ShouldSync(cs, fms[n].0) then MetaClaimsOf(fms[n].0, fms[n].1) else [], id);
    }
  }

  ghost predicate IsTracked(states: Dict<FolderState>, cs: Option<set<string>>, id: string) {
    Occurrences(id, '-') < 5 && exists f, i :: TrackedAt(states, cs, id, f, i)
  }

  ghost predicate IsMentioned(fms: Dict<Filemeta>, cs: Option<set<string>>, id: string) {
    Occurrences(id, '-') < 5 && exists f, i :: MentionedAt(fms, cs, id, f, i)
  }

  /** A tracked document is answered by the last place it is tracked at. */
  lemma TrackedAnswer(fms: Dict<Filemeta>, states: Dict<FolderState>, hashes: seq<string>, cs: Option<set<string>>,
                      id: string, f: int, i: int)
    requires Occurrences(id, '-') < 5 && LastTracked(states, cs, id, f, i)
    ensures Precedence(fms, states, hashes, cs, id) == Some(EntryFor(states, f, i))
  {
    LegacyIs(id);
    TrackedIsLast(states, cs, id);
    var l := Last(LocalClaims(states, cs), id);
    var g, j :| LastTracked(states, cs, id, g, j) && l.value == EntryFor(states, g, j);
    assert TrackedAt(states, cs, id, g, j) && TrackedAt(states, cs, id, f, i);
  }

  lemma NotTracked(states: Dict<FolderState>, cs: Option<set<string>>, id: string)
    requires !IsTracked(states, cs, id)
    ensures Last(LocalClaims(states, cs), id).None?
  {
    LegacyIs(id);
    if Legacy(id) {
      LegacyLocals(states, cs, id);
    } else {
      TrackedIsLast(states, cs, id);
    }
  }

  lemma NotMentioned(fms: Dict<Filemeta>, cs: Option<set<string>>, id: string)
    requires !IsMentioned(fms, cs, id)
    ensures First(MetaClaims(fms, cs), id).None?
  {
    LegacyIs(id);
    if Legacy(id) {
      LegacyMetas(fms, cs, id);
    } else {
      MentionedIsFirst(fms, cs, id);
    }
  }

  /** An untracked id that is a folder's is answered by the folder. */
  lemma FolderAnswer(fms: Dict<Filemeta>, states: Dict<FolderState>, hashes: seq<string>, cs: Option<set<string>>,
                     id: string)
    requires !IsTracked(states, cs, id) && IsFolderId(fms, cs, id)
    ensures Precedence(fms, states, hashes, cs, id) == Some(FolderEntry(id))
  {
    NotTracked(states, cs, id);
    FolderIs(fms, cs, id);
  }

  /** Else by the first place a filemeta mentions it. */
  lemma MentionedAnswer(fms: Dict<Filemeta>, states: Dict<FolderState>, hashes: seq<string>, cs: Option<set<string>>,
                        id: string, f: int, i: int)
    requires !IsTracked(states, cs, id) && !IsFolderId(fms, cs, id)
    requires Occurrences(id, '-') < 5 && FirstMentioned(fms, cs, id, f, i)
    ensures Precedence(fms, states, hashes, cs, id) == Some(MentionFor(fms[f].0, fms[f].1, i))
  {
    LegacyIs(id);
    NotTracked(states, cs, id);
    FolderIs(fms, cs, id);
    MentionedIsFirst(fms, cs, id);
    var e := First(MetaClaims(fms, cs), id);
    var g, j :| FirstMentioned(fms, cs, id, g, j) && e.value == MentionFor(fms[g].0, fms[g].1, j);
    assert MentionedAt(fms, cs, id, g, j) && MentionedAt(fms, cs, id, f, i);
  }

  /** Else only a known hash is left, for an id that is no compound one, when no connector is configured. */
  lemma RemainingAnswer(fms: Dict<Filemeta>, states: Dict<FolderState>, hashes: seq<string>, cs: Option<set<string>>,
                        id: string)
    requires !IsTracked(states, cs, id) && !IsFolderId(fms, cs, id) && !IsMentioned(fms, cs, id)
    ensures Precedence(fms, states, hashes, cs, id) ==
            if cs == None && id in hashes && Occurrences(id, '-') < 5 then Some(Standalone) else None
  {
    LegacyIs(id);
    NotTracked(states, cs, id);
    FolderIs(fms, cs, id);
    NotMentioned(fms, cs, id);
  }
}
