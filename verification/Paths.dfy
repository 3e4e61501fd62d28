/**
 * `PersistenceManager._sanitize_path` on POSIX strings, with the parts of
 * `os.path` it relies on (`join`, `normpath`) written out.
 */
module Paths {
  import opened Common
  import opened Text

  const SEP := '/'

  function LStrip(s: string): string {
    if s != "" && s[0] == SEP then LStrip(s[1..]) else s
  }

  /** One round of the loop in `posixpath.normpath`. */
  function PushComponent(comps: seq<string>, comp: string, absolute: bool): seq<string> {
    if comp == "" || comp == "." then comps
    else if comp != ".." || (!absolute && comps == []) || (comps != [] && comps[|comps| - 1] == "..") then
      comps + [comp]
    else if comps != [] then comps[..|comps| - 1]
    else comps
  }

  function NormComponents(parts: seq<string>, absolute: bool): seq<string> {
    if parts == [] then []
    else PushComponent(NormComponents(parts[..|parts| - 1], absolute), parts[|parts| - 1], absolute)
  }

  /** `posixpath.normpath`: exactly two leading slashes are kept, any other run becomes one. */
  function NormPath(path: string): string {
    if path == "" then "."
    else
      var absolute := path[0] == SEP;
      var slashes := if !absolute then "" else if "//" <= path && !("///" <= path) then "//" else "/";
      var r := slashes + Join(NormComponents(Split(path, SEP), absolute), SEP);
      if r == "" then "." else r
  }

  /** `os.path.join` of two strings. */
  function PathJoin(a: string, b: string): string {
    if b != "" && b[0] == SEP then b
    else if a == "" || a[|a| - 1] == SEP then a + b
    else a + [SEP] + b
  }

  /** The source's check, step by step; `base` is absolute, so `abspath` is `normpath`. */
  function Sanitize(path: string, base: string): Result<string> {
    if path == "" then Err
    else
      var clean := LStrip(path);
      if ".." in Split(clean, SEP) then Err
      else
        var normalized := NormPath(PathJoin(base, clean));
        var baseAbsolute := NormPath(base);
        if normalized == baseAbsolute then Err
        else if !(baseAbsolute + [SEP] <= normalized) then Err
        else Ok(normalized)
  }

  /** The components of `path` that name something. */
  function Kept(parts: seq<string>): (kept: seq<string>)
    ensures forall i :: 0 <= i < |kept| ==> kept[i] in parts && kept[i] != "" && kept[i] != "."
  {
    if parts == [] then []
    else (if parts[0] == "" || parts[0] == "." then [] else [parts[0]]) + Kept(parts[1..])
  }

  function Named(path: string): seq<string> { Kept(Split(path, SEP)) }

  predicate Accepted(path: string) {
    ".." !in Split(path, SEP) && Named(path) != []
  }

  /** The file a key names, relative to the folder, as `os.walk` would spell it. */
  function Relative(path: string): Option<string> {
    if Accepted(path) then Some(Join(Named(path), SEP)) else None
  }

  /** A normalised absolute directory other than the root. */
  ghost predicate Directory(base: string, comps: seq<string>) {
    && comps != [] && Free(comps, SEP)
    && (forall i :: 0 <= i < |comps| ==> comps[i] != "" && comps[i] != "." && comps[i] != "..")
    && base == [SEP] + Join(comps, SEP)
  }

  lemma {:induction false} KeptConcat(a: seq<string>, b: seq<string>)
    ensures Kept(a + b) == Kept(a) + Kept(b)
  {
    if a == [] {
      assert a + b == b;
    } else {
      assert (a + b)[1..] == a[1..] + b;
      KeptConcat(a[1..], b);
    }
  }

  lemma {:induction false} KeptFixed(a: seq<string>)
    requires forall i :: 0 <= i < |a| ==> a[i] != "" && a[i] != "."
    ensures Kept(a) == a
  {
    if a != [] {
      KeptFixed(a[1..]);
    }
  }

  /** Without a ".." component, normalising is just dropping the empty and "." components. */
  lemma {:induction false} NormIsKept(parts: seq<string>, absolute: bool)
    requires ".." !in parts
    ensures NormComponents(parts, absolute) == Kept(parts)
  {
    if parts != [] {
      var front, last := parts[..|parts| - 1], parts[|parts| - 1];
      assert parts == front + [last];
      NormIsKept(front, absolute);
      KeptConcat(front, [last]);
    }
  }

  lemma {:induction false} StripKeepsMeaning(s: string)
    ensures Named(LStrip(s)) == Named(s)
    ensures ".." in Split(LStrip(s), SEP) <==> ".." in Split(s, SEP)
    ensures LStrip(s) == "" || LStrip(s)[0] != SEP
  {
    if s != "" && s[0] == SEP {
      StripKeepsMeaning(s[1..]);
      assert Split(s, SEP) == [""] + Split(s[1..], SEP);
      KeptConcat([""], Split(s[1..], SEP));
    }
  }

  lemma SplitRooted(rest: string)
    ensures Split([SEP] + rest, SEP) == [""] + Split(rest, SEP)
  {
    assert ([SEP] + rest)[1..] == rest;
  }

  lemma KeptRooted(parts: seq<string>)
    ensures Kept([""] + parts) == Kept(parts)
  {
    KeptConcat([""], parts);
  }

  lemma NormAbsolute(rest: string)
    requires rest != "" && rest[0] != SEP && ".." !in Split(rest, SEP)
    ensures NormPath([SEP] + rest) == [SEP] + Join(Named(rest), SEP)
  {
    var path := [SEP] + rest;
    SplitRooted(rest);
    NormIsKept([""] + Split(rest, SEP), true);
    KeptRooted(Split(rest, SEP));
    assert path[1] != SEP && !("//" <= path);
  }

  lemma NormOfDirectory(base: string, comps: seq<string>)
    requires Directory(base, comps)
    ensures NormPath(base) == base
  {
    var rest := Join(comps, SEP);
    SplitJoin(comps, SEP);
    KeptFixed(comps);
    JoinEnds(comps);
    NormAbsolute(rest);
  }

  lemma {:induction false} JoinEnds(comps: seq<string>)
    requires comps != [] && Free(comps, SEP)
    requires forall i :: 0 <= i < |comps| ==> comps[i] != ""
    ensures var j := Join(comps, SEP); j != "" && j[0] != SEP && j[|j| - 1] != SEP
  {
    if |comps| == 1 {
      assert comps[0][|comps[0]| - 1] in comps[0];
    } else {
      JoinEnds(comps[1..]);
    }
    assert comps[0][0] in comps[0];
  }

  lemma NamedBelow(clean: string, comps: seq<string>)
    requires comps != [] && Free(comps, SEP) && ".." !in Split(clean, SEP)
    requires forall i :: 0 <= i < |comps| ==> comps[i] != "" && comps[i] != "." && comps[i] != ".."
    ensures var rest := Join(comps, SEP) + [SEP] + clean;
            Named(rest) == comps + Named(clean) && ".." !in Split(rest, SEP)
  {
    SplitJoin(comps, SEP);
    SplitConcat(Join(comps, SEP), clean, SEP);
    KeptConcat(comps, Split(clean, SEP));
    KeptFixed(comps);
  }

  /** What the joined path normalises to, before the containment checks. */
  lemma NormOfJoined(clean: string, base: string, comps: seq<string>)
    requires Directory(base, comps) && ".." !in Split(clean, SEP)
    ensures NormPath(base + [SEP] + clean) == [SEP] + Join(comps + Named(clean), SEP)
  {
    var rest := Join(comps, SEP) + [SEP] + clean;
    NamedBelow(clean, comps);
    JoinEnds(comps);
    NormAbsolute(rest);
    assert base + [SEP] + clean == [SEP] + rest;
  }

  lemma CleanJoin(path: string, base: string, comps: seq<string>)
    requires Directory(base, comps)
    ensures PathJoin(base, LStrip(path)) == base + [SEP] + LStrip(path)
  {
    StripKeepsMeaning(path);
    JoinEnds(comps);
    assert base[|base| - 1] == Join(comps, SEP)[|base| - 2];
  }

  lemma ExtendsDirectory(base: string, comps: seq<string>, named: seq<string>)
    requires Directory(base, comps) && named != []
    ensures [SEP] + Join(comps + named, SEP) == base + [SEP] + Join(named, SEP)
  {
    JoinConcat(comps, named, SEP);
  }

  /** The source's answer for a clean path without "..", by the name it has left. */
  lemma SanitizeNamed(path: string, base: string, comps: seq<string>)
    requires Directory(base, comps) && path != "" && ".." !in Split(LStrip(path), SEP)
    ensures Sanitize(path, base) == if Named(LStrip(path)) == [] then Err
                                    else Ok(base + [SEP] + Join(Named(LStrip(path)), SEP))
  {
    var clean := LStrip(path);
    NormOfDirectory(base, comps);
    CleanJoin(path, base, comps);
    NormOfJoined(clean, base, comps);
    if Named(clean) == [] {
      assert comps + Named(clean) == comps;
    } else {
      ExtendsDirectory(base, comps, Named(clean));
    }
  }

  /** A path is accepted exactly when it has no ".." component and names something; the answer is base + named. */
  lemma SanitizeSpec(path: string, base: string, comps: seq<string>)
    requires Directory(base, comps)
    ensures Sanitize(path, base).Ok? <==> Accepted(path)
    ensures Accepted(path) ==> Sanitize(path, base) == Ok([SEP] + Join(comps + Named(path), SEP))
    ensures Accepted(path) ==> Sanitize(path, base) == Ok(base + [SEP] + Relative(path).value)
  {
    if path == "" {
      assert Split(path, SEP) == [""] && Kept([""][1..]) == [];
    } else {
      StripKeepsMeaning(path);
      if ".." !in Split(LStrip(path), SEP) {
        SanitizeNamed(path, base, comps);
        if Named(path) != [] {
          ExtendsDirectory(base, comps, Named(path));
        }
      }
    }
  }

  lemma NamedIsFree(path: string)
    ensures Free(Named(path), SEP)
  {
    SplitIsFree(path, SEP);
  }

  /** Two accepted paths name the same file iff they agree after dropping "" and "." components. */
  lemma SameFile(p: string, q: string, base: string, comps: seq<string>)
    requires Directory(base, comps) && Accepted(p) && Accepted(q)
    ensures Sanitize(p, base) == Sanitize(q, base) <==> Named(p) == Named(q)
    ensures Relative(p) == Relative(q) <==> Named(p) == Named(q)
  {
    SanitizeSpec(p, base, comps);
    SanitizeSpec(q, base, comps);
    NamedIsFree(p);
    NamedIsFree(q);
    SplitJoin(Named(p), SEP);
    SplitJoin(Named(q), SEP);
    if Sanitize(p, base) == Sanitize(q, base) {
      var a, b := Relative(p).value, Relative(q).value;
      assert (base + [SEP] + a)[|base| + 1..] == a;
      assert (base + [SEP] + b)[|base| + 1..] == b;
    }
  }

  /** A relative name is already in normal form, with or without one leading slash. */
  lemma RelativeIsCanonical(path: string)
    requires Accepted(path)
    ensures var r := Relative(path).value; Relative(r) == Some(r) && Relative([SEP] + r) == Some(r)
  {
    var n := Named(path);
    var r := Join(n, SEP);
    NamedIsFree(path);
    SplitJoin(n, SEP);
    KeptFixed(n);
    SplitRooted(r);
    KeptRooted(n);
  }
}
