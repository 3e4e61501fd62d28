/** Small decisions of the source in its own characters and numbers, and that the model makes the same ones. */
module PlainTerms {
  import opened Common
  import opened Filemeta
  import opened Text
  import opened MirrorModel
  import Window = TruncationWindow

  // ----- thresholds and the minute -----

  /** max(n / 10, 25) */
  function MassLimit(n: nat): nat { if n >= 260 then n / 10 else 25 }

  lemma ThresholdIs(n: nat)
    ensures Window.MassChangeThreshold(n) == MassLimit(n)
  {
  }

  /** Truncations in the sixty seconds up to `now`. */
  function InLastMinute(h: seq<Window.Allowed>, now: real): nat { Window.CountIn(h, now - 60.0, now) }

  lemma {:induction false} MinuteIs(h: seq<Window.Allowed>, now: real)
    requires forall i :: 0 <= i < |h| ==> h[i].time <= now
    ensures |Window.Since(h, now - Window.WINDOW)| == InLastMinute(h, now)
  {
    if h != [] {
      var front := h[..|h| - 1];
      MinuteIs(front, now);
      assert front + [h[|h| - 1]] == h;
      Window.SinceAppend(front, h[|h| - 1], now - Window.WINDOW);
    }
  }

  /** Any closed span of sixty seconds holds at most as many truncations as the limit at its last one. */
  lemma MinuteBound(h: seq<Window.Allowed>, start: real, last: nat)
    requires Window.Admitted(h) && last < |h| && start <= h[last].time <= start + 60.0
    requires forall k :: last < k < |h| ==> !(start <= h[k].time <= start + 60.0)
    ensures Window.CountIn(h, start, start + 60.0) <= h[last].limit
  {
    Window.WindowBound(h, start, last);
  }

  // ----- entries and types -----

  /** A dictionary with an id, and a type other than "folder" or none. */
  predicate IsListed(m: Meta) { m.Meta? && m.id.Some? && m.typ != Some("folder") }

  ghost function Listing(fm: Filemeta): set<nat> { set i: nat | i < |fm| && IsListed(fm[i].1) }

  lemma {:induction false} FileCountIs(fm: Filemeta)
    ensures FileCount(fm) == |Listing(fm)|
  {
    if fm == [] {
      assert Listing(fm) == {};
    } else {
      var n := |fm| - 1;
      FileCountIs(fm[..n]);
      assert Listing(fm) == if IsListed(fm[n].1) then Listing(fm[..n]) + {n} else Listing(fm[..n]);
    }
  }

  /** What an emptied document of each kind looks like; a binary file never counts as one. */
  predicate IsEmptied(t: FileType, body: Body) {
    || (t.Document? && body == "")
    || (t.Canvas? && body == "{\n  \"edges\": [],\n  \"nodes\": []\n}")
  }

  lemma EmptiedIs(t: FileType, body: Body)
    ensures IsEmptied(t, body) <==> !t.Binary? && body == EmptyBody(t)
  {
  }

  lemma TypeIs(typ: string)
    ensures TypeOf(typ).Document? <==> typ == "document" || typ == "markdown"
    ensures TypeOf(typ).Canvas? <==> typ == "canvas"
  {
  }

  // ----- git's own files -----

  /** Position `i` is where a component of the path begins. */
  predicate Begins(path: string, i: nat) { i <= |path| && (i == 0 || path[i - 1] == '/') }

  /** Below a directory named ".git". */
  ghost predicate BelowGit(path: string) { exists i: nat :: Begins(path, i) && ".git/" <= path[i..] }

  /** The file's own name begins with ".git". */
  ghost predicate NamedGit(path: string) {
    exists i: nat :: Begins(path, i) && '/' !in path[i..] && ".git" <= path[i..]
  }

  /** Files that count as local ones. */
  ghost predicate IsVisible(path: string) { !BelowGit(path) && !NamedGit(path) }

  lemma {:induction false} FirstSlash(path: string) returns (a: string, b: string)
    requires '/' in path
    ensures path == a + "/" + b && '/' !in a
  {
    if path[0] == '/' {
      a, b := "", path[1..];
    } else {
      a, b := FirstSlash(path[1..]);
      a := [path[0]] + a;
    }
  }

  /** Components after the first one begin where they begin in the rest. */
  lemma RestBegins(a: string, b: string, i: nat)
    requires '/' !in a && i <= |a + "/" + b|
    ensures var path := a + "/" + b;
            if i == 0 then Begins(path, i)
            else if i <= |a| then !Begins(path, i)
            else path[i..] == b[i - |a| - 1..] && (Begins(path, i) <==> Begins(b, i - |a| - 1))
  {
    var path := a + "/" + b;
    if 0 < i <= |a| {
      assert path[i - 1] == a[i - 1];
    }
  }

  lemma FirstIsGit(a: string, b: string)
    requires '/' !in a
    ensures ".git/" <= a + "/" + b <==> a == ".git"
  {
    var path := a + "/" + b;
    if ".git/" <= path {
      assert path[4] == '/' && forall j :: 0 <= j < 4 ==> path[j] != '/';
      assert path[|a|] == '/';
      assert |a| == 4;
      assert a == path[..4] == ".git";
    }
  }

  lemma BelowGitRest(a: string, b: string)
    requires '/' !in a
    ensures BelowGit(a + "/" + b) <==> a == ".git" || BelowGit(b)
  {
    var path := a + "/" + b;
    FirstIsGit(a, b);
    if i: nat :| Begins(path, i) && ".git/" <= path[i..] {
      RestBegins(a, b, i);
      assert path[0..] == path;
      assert i != 0 ==> Begins(b, i - |a| - 1) && ".git/" <= b[i - |a| - 1..];
    }
    if a == ".git" {
      assert path[0..] == path && Begins(path, 0);
    }
    if j: nat :| Begins(b, j) && ".git/" <= b[j..] {
      RestBegins(a, b, j + |a| + 1);
    }
  }

  lemma NamedGitRest(a: string, b: string)
    requires '/' !in a
    ensures NamedGit(a + "/" + b) <==> NamedGit(b)
  {
    var path := a + "/" + b;
    if i: nat :| Begins(path, i) && '/' !in path[i..] && ".git" <= path[i..] {
      RestBegins(a, b, i);
      assert path[0..] == path && path[|a|] == '/';
    }
    if j: nat :| Begins(b, j) && '/' !in b[j..] && ".git" <= b[j..] {
      RestBegins(a, b, j + |a| + 1);
    }
  }

  lemma SplitRest(a: string, b: string)
    requires '/' !in a
    ensures Split(a + "/" + b, '/') == [a] + Split(b, '/')
  {
    SplitConcat(a, b, '/');
    SplitAtom(a, '/');
  }

  lemma GitDirHasSlash(path: string)
    ensures ".git/" <= path ==> '/' in path
  {
    if ".git/" <= path {
      assert path[4] == '/';
    }
  }

  lemma NoSlashBegins(path: string)
    requires '/' !in path
    ensures !BelowGit(path) && (NamedGit(path) <==> ".git" <= path)
  {
    assert path[0..] == path;
    GitDirHasSlash(path);
    if ".git" <= path {
      assert Begins(path, 0) && '/' !in path[0..];
    }
    forall i: nat | Begins(path, i)
      ensures i == 0
    {
    }
  }

  lemma {:induction false} GitDirIs(path: string)
    ensures InGitDir(path) <==> BelowGit(path)
    decreases |path|
  {
    if '/' in path {
      var a, b := FirstSlash(path);
      GitDirIs(b);
      SplitRest(a, b);
      BelowGitRest(a, b);
      GitDirRest(a, Split(b, '/'));
    } else {
      SplitAtom(path, '/');
      NoSlashBegins(path);
    }
  }

  lemma GitDirRest(a: string, rest: seq<string>)
    requires rest != []
    ensures ".git" in ([a] + rest)[..|rest|] <==> a == ".git" || ".git" in rest[..|rest| - 1]
  {
    assert ([a] + rest)[..|rest|] == [a] + rest[..|rest| - 1];
  }

  lemma {:induction false} LastNameIs(path: string)
    ensures var parts := Split(path, '/'); ".git" <= parts[|parts| - 1] <==> NamedGit(path)
    decreases |path|
  {
    if '/' in path {
      var a, b := FirstSlash(path);
      LastNameIs(b);
      SplitRest(a, b);
      NamedGitRest(a, b);
    } else {
      SplitAtom(path, '/');
      NoSlashBegins(path);
    }
  }

  /** The walk counts exactly the visible files. */
  lemma CountedIs(path: string)
    ensures Counted(path) <==> IsVisible(path)
  {
    GitDirIs(path);
    LastNameIs(path);
  }

  /** And the deletion step skips what begins with ".git" or lies below a ".git" directory. */
  lemma SkippedIs(path: string)
    ensures Skipped(path) <==> ".git" <= path || BelowGit(path)
  {
    GitDirIs(path);
  }
}
