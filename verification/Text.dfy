/** Python's `str.split(sep)` and `sep.join(parts)` for a one-character separator. */
module Text {

  function Split(s: string, c: char): (parts: seq<string>)
    ensures |parts| > 0
  {
    if s == "" then [""]
    else
      var rest := Split(s[1..], c);
      if s[0] == c then [""] + rest else [[s[0]] + rest[0]] + rest[1..]
  }

  function Join(parts: seq<string>, c: char): string {
    if parts == [] then ""
    else if |parts| == 1 then parts[0]
    else parts[0] + [c] + Join(parts[1..], c)
  }

  ghost predicate Free(parts: seq<string>, c: char) {
    forall i :: 0 <= i < |parts| ==> c !in parts[i]
  }

  lemma {:induction false} SplitAtom(s: string, c: char)
    requires c !in s
    ensures Split(s, c) == [s]
  {
    if s != "" {
      SplitAtom(s[1..], c);
      assert [s[0]] + s[1..] == s;
    }
  }

  lemma {:induction false} SplitConcat(a: string, b: string, c: char)
    ensures Split(a + [c] + b, c) == Split(a, c) + Split(b, c)
  {
    if a == "" {
      assert a + [c] + b == [c] + b;
      assert ([c] + b)[1..] == b;
    } else {
      var s := a + [c] + b;
      assert s[0] == a[0] && s[1..] == a[1..] + [c] + b;
      SplitConcat(a[1..], b, c);
    }
  }

  /** Splitting undoes joining when no part holds the separator. */
  lemma {:induction false} SplitJoin(parts: seq<string>, c: char)
    requires parts != [] && Free(parts, c)
    ensures Split(Join(parts, c), c) == parts
  {
    SplitAtom(parts[0], c);
    if |parts| > 1 {
      SplitJoin(parts[1..], c);
      SplitConcat(parts[0], Join(parts[1..], c), c);
    }
  }

  lemma {:induction false} SplitIsFree(s: string, c: char)
    ensures Free(Split(s, c), c)
  {
    if s != "" {
      SplitIsFree(s[1..], c);
    }
  }

  lemma {:induction false} JoinConcat(a: seq<string>, b: seq<string>, c: char)
    requires a != [] && b != []
    ensures Join(a + b, c) == Join(a, c) + [c] + Join(b, c)
  {
    if |a| > 1 {
      JoinConcat(a[1..], b, c);
      assert (a + b)[1..] == a[1..] + b;
    } else {
      assert (a + b)[1..] == b;
    }
  }

  /** Joining always undoes splitting. */
  lemma {:induction false} JoinSplit(s: string, c: char)
    ensures Join(Split(s, c), c) == s
  {
    if s != "" {
      JoinSplit(s[1..], c);
      var rest := Split(s[1..], c);
      if s[0] == c {
        assert ([""] + rest)[1..] == rest;
      } else {
        assert ([[s[0]] + rest[0]] + rest[1..])[1..] == rest[1..];
      }
      assert [s[0]] + s[1..] == s;
    }
  }

  lemma {:induction false} SplitCount(s: string, c: char)
    ensures |Split(s, c)| == 1 <==> c !in s
  {
    if s != "" {
      SplitCount(s[1..], c);
    }
  }

  /** A separator inside a part makes the split of the joined string longer than the list of parts. */
  lemma {:induction false} SplitJoinCount(parts: seq<string>, c: char)
    requires parts != []
    ensures |Split(Join(parts, c), c)| >= |parts|
    ensures |Split(Join(parts, c), c)| == |parts| <==> Free(parts, c)
  {
    SplitCount(parts[0], c);
    if |parts| > 1 {
      SplitJoinCount(parts[1..], c);
      SplitConcat(parts[0], Join(parts[1..], c), c);
      assert Free(parts, c) ==> Free(parts[1..], c);
      assert Free(parts[1..], c) && c !in parts[0] ==> Free([parts[0]] + parts[1..], c);
      assert [parts[0]] + parts[1..] == parts;
    }
  }

  function Occurrences(s: string, c: char): nat {
    if s == "" then 0 else (if s[0] == c then 1 else 0) + Occurrences(s[1..], c)
  }

  lemma {:induction false} Occurs(s: string, c: char)
    ensures Occurrences(s, c) > 0 <==> c in s
  {
    if s != "" {
      Occurs(s[1..], c);
    }
  }

  /** There is one part more than there are separators. */
  lemma {:induction false} SplitLength(s: string, c: char)
    ensures |Split(s, c)| == Occurrences(s, c) + 1
  {
    if s != "" {
      SplitLength(s[1..], c);
    }
  }
}
