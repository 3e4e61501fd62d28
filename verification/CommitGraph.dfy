/** Git history as a growing list of commits; a commit's parents come before it. */
module CommitGraph {

  /** `change` names what the commit adds to the contents. */
  datatype Commit = Commit(parents: seq<nat>, change: nat)

  type Graph = seq<Commit>

  ghost predicate WellFormed(g: Graph) {
    forall c, i :: 0 <= c < |g| && 0 <= i < |g[c].parents| ==> g[c].parents[i] < c
  }

  /** `a` is `b` or one of its ancestors. */
  predicate Ancestor(g: Graph, a: nat, b: nat)
    requires WellFormed(g) && b < |g|
    decreases b
  {
    a == b || exists i :: 0 <= i < |g[b].parents| && Ancestor(g, a, g[b].parents[i])
  }

  lemma {:induction false} AncestorTransitive(g: Graph, a: nat, b: nat, c: nat)
    requires WellFormed(g) && b < |g| && c < |g| && Ancestor(g, a, b) && Ancestor(g, b, c)
    ensures Ancestor(g, a, c)
    decreases c
  {
    if b != c {
      var i :| 0 <= i < |g[c].parents| && Ancestor(g, b, g[c].parents[i]);
      AncestorTransitive(g, a, b, g[c].parents[i]);
    }
  }

  lemma {:induction false} AncestorBelow(g: Graph, a: nat, b: nat)
    requires WellFormed(g) && b < |g| && Ancestor(g, a, b)
    ensures a <= b
    decreases b
  {
    if a != b {
      var i :| 0 <= i < |g[b].parents| && Ancestor(g, a, g[b].parents[i]);
      AncestorBelow(g, a, g[b].parents[i]);
    }
  }

  /** New commits change nothing about the old ones. */
  lemma {:induction false} AncestorStable(g: Graph, h: Graph, a: nat, b: nat)
    requires WellFormed(g) && WellFormed(h) && g <= h && b < |g|
    ensures Ancestor(g, a, b) <==> Ancestor(h, a, b)
    decreases b
  {
    forall i | 0 <= i < |g[b].parents|
      ensures Ancestor(g, a, g[b].parents[i]) <==> Ancestor(h, a, h[b].parents[i])
    {
      AncestorStable(g, h, a, g[b].parents[i]);
    }
  }

  lemma AppendWellFormed(g: Graph, c: Commit)
    requires WellFormed(g) && forall i :: 0 <= i < |c.parents| ==> c.parents[i] < |g|
    ensures WellFormed(g + [c]) && g <= g + [c]
  {
  }

  /** A walk from `b` to `a`, from each commit to one of its parents. */
  ghost predicate Walk(g: Graph, path: seq<nat>, a: nat, b: nat)
    requires WellFormed(g)
  {
    && path != [] && path[0] == b && path[|path| - 1] == a
    && (forall i :: 0 <= i < |path| ==> path[i] < |g|)
    && forall i :: 0 < i < |path| ==> path[i] in g[path[i - 1]].parents
  }

  lemma {:induction false} WalkIsAncestor(g: Graph, path: seq<nat>, a: nat, b: nat)
    requires WellFormed(g) && Walk(g, path, a, b)
    ensures Ancestor(g, a, b)
    decreases |path|
  {
    if |path| > 1 {
      var i :| 0 <= i < |g[b].parents| && g[b].parents[i] == path[1];
      WalkIsAncestor(g, path[1..], a, path[1]);
    }
  }

  lemma {:induction false} AncestorHasWalk(g: Graph, a: nat, b: nat) returns (path: seq<nat>)
    requires WellFormed(g) && b < |g| && Ancestor(g, a, b)
    ensures Walk(g, path, a, b)
    decreases b
  {
    if a == b {
      path := [b];
    } else {
      var i :| 0 <= i < |g[b].parents| && Ancestor(g, a, g[b].parents[i]);
      path := AncestorHasWalk(g, a, g[b].parents[i]);
      path := [b] + path;
    }
  }

  /** Ancestors are what a walk over parents reaches. */
  lemma AncestorIff(g: Graph, a: nat, b: nat)
    requires WellFormed(g) && b < |g|
    ensures Ancestor(g, a, b) <==> exists path :: Walk(g, path, a, b)
  {
    if Ancestor(g, a, b) {
      var path := AncestorHasWalk(g, a, b);
    }
    if path :| Walk(g, path, a, b) {
      WalkIsAncestor(g, path, a, b);
    }
  }
}
