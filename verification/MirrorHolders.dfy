/**
 * Whose bytes stand where after the renames, for any plan: two keys may name one
 * file ("a" and "/a"), and then a rename can land on another's bytes.
 */
module MirrorHolders {
  import opened Common
  import opened MirrorModel
  import opened MirrorFrames
  import opened MirrorPhases
  import opened MirrorPresence

  /** The files once the creates are done: the old ones, and those whose body arrived. */
  function Origins(w: World, ops: seq<Op>, env: Env): set<string> {
    w.tree.Keys
    + set i | 0 <= i < |ops| && ops[i].kind.Create? && WriteBody(ops[i], 0, env).Some? :: Rel(ops[i])
  }

  function HolderStep(h: map<string, string>, op: Op): map<string, string> {
    if op.kind.Rename? && Source(op).Some? && Source(op).value in h then
      (h - {Source(op).value})[Rel(op) := h[Source(op).value]]
    else h
  }

  /** At each path after `n` renames, the file whose bytes it has. */
  function Holders(w: World, ops: seq<Op>, env: Env, n: nat): map<string, string>
    requires n <= |ops|
  {
    if n == 0 then map p | p in Origins(w, ops, env) :: p else HolderStep(Holders(w, ops, env, n - 1), ops[n - 1])
  }

  // ----- the files after the creates -----

  /** A create among the first `n` that gets a body for `p`. */
  ghost predicate CreatedBy(ops: seq<Op>, env: Env, n: nat, p: string)
    requires n <= |ops|
  {
    exists i :: 0 <= i < n && ops[i].kind.Create? && WriteBody(ops[i], 0, env).Some? && Rel(ops[i]) == p
  }

  lemma {:induction false} CreatedSoFar(w: World, ops: seq<Op>, env: Env, n: nat, p: string)
    requires AllPlanned(w, ops) && n <= |ops|
    ensures p in Run(Start(w, ops), Creating, env, n).w.tree <==> p in w.tree || CreatedBy(ops, env, n, p)
  {
    if n > 0 {
      CreatedSoFar(w, ops, env, n - 1, p);
      CreateStep(w, ops, env, n - 1, p);
      CreatedByOneMore(ops, env, n, p);
    }
  }

  lemma CreateStep(w: World, ops: seq<Op>, env: Env, i: nat, p: string)
    requires AllPlanned(w, ops) && i < |ops|
    ensures p in Run(Start(w, ops), Creating, env, i + 1).w.tree <==>
            p in Run(Start(w, ops), Creating, env, i).w.tree
            || (ops[i].kind.Create? && WriteBody(ops[i], 0, env).Some? && Rel(ops[i]) == p)
  {
    RunLeaves(Start(w, ops), Creating, env, i, i);
    assert PlannedOp(w, ops[i]);
  }

  lemma CreatedByOneMore(ops: seq<Op>, env: Env, n: nat, p: string)
    requires 0 < n <= |ops|
    ensures CreatedBy(ops, env, n, p) <==>
            CreatedBy(ops, env, n - 1, p)
            || (ops[n - 1].kind.Create? && WriteBody(ops[n - 1], 0, env).Some? && Rel(ops[n - 1]) == p)
  {
  }

  lemma OriginsStand(w: World, ops: seq<Op>, env: Env, p: string)
    requires AllPlanned(w, ops)
    ensures p in AfterCreates(w, ops, env).w.tree <==> p in Origins(w, ops, env)
  {
    CreatedSoFar(w, ops, env, |ops|, p);
  }

  // ----- renames move bytes along -----

  /** At `l` stand the bytes of its holder, if it has one. */
  predicate Matches(t: Tree, origin: Tree, h: map<string, string>, l: string) {
    if l in h then h[l] in origin && l in t && t[l] == origin[h[l]] else l !in t
  }

  ghost predicate MatchesAfter(w: World, ops: seq<Op>, env: Env, n: nat, l: string)
    requires n <= |ops|
  {
    Matches(AfterRenames(w, ops, env, n).tree, AfterCreates(w, ops, env).w.tree, Holders(w, ops, env, n), l)
  }

  lemma OriginsMatch(w: World, ops: seq<Op>, env: Env, l: string)
    requires AllPlanned(w, ops)
    ensures MatchesAfter(w, ops, env, 0, l)
  {
    OriginsStand(w, ops, env, l);
  }

  lemma RenameMatches(w: World, ops: seq<Op>, env: Env, i: nat, l: string)
    requires AllPlanned(w, ops) && i < |ops| && ops[i].kind.Rename? && MatchesAfter(w, ops, env, i, l)
    requires Source(ops[i]).Some? ==> MatchesAfter(w, ops, env, i, Source(ops[i]).value)
    ensures MatchesAfter(w, ops, env, i + 1, l)
  {
    RenameStep(w, ops, env, i);
    if Source(ops[i]).Some? {
      MovedMatches(AfterRenames(w, ops, env, i), AfterCreates(w, ops, env).w.tree, Holders(w, ops, env, i), ops[i], l);
    }
  }

  lemma {:induction false} HoldersStand(w: World, ops: seq<Op>, env: Env, n: nat, l: string)
    requires AllPlanned(w, ops) && n <= |ops|
    ensures MatchesAfter(w, ops, env, n, l)
  {
    if n == 0 {
      OriginsMatch(w, ops, env, l);
    } else {
      HoldersStand(w, ops, env, n - 1, l);
      if ops[n - 1].kind.Rename? {
        if Source(ops[n - 1]).Some? {
          HoldersStand(w, ops, env, n - 1, Source(ops[n - 1]).value);
        }
        RenameMatches(w, ops, env, n - 1, l);
      } else {
        OtherStep(w, ops, env, n - 1);
      }
    }
  }

  lemma MovedMatches(r: World, origin: Tree, h: map<string, string>, op: Op, l: string)
    requires op.kind.Rename? && Source(op).Some?
    requires Matches(r.tree, origin, h, l) && Matches(r.tree, origin, h, Source(op).value)
    ensures Matches(Moved(r, op.fromPath, Source(op).value, op.path, Rel(op)).tree, origin, HolderStep(h, op), l)
  {
  }

  lemma OtherStep(w: World, ops: seq<Op>, env: Env, i: nat)
    requires AllPlanned(w, ops) && i < |ops| && !ops[i].kind.Rename?
    ensures AfterRenames(w, ops, env, i + 1) == AfterRenames(w, ops, env, i)
  {
    RunLeaves(AfterCreates(w, ops, env), Renaming, env, i, i);
    RenameSelection(w, ops, env, i);
  }

  /** No file's bytes stand at two paths. */
  lemma {:induction false} HoldersDistinct(w: World, ops: seq<Op>, env: Env, n: nat, l: string, m: string)
    requires n <= |ops| && l != m && l in Holders(w, ops, env, n) && m in Holders(w, ops, env, n)
    ensures Holders(w, ops, env, n)[l] != Holders(w, ops, env, n)[m]
  {
    if n > 0 {
      var (h, op) := (Holders(w, ops, env, n - 1), ops[n - 1]);
      var moves := op.kind.Rename? && Source(op).Some? && Source(op).value in h;
      var from := p => if moves && p == Rel(op) then Source(op).value else p;
      HoldersDistinct(w, ops, env, n - 1, from(l), from(m));
    }
  }

  // ----- what is overwritten -----

  /** Where the bytes of `p` are after the first `n` renames, unless they were overwritten. */
  function Location(ops: seq<Op>, n: nat, p: string): string
    requires n <= |ops|
  {
    if n == 0 then p
    else
      var l := Location(ops, n - 1, p);
      if ops[n - 1].kind.Rename? && Source(ops[n - 1]) == Some(l) then Rel(ops[n - 1]) else l
  }

  /** Rename `k` brings another file's bytes to where the bytes of `p` are. */
  predicate Overwrites(w: World, ops: seq<Op>, env: Env, k: nat, p: string)
    requires k < |ops|
  {
    var (h, op) := (Holders(w, ops, env, k), ops[k]);
    && op.kind.Rename? && Source(op).Some? && Source(op).value in h && Source(op).value != Rel(op)
    && Rel(op) in h && h[Rel(op)] == p
  }

  ghost predicate Survives(w: World, ops: seq<Op>, env: Env, n: nat, p: string)
    requires n <= |ops|
  {
    forall k :: 0 <= k < n ==> !Overwrites(w, ops, env, k, p)
  }

  lemma {:induction false} HeldAtLocation(w: World, ops: seq<Op>, env: Env, n: nat, p: string)
    requires n <= |ops| && p in Origins(w, ops, env) && Survives(w, ops, env, n, p)
    ensures Location(ops, n, p) in Holders(w, ops, env, n) && Holders(w, ops, env, n)[Location(ops, n, p)] == p
  {
    if n > 0 {
      HeldAtLocation(w, ops, env, n - 1, p);
      assert !Overwrites(w, ops, env, n - 1, p);
    }
  }

  /** The path from which a rename step takes what it leaves at `l`. */
  function From(h: map<string, string>, op: Op, l: string): string {
    if op.kind.Rename? && Source(op).Some? && Source(op).value in h && l == Rel(op) then Source(op).value else l
  }

  lemma StepTakesFrom(h: map<string, string>, op: Op, l: string)
    requires l in HolderStep(h, op)
    ensures From(h, op, l) in h && HolderStep(h, op)[l] == h[From(h, op, l)]
  {
  }

  lemma OverwrittenNow(w: World, ops: seq<Op>, env: Env, k: nat, p: string, l: string)
    requires k < |ops| && Overwrites(w, ops, env, k, p) && l in Holders(w, ops, env, k + 1)
    ensures Holders(w, ops, env, k + 1)[l] != p
  {
    var h := Holders(w, ops, env, k);
    StepTakesFrom(h, ops[k], l);
    HoldersDistinct(w, ops, env, k, From(h, ops[k], l), Rel(ops[k]));
  }

  lemma {:induction false} OverwrittenIsGone(w: World, ops: seq<Op>, env: Env, k: nat, n: nat, p: string, l: string)
    requires k < n <= |ops| && Overwrites(w, ops, env, k, p) && l in Holders(w, ops, env, n)
    ensures Holders(w, ops, env, n)[l] != p
    decreases n
  {
    if k < n - 1 {
      var h := Holders(w, ops, env, n - 1);
      StepTakesFrom(h, ops[n - 1], l);
      OverwrittenIsGone(w, ops, env, k, n - 1, p, From(h, ops[n - 1], l));
    } else {
      OverwrittenNow(w, ops, env, k, p, l);
    }
  }

  /** The bytes of a file are somewhere after the renames if and only if no rename overwrote them. */
  lemma SurvivesIff(w: World, ops: seq<Op>, env: Env, n: nat, p: string)
    requires n <= |ops| && p in Origins(w, ops, env)
    ensures Survives(w, ops, env, n, p) <==>
            exists l :: l in Holders(w, ops, env, n) && Holders(w, ops, env, n)[l] == p
  {
    if Survives(w, ops, env, n, p) {
      HeldAtLocation(w, ops, env, n, p);
    } else {
      var k :| 0 <= k < n && Overwrites(w, ops, env, k, p);
      forall l | l in Holders(w, ops, env, n)
        ensures Holders(w, ops, env, n)[l] != p
      {
        OverwrittenIsGone(w, ops, env, k, n, p, l);
      }
    }
  }

  /** Bytes that are not overwritten stand at their location. */
  lemma BytesTravel(w: World, ops: seq<Op>, env: Env, n: nat, p: string)
    requires AllPlanned(w, ops) && n <= |ops| && p in w.tree && Survives(w, ops, env, n, p)
    ensures See(AfterRenames(w, ops, env, n), File(Location(ops, n, p))) == Bytes(w.tree[p])
  {
    HeldAtLocation(w, ops, env, n, p);
    HoldersStand(w, ops, env, n, Location(ops, n, p));
    OldSurvivesCreates(w, ops, env, p);
  }

  /** No two surviving files end up at one location. */
  lemma LocationsDistinct(w: World, ops: seq<Op>, env: Env, n: nat, p: string, q: string)
    requires n <= |ops| && p in Origins(w, ops, env) && q in Origins(w, ops, env) && p != q
    requires Survives(w, ops, env, n, p) && Survives(w, ops, env, n, q)
    ensures Location(ops, n, p) != Location(ops, n, q)
  {
    HeldAtLocation(w, ops, env, n, p);
    HeldAtLocation(w, ops, env, n, q);
  }

  /** Only two operations onto one file can overwrite: with distinct targets everything survives. */
  lemma DistinctSurvive(w: World, ops: seq<Op>, env: Env, p: string)
    requires WellPlanned(w, ops)
    ensures Survives(w, ops, env, |ops|, p)
  {
    forall k | 0 <= k < |ops|
      ensures !Overwrites(w, ops, env, k, p)
    {
      if ops[k].kind.Rename? {
        TargetAbsent(w, ops, env, k);
        HoldersStand(w, ops, env, k, Rel(ops[k]));
      }
    }
  }

  // ----- read off the plan -----

  /** Rename `k` goes to the file that an earlier rename has moved `p` to. */
  ghost predicate Collides(ops: seq<Op>, p: string, k: nat)
    requires k < |ops|
  {
    && ops[k].kind.Rename?
    && exists i :: 0 <= i < k && ops[i].kind.Rename? && Source(ops[i]) == Some(p) && Rel(ops[i]) == Rel(ops[k])
  }

  /** No two planned renames take `p` to a file, and then another one there. */
  ghost predicate KeptByPlan(ops: seq<Op>, p: string) {
    forall i, k :: 0 <= i < k < |ops| && ops[i].kind.Rename? && ops[k].kind.Rename? && Source(ops[i]) == Some(p) ==>
      Rel(ops[i]) != Rel(ops[k])
  }

  ghost predicate NotMovedBefore(ops: seq<Op>, n: nat, q: string)
    requires n <= |ops|
  {
    forall i :: 0 <= i < n && ops[i].kind.Rename? ==> Source(ops[i]) != Some(q)
  }

  /** An old file that was not moved yet is where it was, with its own bytes. */
  lemma {:induction false} UnmovedHolds(w: World, ops: seq<Op>, env: Env, n: nat, q: string)
    requires AllPlanned(w, ops) && n <= |ops| && q in w.tree && NotMovedBefore(ops, n, q)
    ensures q in Holders(w, ops, env, n) && Holders(w, ops, env, n)[q] == q
  {
    if n == 0 {
      OriginHolds(w, ops, env, q);
    } else {
      UnmovedHolds(w, ops, env, n - 1, q);
      OldIsNoTarget(w, ops, n - 1, q);
      StepHolds(Holders(w, ops, env, n - 1), ops[n - 1], q);
    }
  }

  lemma StepHolds(h: map<string, string>, op: Op, q: string)
    requires q in h && h[q] == q && (op.kind.Rename? ==> Source(op) != Some(q) && Rel(op) != q)
    ensures q in HolderStep(h, op) && HolderStep(h, op)[q] == q
  {
  }

  lemma OriginHolds(w: World, ops: seq<Op>, env: Env, q: string)
    requires q in w.tree
    ensures q in Holders(w, ops, env, 0) && Holders(w, ops, env, 0)[q] == q
  {
  }

  lemma {:induction false} UnmovedLocation(ops: seq<Op>, n: nat, p: string)
    requires n <= |ops| && NotMovedBefore(ops, n, p)
    ensures Location(ops, n, p) == p
  {
    if n > 0 {
      UnmovedLocation(ops, n - 1, p);
    }
  }

  lemma SourceIsOnce(w: World, ops: seq<Op>, i: nat, p: string)
    requires Movable(w, ops) && i < |ops| && ops[i].kind.Rename? && Source(ops[i]) == Some(p)
    ensures NotMovedBefore(ops, i, p)
  {
  }

  /** A file is moved once: its new path was not in the tree, so no rename has it for a source. */
  lemma {:induction false} MovedLocation(w: World, ops: seq<Op>, i: nat, n: nat, p: string)
    requires AllPlanned(w, ops) && Movable(w, ops) && i < n <= |ops|
    requires ops[i].kind.Rename? && Source(ops[i]) == Some(p)
    ensures Location(ops, n, p) == Rel(ops[i])
    decreases n
  {
    if n == i + 1 {
      SourceIsOnce(w, ops, i, p);
      UnmovedLocation(ops, i, p);
    } else {
      MovedLocation(w, ops, i, n - 1, p);
      assert PlannedOp(w, ops[i]);
      assert ops[n - 1].kind.Rename? ==> SourceIn(w, ops[n - 1]);
    }
  }

  lemma OverwritesIffCollides(w: World, ops: seq<Op>, env: Env, k: nat, p: string)
    requires AllPlanned(w, ops) && Movable(w, ops) && p in w.tree && k < |ops| && Survives(w, ops, env, k, p)
    ensures Overwrites(w, ops, env, k, p) <==> Collides(ops, p, k)
  {
    HeldAtLocation(w, ops, env, k, p);
    if Overwrites(w, ops, env, k, p) {
      OverwriteCollides(w, ops, env, k, p);
    } else if Collides(ops, p, k) {
      var i :| 0 <= i < k && ops[i].kind.Rename? && Source(ops[i]) == Some(p) && Rel(ops[i]) == Rel(ops[k]);
      MovedLocation(w, ops, i, k, p);
      assert SourceIn(w, ops[k]) && PlannedOp(w, ops[k]);
      SourceIsOnce(w, ops, k, Source(ops[k]).value);
      UnmovedHolds(w, ops, env, k, Source(ops[k]).value);
    }
  }

  lemma OverwriteCollides(w: World, ops: seq<Op>, env: Env, k: nat, p: string)
    requires AllPlanned(w, ops) && Movable(w, ops) && p in w.tree && k < |ops| && Survives(w, ops, env, k, p)
    requires Overwrites(w, ops, env, k, p)
    ensures Collides(ops, p, k)
  {
    HeldAtLocation(w, ops, env, k, p);
    if Location(ops, k, p) != Rel(ops[k]) {
      HoldersDistinct(w, ops, env, k, Location(ops, k, p), Rel(ops[k]));
    }
    assert PlannedOp(w, ops[k]);
    if NotMovedBefore(ops, k, p) {
      UnmovedLocation(ops, k, p);
    } else {
      var i :| 0 <= i < k && ops[i].kind.Rename? && Source(ops[i]) == Some(p);
      MovedLocation(w, ops, i, k, p);
    }
  }

  lemma {:induction false} SurvivesSoFar(w: World, ops: seq<Op>, env: Env, n: nat, p: string)
    requires AllPlanned(w, ops) && Movable(w, ops) && p in w.tree && n <= |ops|
    ensures Survives(w, ops, env, n, p) <==> forall k :: 0 <= k < n ==> !Collides(ops, p, k)
  {
    if n > 0 {
      SurvivesSoFar(w, ops, env, n - 1, p);
      if Survives(w, ops, env, n - 1, p) {
        OverwritesIffCollides(w, ops, env, n - 1, p);
      }
    }
  }

  /**
   * Read off the plan: when every rename has its own source in the tree, the bytes
   * of an old file are overwritten if and only if the plan moves it to a file and
   * later moves another one there.
   */
  lemma SurvivesByPlan(w: World, ops: seq<Op>, env: Env, p: string)
    requires AllPlanned(w, ops) && Movable(w, ops) && p in w.tree
    ensures Survives(w, ops, env, |ops|, p) <==> KeptByPlan(ops, p)
  {
    SurvivesSoFar(w, ops, env, |ops|, p);
    if Survives(w, ops, env, |ops|, p) {
      forall i, k | 0 <= i < k < |ops| && ops[i].kind.Rename? && ops[k].kind.Rename? && Source(ops[i]) == Some(p)
        ensures Rel(ops[i]) != Rel(ops[k])
      {
        assert !Collides(ops, p, k);
      }
    }
  }
}
