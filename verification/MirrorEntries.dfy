/** Where every file and every tracked entry stands at the end of a movable pass in which nothing fails. */
module MirrorEntries {
  import opened Common
  import opened Dict
  import opened MirrorModel
  import opened MirrorFrames
  import opened MirrorPhases
  import opened MirrorPresence
  import opened MirrorFinish
  import opened MirrorTruncation

  /** Every body arrives and no truncation is gated. */
  ghost predicate Unhindered(w: World, ops: seq<Op>, env: Env) {
    forall i :: 0 <= i < |ops| ==>
      WriteBody(ops[i], 0, env).Some? && WriteBody(ops[i], 1, env).Some? && !IsGated(w, ops, env, i)
  }

  /** A movable, unhindered pass whose deletions name files left after the renames. */
  ghost predicate Smooth(w: World, ops: seq<Op>, env: Env, dels: seq<string>) {
    && WellPlanned(w, ops) && Movable(w, ops) && Unhindered(w, ops, env) && Apart(ops, dels)
    && forall d :: d in dels ==> d in Midway(w, ops, env).w.tree
  }

  predicate Writes(op: Op) { op.kind.Create? || op.kind.Update? || op.kind.Rename? }

  ghost predicate IsSource(ops: seq<Op>, k: string) {
    exists i :: 0 <= i < |ops| && ops[i].kind.Rename? && ops[i].fromPath == k
  }

  lemma TargetsAreNotDeleted(w: World, ops: seq<Op>, env: Env, dels: seq<string>, i: nat)
    requires Smooth(w, ops, env, dels) && i < |ops|
    ensures ops[i].path !in dels && Rel(ops[i]) !in dels
    ensures !ops[i].kind.Update? ==> NoUpdateTouches(ops, Entry(ops[i].path)) && NoUpdateTouches(ops, File(Rel(ops[i])))
  {
    assert PlannedOp(w, ops[i]);
    forall j | 0 <= j < |ops| && ops[j].kind.Update? && !ops[i].kind.Update?
      ensures !Touches(ops[j], Entry(ops[i].path)) && !Touches(ops[j], File(Rel(ops[i])))
    {
      OthersUntouched(w, ops, i, j);
      assert PlannedOp(w, ops[j]);
    }
  }

  /** A written operation's path is tracked for its own document. */
  lemma WrittenEntry(w: World, ops: seq<Op>, env: Env, dels: seq<string>, i: nat)
    requires Smooth(w, ops, env, dels) && i < |ops| && Writes(ops[i])
    ensures See(Final(w, ops, env, dels).w, Entry(ops[i].path)) == Owner(Some(ops[i].id))
  {
    TargetsAreNotDeleted(w, ops, env, dels, i);
    match ops[i].kind
    case Update => UpdatedAt(w, ops, env, dels, i);
    case Create =>
      CreatedAt(w, ops, env, i);
      CreatedStands(w, ops, env, i);
      FinishElse(w, ops, env, dels, Entry(ops[i].path));
    case Rename =>
      RenamedEntries(w, ops, env, i);
      FinishElse(w, ops, env, dels, Entry(ops[i].path));
  }

  /**
   * The bytes a written operation ends with: the fetched body, or the document's
   * earlier bytes when it was only renamed.
   */
  lemma WrittenBytes(w: World, ops: seq<Op>, env: Env, dels: seq<string>, i: nat)
    requires Smooth(w, ops, env, dels) && i < |ops| && Writes(ops[i])
    ensures ops[i].kind.Rename? ==> SourceIn(w, ops[i])
    ensures See(Final(w, ops, env, dels).w, File(Rel(ops[i]))) ==
            match ops[i].kind
            case Create => Bytes(WriteBody(ops[i], 0, env).value)
            case Update => Bytes(WriteBody(ops[i], 1, env).value)
            case _ => Bytes(w.tree[Source(ops[i]).value])
  {
    TargetsAreNotDeleted(w, ops, env, dels, i);
    match ops[i].kind
    case Update => UpdatedAt(w, ops, env, dels, i);
    case Create =>
      CreatedAt(w, ops, env, i);
      CreatedStands(w, ops, env, i);
      FinishElse(w, ops, env, dels, File(Rel(ops[i])));
    case Rename =>
      RenamedAt(w, ops, env, i);
      FinishElse(w, ops, env, dels, File(Rel(ops[i])));
  }

  /** A deleted file's entry is dropped if it is spelled like the file. */
  lemma DeletedEntry(w: World, ops: seq<Op>, env: Env, dels: seq<string>, k: nat)
    requires Smooth(w, ops, env, dels) && k < |dels|
    ensures See(Final(w, ops, env, dels).w, Entry(dels[k])) == Absent
  {
    var p := Tail(w, ops, env, dels);
    var d := dels[k];
    assert d in dels;
    DeleteUntouched(w, ops, env, dels, k, File(d));
    DeleteUntouched(w, ops, env, dels, k, Entry(d));
    OneTouch(p, Finishing, env, |ops| + k, |p.ops|, File(d));
    OneTouch(p, Finishing, env, |ops| + k, |p.ops|, Entry(d));
    GetRemove(Run(p, Finishing, env, |ops| + k).w.state, d, d);
  }

  /** The entry a rename came from is gone, unless the pass wrote there again. */
  lemma SourceEntry(w: World, ops: seq<Op>, env: Env, dels: seq<string>, k: string)
    requires Smooth(w, ops, env, dels) && IsSource(ops, k) && k !in dels
    requires forall i :: 0 <= i < |ops| && Writes(ops[i]) ==> ops[i].path != k
    ensures See(Final(w, ops, env, dels).w, Entry(k)) == Absent
  {
    var i :| 0 <= i < |ops| && ops[i].kind.Rename? && ops[i].fromPath == k;
    RenamedEntries(w, ops, env, i);
    FinishElse(w, ops, env, dels, Entry(k));
  }

  /** Everything else stays as it was tracked. */
  lemma OtherEntry(w: World, ops: seq<Op>, env: Env, dels: seq<string>, k: string)
    requires Smooth(w, ops, env, dels) && !IsSource(ops, k) && k !in dels
    requires forall i :: 0 <= i < |ops| && Writes(ops[i]) ==> ops[i].path != k
    ensures See(Final(w, ops, env, dels).w, Entry(k)) == See(w, Entry(k))
  {
    assert ops[..|ops|] == ops;
    CreatedElse(w, ops, env, Entry(k));
    RenamedElse(w, ops, env, |ops|, Entry(k));
    FinishElse(w, ops, env, dels, Entry(k));
  }

  ghost predicate WritesAt(ops: seq<Op>, k: string) {
    exists i :: 0 <= i < |ops| && Writes(ops[i]) && ops[i].path == k
  }

  /** The final owner of every path, by cases a reader can check before the pass. */
  lemma EntryFinal(w: World, ops: seq<Op>, env: Env, dels: seq<string>, k: string)
    requires Smooth(w, ops, env, dels)
    ensures var end := See(Final(w, ops, env, dels).w, Entry(k));
            if WritesAt(ops, k) then
              exists i :: 0 <= i < |ops| && Writes(ops[i]) && ops[i].path == k && end == Owner(Some(ops[i].id))
            else if k in dels || IsSource(ops, k) then end == Absent
            else end == See(w, Entry(k))
  {
    if WritesAt(ops, k) {
      var i :| 0 <= i < |ops| && Writes(ops[i]) && ops[i].path == k;
      WrittenEntry(w, ops, env, dels, i);
    } else if j :| 0 <= j < |dels| && dels[j] == k {
      DeletedEntry(w, ops, env, dels, j);
    } else if IsSource(ops, k) {
      SourceEntry(w, ops, env, dels, k);
    } else {
      OtherEntry(w, ops, env, dels, k);
    }
  }

  /** A held file keeps its bytes. */
  lemma HeldBytes(w: World, ops: seq<Op>, env: Env, dels: seq<string>, q: string)
    requires Smooth(w, ops, env, dels) && q in w.tree && Spares(ops, q) && q !in dels
    requires forall i :: 0 <= i < |ops| && ops[i].kind.Update? ==> Rel(ops[i]) != q
    ensures See(Final(w, ops, env, dels).w, File(q)) == Bytes(w.tree[q])
  {
    SparedStands(w, ops, env, q);
    forall j | 0 <= j < |ops| && ops[j].kind.Update?
      ensures !Touches(ops[j], File(q))
    {
      assert PlannedOp(w, ops[j]);
    }
    FinishElse(w, ops, env, dels, File(q));
  }

  /** Which files stand when the updates begin. */
  lemma MidMembership(w: World, ops: seq<Op>, env: Env, p: string)
    requires WellPlanned(w, ops) && Movable(w, ops) && Arrives(ops, env)
    ensures p in Midway(w, ops, env).w.tree <==>
            (exists i :: 0 <= i < |ops| && (ops[i].kind.Create? || ops[i].kind.Rename?) && Rel(ops[i]) == p)
            || (p in w.tree && Spares(ops, p))
  {
    if i :| 0 <= i < |ops| && (ops[i].kind.Create? || ops[i].kind.Rename?) && Rel(ops[i]) == p {
      if ops[i].kind.Create? {
        CreatedAt(w, ops, env, i);
        CreatedStands(w, ops, env, i);
      } else {
        RenamedAt(w, ops, env, i);
      }
    } else if p in w.tree {
      if Spares(ops, p) {
        SparedStands(w, ops, env, p);
      } else {
        var i :| 0 <= i < |ops| && ops[i].kind.Rename? && Source(ops[i]) == Some(p);
        RenamedAt(w, ops, env, i);
      }
    } else {
      forall j | 0 <= j < |ops| && ops[j].kind.Create?
        ensures !Touches(ops[j], File(p))
      {
        assert PlannedOp(w, ops[j]);
      }
      CreatedElse(w, ops, env, File(p));
      AbsentStays(w, ops, env, 0, |ops|, p);
    }
  }
}
