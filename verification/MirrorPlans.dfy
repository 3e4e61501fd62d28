/** What is planned for an entry, and how operations end, in terms of the published fields and the tree. */
module MirrorPlans {
  import opened Common
  import opened Dict
  import opened Filemeta
  import opened MirrorModel
  import opened MirrorFrames
  import opened MirrorPhases
  import opened MirrorFinish
  import opened MirrorConvergence
  import opened PlainTerms

  /** `k` is the first path tracked for the document. */
  ghost predicate FirstTracked(state: Tracking, id: string, k: string) {
    exists i :: 0 <= i < |state| && state[i] == (k, Some(id)) && forall j :: 0 <= j < i ==> state[j].1 != Some(id)
  }

  lemma {:induction false} FindIsFirst(state: Tracking, id: string)
    ensures FindByDocId(state, id).None? <==> forall i :: 0 <= i < |state| ==> state[i].1 != Some(id)
    ensures FindByDocId(state, id).Some? ==> FirstTracked(state, id, FindByDocId(state, id).value)
  {
    if state != [] && state[0].1 != Some(id) {
      FindIsFirst(state[1..], id);
      if FindByDocId(state[1..], id).Some? {
        var k := FindByDocId(state[1..], id).value;
        var i :| 0 <= i < |state[1..]| && state[1..][i] == (k, Some(id))
                 && forall j :: 0 <= j < i ==> state[1..][j].1 != Some(id);
        assert state[i + 1] == (k, Some(id));
        forall j | 0 <= j < i + 1
          ensures state[j].1 != Some(id)
        {
          assert j > 0 ==> state[j] == state[1..][j - 1];
        }
      }
    } else if state != [] {
      assert state[0] == (state[0].0, Some(id));
    }
  }

  lemma FirstIsOne(state: Tracking, id: string, k: string)
    requires FirstTracked(state, id, k)
    ensures FindByDocId(state, id) == Some(k)
  {
    FindIsFirst(state, id);
    var i :| 0 <= i < |state| && state[i] == (k, Some(id)) && forall j :: 0 <= j < i ==> state[j].1 != Some(id);
    var l := FindByDocId(state, id).value;
    var m :| 0 <= m < |state| && state[m] == (l, Some(id)) && forall j :: 0 <= j < m ==> state[j].1 != Some(id);
    assert m == i;
  }

  /** The document is tracked first at another path, which is where a rename takes it from. */
  ghost predicate MovesFrom(w: World, path: string, id: string, from: string) {
    FirstTracked(w.state, id, from) && from != "" && from != path
  }

  /**
   * The plan for an entry: where its file stands, an update unless the hash is the
   * contents'; else a rename from where its document is tracked; else a create.
   */
  lemma PlannedAs(w: World, path: string, m: Meta)
    requires m.Meta? && m.id.Some? && m.typ.Some? && Relative(path).Some?
    ensures var (op, r, id) := (PlanOp(w, path, m), Relative(path).value, m.id.value);
            && op.path == path && op.id == id && op.hash == m.hash && op.error.None?
            && (op.completed <==> op.kind.Noop?)
            && (op.ftype.Document? <==> m.typ.value == "document" || m.typ.value == "markdown")
            && (op.ftype.Canvas? <==> m.typ.value == "canvas")
            && (op.kind.Update? <==> r in w.tree && m.hash != Some(w.tree[r]))
            && (op.kind.Noop? <==> r in w.tree && m.hash == Some(w.tree[r]))
            && (op.kind.Rename? <==> r !in w.tree && exists from :: MovesFrom(w, path, id, from))
            && (op.kind.Rename? ==> MovesFrom(w, path, id, op.fromPath))
            && (op.kind.Create? <==> r !in w.tree && !exists from :: MovesFrom(w, path, id, from))
  {
    var found := FindByDocId(w.state, m.id.value);
    FindIsFirst(w.state, m.id.value);
    TypeIs(m.typ.value);
    if found.Some? {
      assert found.value != "" && found.value != path ==> MovesFrom(w, path, m.id.value, found.value);
    }
    if from :| MovesFrom(w, path, m.id.value, from) {
      FirstIsOne(w.state, m.id.value, from);
    }
  }

  /** What a create or an update gets: nothing without a hash if it is binary, else the answer of its round. */
  lemma BodyIs(op: Op, round: nat, env: Env)
    ensures WriteBody(op, round, env) ==
            if op.ftype.Binary? && op.hash.None? then None else env.fetch(round, op.path, op.id)
  {
  }

  /** How a create ends: done, and with an error exactly when nothing was fetched. */
  lemma CreateEnds(w: World, ops: seq<Op>, env: Env, dels: seq<string>, i: nat)
    requires WellPlanned(w, ops) && i < |ops| && ops[i].kind.Create?
    ensures var o := Final(w, ops, env, dels).ops[i];
            && o.completed
            && o.error == (if ops[i].ftype.Binary? && ops[i].hash.None? then Some(MissingHash)
                           else if env.fetch(0, ops[i].path, ops[i].id).None? then Some(FetchFailed)
                           else None)
  {
    assert PlannedOp(w, ops[i]);
    RunKeeps(Start(w, ops), Creating, env, i, |ops|);
    RunKeeps(AfterCreates(w, ops, env), Renaming, env, i, |ops|);
    RunKeeps(Tail(w, ops, env, dels), Finishing, env, i, |ops| + |dels|);
  }

  /** How a rename from a usable path ends: done, without an error, whether or not there was a file to move. */
  lemma RenameEnds(w: World, ops: seq<Op>, env: Env, dels: seq<string>, i: nat)
    requires WellPlanned(w, ops) && i < |ops| && ops[i].kind.Rename? && Relative(ops[i].fromPath).Some?
    ensures Final(w, ops, env, dels).ops[i] == ops[i].(completed := true)
  {
    assert PlannedOp(w, ops[i]);
    RunKeeps(Start(w, ops), Creating, env, i, |ops|);
    RunKeeps(AfterCreates(w, ops, env), Renaming, env, i, |ops|);
    RunKeeps(Tail(w, ops, env, dels), Finishing, env, i, |ops| + |dels|);
  }

  /** A deletion takes a standing file and its entry; where no file stands it leaves the entry too. */
  lemma OnlyStandingIsDeleted(w: World, p: string, r: string, applied: nat, env: Env)
    requires Relative(p) == Some(r)
    ensures var t := Exec(w, DeleteOp(p), applied, 1, env).w;
            && (r !in w.tree ==> t == w)
            && (r in w.tree ==> t.tree == w.tree - {r}
                                && forall k :: Get(t.state, k) == if k == p then None else Get(w.state, k))
  {
    forall k
      ensures Get(Remove(w.state, p), k) == if k == p then None else Get(w.state, k)
    {
      GetRemove(w.state, p, k);
    }
  }

  /** An operation on a path that cannot be sanitised raises: nothing changes and it stays unfinished. */
  lemma UnusableRaises(w: World, op: Op, applied: nat, round: nat, env: Env)
    requires Relative(op.path).None? && !op.kind.Noop?
    requires op.kind.Create? || op.kind.Update? ==> BodyArrives(op, round, env)
    ensures Exec(w, op, applied, round, env) == Outcome(w, op.(error := Some(Raised)), applied)
  {
  }

  predicate BodyArrives(op: Op, round: nat, env: Env) {
    !(op.ftype.Binary? && op.hash.None?) && env.fetch(round, op.path, op.id).Some?
  }

  /** The pass acts on this entry: listed, with an id that is not empty, and new or changed if it is incremental. */
  predicate ActsOn(before: Filemeta, incremental: bool, e: (string, Meta)) {
    && IsListed(e.1) && e.1.id.value != ""
    && (incremental ==> Get(before, e.0) != Some(e.1))
  }

  /** The worklist keeps the filemeta's order. */
  lemma WorklistOneMore(before: Filemeta, fm: Filemeta, e: (string, Meta), incremental: bool)
    ensures Worklist(before, fm + [e], incremental)
         == Worklist(before, fm, incremental) + if ActsOn(before, incremental, e) then [e] else []
  {
    assert (fm + [e])[..|fm|] == fm;
    if incremental {
      var (front, all) := (Changed(before, fm), Changed(before, fm + [e]));
      if Get(before, e.0) != Some(e.1) {
        assert all == front + [e] && all[..|front|] == front;
      } else {
        assert all == front;
      }
    }
  }
}
