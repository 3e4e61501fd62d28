/**
 * The mirror pass as the engine runs it: a folder's tree and tracked state are
 * updated in place, operation by operation. Every method is tied to the function
 * of `MirrorModel` that the theorems are about.
 */
module MirrorEngine {
  import opened Common
  import opened Dict
  import opened Filemeta
  import opened MirrorModel
  import opened MirrorConvergence
  import TruncationWindow

  ghost function CountedIn(met: set<string>): set<string> { set p | p in met && Counted(p) }

  lemma CountOne(met: set<string>, p: string)
    requires p !in met
    ensures |CountedIn(met + {p})| == |CountedIn(met)| + if Counted(p) then 1 else 0
  {
    assert CountedIn(met + {p}) == if Counted(p) then CountedIn(met) + {p} else CountedIn(met);
  }

  class FolderMirror {
    var tree: Tree
    var state: Tracking
    /** The filemeta last accepted. */
    var filemeta: Filemeta
    /** The truncation gate of the pass under way. */
    var applied: nat

    ghost function View(): World
      reads this
    {
      World(tree, state)
    }

    constructor (w: World, fm: Filemeta)
      ensures View() == w && filemeta == fm
    {
      tree, state, filemeta, applied := w.tree, w.state, fm, 0;
    }

    // ----- reading -----

    method FindLocalFileByDocId(id: string) returns (path: Option<string>)
      ensures path == FindByDocId(state, id)
    {
      for i := 0 to |state|
        invariant FindByDocId(state, id) == FindByDocId(state[i..], id)
      {
        if state[i].1 == Some(id) {
          return Some(state[i].0);
        }
        assert state[i..][1..] == state[i + 1..];
      }
      return None;
    }

    method FileEntryCount(fm: Filemeta) returns (n: nat)
      ensures n == FileCount(fm)
    {
      n := 0;
      for i := 0 to |fm|
        invariant n == FileCount(fm[..i])
      {
        assert fm[..i + 1][..i] == fm[..i];
        n := n + if IsFileEntry(fm[i].1) then 1 else 0;
      }
      assert fm[..|fm|] == fm;
    }

    /** The walk of `_local_file_count`, in whatever order it meets the files. */
    method LocalFileCount() returns (n: nat)
      ensures n == LocalCount(tree)
    {
      n := 0;
      var rest := tree.Keys;
      ghost var met: set<string> := {};
      while rest != {}
        invariant rest !! met && rest + met == tree.Keys
        invariant n == |CountedIn(met)|
        decreases |rest|
      {
        var p :| p in rest;
        CountOne(met, p);
        n := n + if Counted(p) then 1 else 0;
        rest, met := rest - {p}, met + {p};
      }
      assert CountedIn(met) == set p | p in tree && Counted(p);
    }

    method ChangedFilemetaEntries(before: Filemeta, latest: Filemeta) returns (changed: Filemeta)
      ensures changed == Changed(before, latest)
    {
      changed := [];
      for i := 0 to |latest|
        invariant changed == Changed(before, latest[..i])
      {
        assert latest[..i + 1][..i] == latest[..i];
        if Get(before, latest[i].0) != Some(latest[i].1) {
          changed := changed + [latest[i]];
        }
      }
      assert latest[..|latest|] == latest;
    }

    // ----- planning -----

    method ApplyRemoteState(path: string, m: Meta) returns (op: Op)
      requires Plannable(path, m) && IsFile(m)
      ensures op == PlanOp(View(), path, m)
    {
      var ftype := TypeOf(m.typ.value);
      var full := Relative(path).value;
      if full in tree {
        if m.hash.None? || tree[full] != m.hash.value {
          return Op(Update, path, m.id.value, ftype, m.hash, "", false, None);
        }
        return Op(Noop, path, m.id.value, ftype, m.hash, "", true, None);
      }
      var oldPath := FindLocalFileByDocId(m.id.value);
      if oldPath.Some? && oldPath.value != "" && oldPath.value != path {
        return Op(Rename, path, m.id.value, ftype, m.hash, oldPath.value, false, None);
      }
      return Op(Create, path, m.id.value, ftype, m.hash, "", false, None);
    }

    /** Plans every file entry; `None` stands for an exception, which aborts the pass. */
    method SyncByType(sync: Filemeta) returns (ops: Option<seq<Op>>)
      ensures ops == if AllPlannable(Files(sync)) then Some(PlanOps(View(), Files(sync))) else None
    {
      var planned := [];
      for i := 0 to |sync|
        invariant AllPlannable(Files(sync[..i])) && planned == PlanOps(View(), Files(sync[..i]))
      {
        assert sync[..i + 1][..i] == sync[..i];
        if IsFile(sync[i].1) {
          if !Plannable(sync[i].0, sync[i].1) {
            FilesMembers(sync, sync[i]);
            return None;
          }
          var op := ApplyRemoteState(sync[i].0, sync[i].1);
          planned := planned + [op];
        }
      }
      assert sync[..|sync|] == sync;
      return Some(planned);
    }

    // ----- file operations -----

    method WriteFileContent(rel: string, path: string, id: string, body: Body)
      modifies this`tree, this`state
      ensures View() == Written(old(View()), rel, path, id, body)
    {
      tree := tree[rel := body];
      state := Put(state, path, Some(id));
    }

    method MoveFile(from: string, fromRel: string, dest: string, destRel: string)
      modifies this`tree, this`state
      ensures View() == Moved(old(View()), from, fromRel, dest, destRel)
    {
      if fromRel in tree {
        tree := (tree - {fromRel})[destRel := tree[fromRel]];
        var owner := Get(state, from);
        state := Put(Remove(state, from), dest, if owner.Some? then owner.value else None);
      }
    }

    method DeleteFile(rel: string, path: string)
      modifies this`tree, this`state
      ensures View() == Deleted(old(View()), rel, path)
    {
      if rel in tree {
        tree := tree - {rel};
        state := Remove(state, path);
      }
    }

    /** `_gates_truncation` within a pass. */
    method GatesTruncation(rel: string, limit: nat) returns (gated: bool)
      modifies this`applied
      ensures gated <==> rel in tree && tree[rel] != "" && old(applied) >= limit
      ensures applied ==
              if rel in tree && tree[rel] != "" && old(applied) < limit then old(applied) + 1 else old(applied)
    {
      if rel !in tree || tree[rel] == "" {
        return false;
      }
      if applied >= limit {
        return true;
      }
      applied := applied + 1;
      return false;
    }

    method HandleServerWrite(op: Op, round: nat, env: Env) returns (done: Op)
      requires op.kind.Create? || op.kind.Update?
      modifies this`tree, this`state, this`applied
      ensures Outcome(View(), done, applied) == Exec(old(View()), op, old(applied), round, env)
    {
      if op.ftype.Binary? && op.hash.None? {
        return Failed(op, MissingHash);
      }
      var body := env.fetch(round, op.path, op.id);
      if body.None? {
        return Failed(op, FetchFailed);
      }
      var rel := Relative(op.path);
      if rel.None? {
        return op.(error := Some(Raised));
      }
      if op.kind.Update? && !op.ftype.Binary? && body.value == EmptyBody(op.ftype) {
        var gated := GatesTruncation(rel.value, env.limit);
        if gated {
          return Failed(op, TruncationGated);
        }
      }
      WriteFileContent(rel.value, op.path, op.id, body.value);
      return op.(completed := true);
    }

    method ExecuteSyncOperation(op: Op, round: nat, env: Env) returns (done: Op)
      modifies this`tree, this`state, this`applied
      ensures Outcome(View(), done, applied) == Exec(old(View()), op, old(applied), round, env)
    {
      match op.kind {
        case Create => done := HandleServerWrite(op, round, env);
        case Update => done := HandleServerWrite(op, round, env);
        case Rename =>
          var from, dest := Relative(op.fromPath), Relative(op.path);
          if from.None? || dest.None? {
            return op.(error := Some(Raised));
          }
          MoveFile(op.fromPath, from.value, op.path, dest.value);
          done := op.(completed := true);
        case Delete =>
          var rel := Relative(op.path);
          if rel.None? {
            return op.(error := Some(Raised));
          }
          DeleteFile(rel.value, op.path);
          done := op.(completed := true);
        case Noop => done := op.(completed := true);
      }
    }

    /** One sweep over the list, running what the phase selects. */
    method RunPhase(list: seq<Op>, phase: Phase, env: Env) returns (ops: seq<Op>)
      modifies this`tree, this`state, this`applied
      ensures Progress(View(), ops, applied) == Run(Progress(old(View()), list, old(applied)), phase, env, |list|)
    {
      ops := list;
      ghost var p := Progress(View(), list, applied);
      for i := 0 to |list|
        invariant |ops| == |list|
        invariant Progress(View(), ops, applied) == Run(p, phase, env, i)
      {
        if Selected(phase, ops[i]) {
          var done := ExecuteSyncOperation(ops[i], Round(phase), env);
          ops := ops[i := done];
        }
      }
    }

    /** The walk of `cleanup_extra_local_files`. */
    method CleanupExtraLocalFiles(latest: Filemeta) returns (dels: seq<string>)
      ensures Lists(dels, ToDelete(tree, latest))
    {
      dels := [];
      var rest := tree.Keys;
      while rest != {}
        invariant rest <= tree.Keys
        invariant forall p :: p in dels <==> p in ToDelete(tree, latest) && p !in rest
        invariant forall i, j :: 0 <= i < j < |dels| ==> dels[i] != dels[j]
        decreases |rest|
      {
        var p :| p in rest;
        rest := rest - {p};
        if !Skipped(p) && !InFilemeta(latest, p) {
          dels := dels + [p];
        }
      }
    }

    // ----- the pass -----

    /** Creates, renames, the deletion gate, then everything still unfinished. */
    method RunPlan(plan: seq<Op>, latest: Filemeta, allow: bool, env: Env)
      returns (ops: seq<Op>, accepted: bool, ghost dels: seq<string>)
      requires applied == 0
      modifies this`tree, this`state, this`applied
      ensures var mid := Midway(old(View()), plan, env);
              && Lists(dels, ToDelete(mid.w.tree, latest))
              && accepted == !(|dels| > env.limit && !allow)
              && Progress(View(), ops, applied) == Finish(mid, if accepted then dels else [], env)
    {
      ops := RunPhase(plan, Creating, env);
      ops := RunPhase(ops, Renaming, env);
      assert Progress(View(), ops, applied) == Midway(old(View()), plan, env);
      var found := CleanupExtraLocalFiles(latest);
      dels := found;
      accepted := true;
      if |found| > env.limit && !allow {
        found := [];
        accepted := false;
      }
      ops := RunPhase(ops + DeleteOps(found), Finishing, env);
    }

    /** `_apply_remote_folder_changes`; `dels` is what the walk found. */
    method ApplyRemoteFolderChanges(before: Filemeta, latest: Filemeta, incremental: bool, allow: bool, fetch: Fetch)
      returns (ops: seq<Op>, accepted: bool, ghost dels: seq<string>)
      modifies this`tree, this`state, this`applied
      ensures PassResult(View(), ops, accepted) == Pass(old(View()), before, latest, incremental, dels, allow, fetch)
      ensures !Refused(old(View()), latest) && AllPlannable(Files(Synced(before, latest, incremental))) ==>
                Lists(dels, ToDelete(PassMid(old(View()), before, latest, incremental, fetch).w.tree, latest))
    {
      dels := [];
      var membership := FileEntryCount(latest);
      var localFiles := LocalFileCount();
      var sync := latest;
      if incremental {
        sync := ChangedFilemetaEntries(before, latest);
      }
      if membership == 0 && localFiles > 0 {
        return [], false, dels;
      }
      applied := 0;
      var plan := SyncByType(sync);
      if plan.None? {
        return [], false, dels;
      }
      ops, accepted, dels := RunPlan(plan.value, latest, allow,
                                     Env(TruncationWindow.MassChangeThreshold(membership), fetch));
    }

    /** A folder event or request: run the pass, store the filemeta only if it was accepted. */
    method SyncFolder(latest: Filemeta, incremental: bool, allow: bool, fetch: Fetch)
      returns (ops: seq<Op>, accepted: bool, ghost dels: seq<string>)
      modifies this
      ensures PassResult(View(), ops, accepted)
              == Pass(old(View()), old(filemeta), latest, incremental, dels, allow, fetch)
      ensures filemeta == if accepted then latest else old(filemeta)
      ensures !Refused(old(View()), latest) && AllPlannable(Files(Synced(old(filemeta), latest, incremental))) ==>
                Lists(dels, ToDelete(PassMid(old(View()), old(filemeta), latest, incremental, fetch).w.tree, latest))
    {
      ops, accepted, dels := ApplyRemoteFolderChanges(filemeta, latest, incremental, allow, fetch);
      if accepted {
        filemeta := latest;
      }
    }
  }
}
