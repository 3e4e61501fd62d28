/** Whatever the tree, the tracked state and the server's answers: how bytes can leave the mirror. */
module MirrorSafety {
  import opened Common
  import opened Dict
  import opened Filemeta
  import opened MirrorModel
  import opened MirrorFrames
  import opened MirrorPhases
  import opened MirrorFinish
  import opened MirrorConvergence
  import opened MirrorHolders

  lemma PlannedSafely(w: World, before: Filemeta, latest: Filemeta, incremental: bool, dels: seq<string>, fetch: Fetch)
    requires Sound(w) && AllPlannable(Worklist(before, latest, incremental))
    requires Lists(dels, ToDelete(PassMid(w, before, latest, incremental, fetch).w.tree, latest))
    ensures AllPlanned(w, Planned(w, before, latest, incremental)) && Listed(dels)
  {
    PlanIsPlanned(w, Worklist(before, latest, incremental));
    MidwaySound(w, Planned(w, before, latest, incremental), Env(Threshold(latest), fetch));
  }

  /** The deletions a pass applies: none when it is refused, aborted or gated. */
  function Applied(w: World, before: Filemeta, latest: Filemeta, incremental: bool, dels: seq<string>,
                   allow: bool): seq<string>
  {
    if Refused(w, latest) || !AllPlannable(Worklist(before, latest, incremental)) || Gated(latest, dels, allow) then []
    else dels
  }

  /** Where `p`'s bytes are when the deletions are computed; they have not moved if the pass did not start. */
  function LocationIn(w: World, before: Filemeta, latest: Filemeta, incremental: bool, p: string): string {
    if Refused(w, latest) || !AllPlannable(Worklist(before, latest, incremental)) then p
    else Location(Planned(w, before, latest, incremental), |Planned(w, before, latest, incremental)|, p)
  }

  /** The update phase's fetch returned `body` for an entry of the filemeta at `rel`. */
  ghost predicate WasFetched(latest: Filemeta, fetch: Fetch, rel: string, body: Body) {
    exists i :: 0 <= i < |latest| && IsFile(latest[i].1) && Relative(latest[i].0) == Some(rel)
                && fetch(1, latest[i].0, latest[i].1.id.value) == Some(body)
  }

  lemma UpdateWasFetched(w: World, before: Filemeta, latest: Filemeta, incremental: bool, env: Env, i: nat)
    requires AllPlannable(Worklist(before, latest, incremental)) && i < |Planned(w, before, latest, incremental)|
    requires WriteBody(Planned(w, before, latest, incremental)[i], 1, env).Some?
    ensures var op := Planned(w, before, latest, incremental)[i];
            WasFetched(latest, env.fetch, Rel(op), WriteBody(op, 1, env).value)
  {
    var op := Planned(w, before, latest, incremental)[i];
    var e := Worklist(before, latest, incremental)[i];
    WorklistMembers(before, latest, incremental, e);
    PlanOpIsPlanned(w, e.0, e.1);
    var j :| 0 <= j < |latest| && latest[j] == e;
    assert env.fetch(1, latest[j].0, latest[j].1.id.value) == WriteBody(op, 1, env);
  }

  /** An update of `l` that got a body wrote what stands there. */
  ghost predicate UpdatedTo(ops: seq<Op>, env: Env, l: string, now: Content) {
    exists i :: 0 <= i < |ops| && ops[i].kind.Update? && Rel(ops[i]) == l && WriteBody(ops[i], 1, env).Some?
                && now == Bytes(WriteBody(ops[i], 1, env).value)
  }

  /** A file is as it was, or as some update wrote it, or it was listed and is gone. */
  ghost predicate EndsWell(ops: seq<Op>, env: Env, dels: seq<string>, l: string, was: Content, now: Content) {
    now == was || UpdatedTo(ops, env, l, now) || (l in dels && now == Absent)
  }

  lemma UpdateEndsWell(w: World, op: Op, applied: nat, env: Env, l: string)
    requires op.kind.Update? && Relative(op.path).Some?
    ensures var (was, now) := (See(w, File(l)), See(Exec(w, op, applied, 1, env).w, File(l)));
            now == was || (Rel(op) == l && WriteBody(op, 1, env).Some? && now == Bytes(WriteBody(op, 1, env).value))
  {
  }

  lemma {:induction false} FinishEndsWell(w: World, ops: seq<Op>, env: Env, dels: seq<string>, n: nat, l: string)
    requires AllPlanned(w, ops) && Listed(dels) && n <= |ops| + |dels|
    ensures EndsWell(ops, env, dels, l, See(Midway(w, ops, env).w, File(l)),
                     See(Run(Tail(w, ops, env, dels), Finishing, env, n).w, File(l)))
  {
    if n > 0 {
      FinishEndsWell(w, ops, env, dels, n - 1, l);
      FinishStep(w, ops, env, dels, n - 1, l);
    }
  }

  lemma FinishStep(w: World, ops: seq<Op>, env: Env, dels: seq<string>, n: nat, l: string)
    requires AllPlanned(w, ops) && Listed(dels) && n < |ops| + |dels|
    ensures var p := Tail(w, ops, env, dels);
            EndsWell(ops, env, dels, l, See(Run(p, Finishing, env, n).w, File(l)),
                     See(Run(p, Finishing, env, n + 1).w, File(l)))
  {
    var p := Tail(w, ops, env, dels);
    var q := Run(p, Finishing, env, n);
    RunLeaves(p, Finishing, env, n, n);
    TailOps(w, ops, env, dels, n, File(l));
    if n < |ops| && ops[n].kind.Update? {
      assert PlannedOp(w, ops[n]);
      UpdateEndsWell(q.w, ops[n], q.applied, env, l);
    } else if Selected(Finishing, p.ops[n]) {
      if n < |ops| {
        ExecFrame(q.w, p.ops[n], q.applied, 1, env, File(l));
      } else {
        DeleteEndsWell(q.w, dels, n - |ops|, q.applied, env, l);
      }
    }
  }

  lemma DeleteEndsWell(w: World, dels: seq<string>, k: nat, applied: nat, env: Env, l: string)
    requires k < |dels| && Relative(dels[k]) == Some(dels[k])
    ensures var now := See(Exec(w, DeleteOp(dels[k]), applied, 1, env).w, File(l));
            now == See(w, File(l)) || (l in dels && now == Absent)
  {
  }

  lemma SurvivorEndsWell(w: World, ops: seq<Op>, env: Env, dels: seq<string>, p: string)
    requires AllPlanned(w, ops) && Listed(dels) && p in w.tree && Survives(w, ops, env, |ops|, p)
    ensures var l := Location(ops, |ops|, p);
            EndsWell(ops, env, dels, l, Bytes(w.tree[p]), See(Final(w, ops, env, dels).w, File(l)))
  {
    BytesTravel(w, ops, env, |ops|, p);
    FinalEndsWell(w, ops, env, dels, Location(ops, |ops|, p));
  }

  lemma FinalEndsWell(w: World, ops: seq<Op>, env: Env, dels: seq<string>, l: string)
    requires AllPlanned(w, ops) && Listed(dels)
    ensures EndsWell(ops, env, dels, l, See(Midway(w, ops, env).w, File(l)), See(Final(w, ops, env, dels).w, File(l)))
  {
    FinishEndsWell(w, ops, env, dels, |ops| + |dels|, l);
  }

  lemma UpdatedWasFetched(w: World, before: Filemeta, latest: Filemeta, incremental: bool, env: Env, l: string,
                          now: Content)
    requires AllPlannable(Worklist(before, latest, incremental))
    ensures UpdatedTo(Planned(w, before, latest, incremental), env, l, now) ==>
            now.Bytes? && WasFetched(latest, env.fetch, l, now.body)
  {
    var ops := Planned(w, before, latest, incremental);
    if UpdatedTo(ops, env, l, now) {
      var i :| 0 <= i < |ops| && ops[i].kind.Update? && Rel(ops[i]) == l && WriteBody(ops[i], 1, env).Some?
               && now == Bytes(WriteBody(ops[i], 1, env).value);
      UpdateWasFetched(w, before, latest, incremental, env, i);
    }
  }

  /** A rename of this pass brought another file's bytes to where those of `p` were. */
  ghost predicate RenamedOver(w: World, before: Filemeta, latest: Filemeta, incremental: bool, fetch: Fetch,
                              p: string)
  {
    var ops := Planned(w, before, latest, incremental);
    && !Refused(w, latest) && AllPlannable(Worklist(before, latest, incremental))
    && !Survives(w, ops, Env(Threshold(latest), fetch), |ops|, p)
  }

  /**
   * Safety, for every filemeta, every tree, every tracked state and every fetch
   * outcome: an old file's bytes are at its location still, or were overwritten
   * there with a body the update's fetch returned, or that location was deleted,
   * being no key of the filemeta, or a rename overwrote them. Deletions stay within the threshold
   * unless overridden, and a pass that is not accepted deletes nothing.
   */
  lemma BytesAreSafe(w: World, before: Filemeta, latest: Filemeta, incremental: bool, dels: seq<string>, allow: bool,
                     fetch: Fetch, p: string)
    requires Sound(w) && p in w.tree
    requires Lists(dels, ToDelete(PassMid(w, before, latest, incremental, fetch).w.tree, latest))
    ensures var (r, l, applied) := (Pass(w, before, latest, incremental, dels, allow, fetch),
                                    LocationIn(w, before, latest, incremental, p),
                                    Applied(w, before, latest, incremental, dels, allow));
            && (|| RenamedOver(w, before, latest, incremental, fetch, p)
                || (l in r.w.tree && r.w.tree[l] == w.tree[p])
                || (l in r.w.tree && WasFetched(latest, fetch, l, r.w.tree[l]))
                || (l in applied && !InFilemeta(latest, l) && !Skipped(l)))
            && (!r.accepted ==> applied == [])
            && (!allow ==> |applied| <= Threshold(latest))
  {
    if !Refused(w, latest) && AllPlannable(Worklist(before, latest, incremental)) {
      var ops, env := Planned(w, before, latest, incremental), Env(Threshold(latest), fetch);
      if Survives(w, ops, env, |ops|, p) {
        var applied := Applied(w, before, latest, incremental, dels, allow);
        PlannedSafely(w, before, latest, incremental, dels, fetch);
        SurvivorEndsWell(w, ops, env, applied, p);
        UpdatedWasFetched(w, before, latest, incremental, env, Location(ops, |ops|, p),
                          See(Final(w, ops, env, applied).w, File(Location(ops, |ops|, p))));
      }
    }
  }

  /**
   * For a movable plan, bytes are renamed over if and only if the pass runs and
   * plans a second rename to where it moves them: nothing here depends on what the
   * server answers.
   */
  lemma RenamedOverIff(w: World, before: Filemeta, latest: Filemeta, incremental: bool, fetch: Fetch, p: string)
    requires IsDict(w.state) && Movable(w, Planned(w, before, latest, incremental)) && p in w.tree
    ensures RenamedOver(w, before, latest, incremental, fetch, p) <==>
            !Refused(w, latest) && AllPlannable(Worklist(before, latest, incremental))
            && !KeptByPlan(Planned(w, before, latest, incremental), p)
  {
    if AllPlannable(Worklist(before, latest, incremental)) {
      PlanIsPlanned(w, Worklist(before, latest, incremental));
      SurvivesByPlan(w, Planned(w, before, latest, incremental), Env(Threshold(latest), fetch), p);
    }
  }

  /** No rename overwrites anything when no two keys name the same file. */
  lemma DistinctFilesAreSafe(w: World, before: Filemeta, latest: Filemeta, incremental: bool, fetch: Fetch, p: string)
    requires IsDict(w.state) && DistinctFiles(latest)
    ensures !RenamedOver(w, before, latest, incremental, fetch, p)
  {
    if AllPlannable(Worklist(before, latest, incremental)) {
      ChangedDistinct(before, latest);
      FilesDistinct(Synced(before, latest, incremental));
      forall e | e in Worklist(before, latest, incremental)
        ensures IsFile(e.1)
      {
        WorklistMembers(before, latest, incremental, e);
      }
      PlanIsWellPlanned(w, Worklist(before, latest, incremental));
      DistinctSurvive(w, Planned(w, before, latest, incremental), Env(Threshold(latest), fetch), p);
    }
  }

  /** Distinct old files that no rename overwrites have distinct locations, so each deletion costs at most one. */
  lemma DeletionsCostOneEach(w: World, before: Filemeta, latest: Filemeta, incremental: bool, fetch: Fetch,
                             p: string, q: string)
    requires p in w.tree && q in w.tree && p != q
    requires !RenamedOver(w, before, latest, incremental, fetch, p)
             && !RenamedOver(w, before, latest, incremental, fetch, q)
    ensures LocationIn(w, before, latest, incremental, p) != LocationIn(w, before, latest, incremental, q)
  {
    if !Refused(w, latest) && AllPlannable(Worklist(before, latest, incremental)) {
      var ops := Planned(w, before, latest, incremental);
      LocationsDistinct(w, ops, Env(Threshold(latest), fetch), |ops|, p, q);
    }
  }

  // ----- keys spelled otherwise -----

  /**
   * Why keys must be spelled like the file or with one leading slash: a visible
   * file under any other spelling is deleted by the pass that mirrors it.
   */
  lemma MisspelledIsDeleted(w: World, before: Filemeta, latest: Filemeta, incremental: bool, dels: seq<string>,
                            allow: bool, fetch: Fetch, j: nat)
    requires Sound(w) && AllPlannable(Worklist(before, latest, incremental)) && !Refused(w, latest)
    requires Lists(dels, ToDelete(PassMid(w, before, latest, incremental, fetch).w.tree, latest))
    requires !Gated(latest, dels, allow) && j < |latest| && IsFile(latest[j].1)
    requires var r := Relative(latest[j].0);
             && r.Some? && !Skipped(r.value) && !InFilemeta(latest, r.value)
             && r.value in PassMid(w, before, latest, incremental, fetch).w.tree
    ensures var r := Pass(w, before, latest, incremental, dels, allow, fetch);
            r.accepted && Relative(latest[j].0).value !in r.w.tree && !Mirrors(r.w.tree, latest)
  {
    var (ops, env) := (Planned(w, before, latest, incremental), Env(Threshold(latest), fetch));
    var r := Relative(latest[j].0).value;
    PlanIsPlanned(w, Worklist(before, latest, incremental));
    MidwaySound(w, ops, env);
    assert r in ToDelete(Midway(w, ops, env).w.tree, latest);
    assert r in dels;
    ListedIsGone(w, ops, env, dels, r);
    assert IsFilePath(latest, r);
  }
}
