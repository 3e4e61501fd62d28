/** The truncation budget of a pass, counted on what the server answers and what the files hold. */
module MirrorBudget {
  import opened Common
  import opened Dict
  import opened Filemeta
  import opened MirrorModel
  import opened MirrorFrames
  import opened MirrorPhases
  import opened MirrorFinish
  import opened MirrorTruncation
  import opened MirrorConvergence
  import opened PlainTerms

  /**
   * Update `i` gets the empty text of its kind for a file that is not empty when
   * the updates begin. A binary file has no empty text.
   */
  predicate Truncating(w: World, ops: seq<Op>, env: Env, i: nat)
    requires i < |ops|
  {
    var (op, body, mid) := (ops[i], env.fetch(1, ops[i].path, ops[i].id), Midway(w, ops, env).w.tree);
    && op.kind.Update? && body.Some? && IsEmptied(op.ftype, body.value)
    && Rel(op) in mid && mid[Rel(op)] != ""
  }

  ghost function AllTruncating(w: World, ops: seq<Op>, env: Env): set<nat> {
    set i: nat | i < |ops| && Truncating(w, ops, env, i)
  }

  ghost function Below(all: set<nat>, n: nat): set<nat> { set i | i in all && i < n }

  /** The truncating updates among the first `n` operations. */
  ghost function TruncatingBefore(w: World, ops: seq<Op>, env: Env, n: nat): set<nat> {
    Below(AllTruncating(w, ops, env), n)
  }

  lemma BelowNext(all: set<nat>, n: nat)
    ensures |Below(all, n + 1)| == |Below(all, n)| + if n in all then 1 else 0
  {
    assert Below(all, n + 1) == if n in all then Below(all, n) + {n} else Below(all, n);
  }

  lemma TruncatingIs(w: World, ops: seq<Op>, env: Env, i: nat)
    requires i < |ops|
    ensures Truncating(w, ops, env, i) <==> Empties(w, ops, env, i)
  {
    var body := env.fetch(1, ops[i].path, ops[i].id);
    if body.Some? {
      EmptiedIs(ops[i].ftype, body.value);
    }
  }

  lemma {:induction false} TruncatingCount(w: World, ops: seq<Op>, env: Env, n: nat)
    requires n <= |ops|
    ensures |TruncatingBefore(w, ops, env, n)| == Emptied(w, ops, env, n)
  {
    if n == 0 {
      assert TruncatingBefore(w, ops, env, 0) == {};
    } else {
      TruncatingCount(w, ops, env, n - 1);
      BelowNext(AllTruncating(w, ops, env), n - 1);
      IsTruncating(w, ops, env, n - 1);
    }
  }

  lemma IsTruncating(w: World, ops: seq<Op>, env: Env, i: nat)
    requires i < |ops|
    ensures i in AllTruncating(w, ops, env) <==> Empties(w, ops, env, i)
  {
    TruncatingIs(w, ops, env, i);
  }

  /** What an update ends with: its operation, its file and its entry. */
  ghost predicate EndsAs(f: Progress, i: nat, op: Op, error: Option<Fault>, file: Content, entry: Content)
  {
    && i < |f.ops| && f.ops[i].completed && f.ops[i].error == error
    && See(f.w, File(Rel(op))) == file && See(f.w, Entry(op.path)) == entry
  }

  /**
   * The budget on fields: of the truncating updates exactly the first `limit` in
   * plan order are applied; every later one keeps its bytes and carries the
   * truncation error. Every other update is applied whenever its body arrives.
   */
  lemma BudgetOnFields(w: World, ops: seq<Op>, env: Env, dels: seq<string>, i: nat)
    requires WellPlanned(w, ops) && Apart(ops, dels) && i < |ops| && ops[i].kind.Update?
    ensures var (m, f, op) := (Midway(w, ops, env).w, Final(w, ops, env, dels), ops[i]);
            var (file, entry) := (See(m, File(Rel(op))), See(m, Entry(op.path)));
            var body := env.fetch(1, op.path, op.id);
            if op.ftype.Binary? && op.hash.None? then EndsAs(f, i, op, Some(MissingHash), file, entry)
            else if body.None? then EndsAs(f, i, op, Some(FetchFailed), file, entry)
            else if Truncating(w, ops, env, i) && |TruncatingBefore(w, ops, env, i)| >= env.limit then
              EndsAs(f, i, op, Some(TruncationGated), file, entry) && file != Bytes("")
            else EndsAs(f, i, op, None, Bytes(body.value), Owner(Some(op.id)))
  {
    UpdatedAt(w, ops, env, dels, i);
    TruncatingIs(w, ops, env, i);
    TruncatingCount(w, ops, env, i);
    if WriteBody(ops[i], 1, env).None? {
      UpdateFault(w, ops, env, dels, i);
    }
  }

  lemma UpdateFault(w: World, ops: seq<Op>, env: Env, dels: seq<string>, i: nat)
    requires WellPlanned(w, ops) && Apart(ops, dels) && i < |ops| && ops[i].kind.Update?
    requires WriteBody(ops[i], 1, env).None?
    ensures Final(w, ops, env, dels).ops[i].error
         == Some(if ops[i].ftype.Binary? && ops[i].hash.None? then MissingHash else FetchFailed)
  {
    UpdateOutcome(w, ops, env, dels, i);
  }

  /** The pass ends as the last phase does, with a limit of 25 or a tenth of the listed entries. */
  lemma AcceptedPassIs(w: World, before: Filemeta, latest: Filemeta, incremental: bool, dels: seq<string>, allow: bool,
                       fetch: Fetch)
    requires Pass(w, before, latest, incremental, dels, allow, fetch).accepted
    ensures var r := Pass(w, before, latest, incremental, dels, allow, fetch);
            var f := Final(w, Planned(w, before, latest, incremental), Env(MassLimit(|Listing(latest)|), fetch), dels);
            r.w == f.w && r.ops == f.ops
  {
    FileCountIs(latest);
    ThresholdIs(FileCount(latest));
  }

  /**
   * In an accepted pass: an update of a document that gets "", or of a canvas that
   * gets the text of an empty one, over a file that is not empty, is applied if
   * fewer than max(n / 10, 25) such updates come before it in the plan, where n is
   * the number of listed entries, and refused with its bytes kept otherwise. No
   * other update is refused.
   */
  lemma PassBudget(w: World, before: Filemeta, latest: Filemeta, incremental: bool, dels: seq<string>, allow: bool,
                   fetch: Fetch, i: nat)
    requires Ready(w, before, latest, incremental, dels, fetch) && Canonical(latest)
    requires Pass(w, before, latest, incremental, dels, allow, fetch).accepted
    requires i < |Planned(w, before, latest, incremental)| && Planned(w, before, latest, incremental)[i].kind.Update?
    ensures var (ops, limit) := (Planned(w, before, latest, incremental), MassLimit(|Listing(latest)|));
            var (r, env) := (Pass(w, before, latest, incremental, dels, allow, fetch), Env(limit, fetch));
            var (op, mid, body) := (ops[i], Midway(w, ops, env).w, fetch(1, ops[i].path, ops[i].id));
            var refused := Truncating(w, ops, env, i) && |TruncatingBefore(w, ops, env, i)| >= limit;
            && i < |r.ops| && (r.ops[i].error == Some(TruncationGated) <==> refused)
            && (refused ==> See(mid, File(Rel(op))) != Bytes("")
                            && See(r.w, File(Rel(op))) == See(mid, File(Rel(op))))
            && (!refused && body.Some? ==> See(r.w, File(Rel(op))) == Bytes(body.value)
                                           && See(r.w, Entry(op.path)) == Owner(Some(op.id)))
  {
    var (ops, env) := (Planned(w, before, latest, incremental), Env(MassLimit(|Listing(latest)|), fetch));
    AcceptedPassIs(w, before, latest, incremental, dels, allow, fetch);
    DeletionsAreApart(w, before, latest, incremental, dels, fetch);
    StemsFrom(w, before, latest, incremental, i);
    BudgetOnFields(w, ops, env, dels, i);
  }

  /** A binary update is never refused. */
  lemma BinaryIsNeverGated(w: World, ops: seq<Op>, env: Env, dels: seq<string>, i: nat)
    requires WellPlanned(w, ops) && Apart(ops, dels) && i < |ops| && ops[i].kind.Update? && ops[i].ftype.Binary?
    ensures Final(w, ops, env, dels).ops[i].error != Some(TruncationGated)
  {
    BudgetOnFields(w, ops, env, dels, i);
  }
}
