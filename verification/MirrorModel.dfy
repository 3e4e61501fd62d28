/**
 * One mirror pass over a folder as functions of values: the plan, the single
 * operations and their order (`sync_engine.py`), with the file operations of
 * `persistence.py`. The tree maps the relative path of each file, as `os.walk`
 * spells it, to its contents; directories are not part of this model.
 */
module MirrorModel {
  import opened Common
  import opened Dict
  import opened Filemeta
  import opened Text
  import Paths
  import TruncationWindow

  datatype FileType = Document | Canvas | Binary

  function TypeOf(typ: string): FileType {
    if typ == "document" || typ == "markdown" then Document else if typ == "canvas" then Canvas else Binary
  }

  const EMPTY_CANVAS: Body := "{\n  \"edges\": [],\n  \"nodes\": []\n}"

  function EmptyBody(t: FileType): Body { if t.Canvas? then EMPTY_CANVAS else "" }

  type Tree = map<string, Body>

  /** `local_file_state` of the folder: which document each tracked path belongs to. */
  type Tracking = Dict<Option<string>>

  datatype World = World(tree: Tree, state: Tracking)

  datatype Kind = Create | Update | Rename | Delete | Noop

  datatype Fault = MissingHash | FetchFailed | TruncationGated | Raised

  datatype Op = Op(kind: Kind, path: string, id: string, ftype: FileType, hash: Option<Body>, fromPath: string,
                   completed: bool, error: Option<Fault>)

  function Relative(path: string): Option<string> { Paths.Relative(path) }

  // ----- planning -----

  /** `find_local_file_by_doc_id`: the first path tracked for the document. */
  function FindByDocId(state: Tracking, id: string): Option<string> {
    if state == [] then None else if state[0].1 == Some(id) then Some(state[0].0) else FindByDocId(state[1..], id)
  }

  /** Planning raises on a path that cannot be sanitised and on an entry without a type. */
  predicate Plannable(path: string, m: Meta) {
    Relative(path).Some? && m.Meta? && m.typ.Some? && m.typ.value != ""
  }

  /** `apply_remote_state` for a file entry. */
  function PlanOp(w: World, path: string, m: Meta): Op {
    var id := if HasId(m) then m.id.value else "";
    var typ := if m.Meta? && m.typ.Some? then TypeOf(m.typ.value) else Binary;
    var hash := if m.Meta? then m.hash else None;
    var full := Relative(path);
    var op := Op(Create, path, id, typ, hash, "", false, None);
    if full.Some? && full.value in w.tree then
      if hash.None? || w.tree[full.value] != hash.value then op.(kind := Update)
      else op.(kind := Noop, completed := true)
    else
      var tracked := FindByDocId(w.state, id);
      if tracked.Some? && tracked.value != "" && tracked.value != path then
        op.(kind := Rename, fromPath := tracked.value)
      else op
  }

  function PlanOps(w: World, files: Filemeta): seq<Op> {
    seq(|files|, i requires 0 <= i < |files| => PlanOp(w, files[i].0, files[i].1))
  }

  predicate AllPlannable(files: Filemeta) {
    forall i :: 0 <= i < |files| ==> Plannable(files[i].0, files[i].1)
  }

  // ----- single operations -----

  /** Answers of the relay server by round, path and document id. */
  type Fetch = (nat, string, string) -> Option<Body>

  datatype Env = Env(limit: nat, fetch: Fetch)

  datatype Outcome = Outcome(w: World, op: Op, applied: nat)

  function Failed(op: Op, f: Fault): Op { op.(completed := true, error := Some(f)) }

  function Written(w: World, rel: string, path: string, id: string, body: Body): World {
    World(w.tree[rel := body], Put(w.state, path, Some(id)))
  }

  function Moved(w: World, from: string, fromRel: string, to: string, toRel: string): World {
    if fromRel !in w.tree then w
    else
      var owner := Get(w.state, from);
      World((w.tree - {fromRel})[toRel := w.tree[fromRel]],
            Put(Remove(w.state, from), to, if owner.Some? then owner.value else None))
  }

  function Deleted(w: World, rel: string, path: string): World {
    if rel in w.tree then World(w.tree - {rel}, Remove(w.state, path)) else w
  }

  /** Would this write empty a file that is not empty? */
  predicate Truncates(tree: Tree, op: Op, rel: string, body: Body) {
    op.kind.Update? && !op.ftype.Binary? && body == EmptyBody(op.ftype) && rel in tree && tree[rel] != ""
  }

  function ExecWrite(w: World, op: Op, applied: nat, round: nat, env: Env): Outcome {
    var rel := Relative(op.path);
    if op.ftype.Binary? && op.hash.None? then Outcome(w, Failed(op, MissingHash), applied)
    else
      match env.fetch(round, op.path, op.id)
      case None => Outcome(w, Failed(op, FetchFailed), applied)
      case Some(body) =>
        if rel.None? then Outcome(w, op.(error := Some(Raised)), applied)
        else if Truncates(w.tree, op, rel.value, body) then
          if applied >= env.limit then Outcome(w, Failed(op, TruncationGated), applied)
          else Outcome(Written(w, rel.value, op.path, op.id, body), op.(completed := true), applied + 1)
        else Outcome(Written(w, rel.value, op.path, op.id, body), op.(completed := true), applied)
  }

  /** `execute_sync_operation`: an operation that raises keeps `completed` false. */
  function Exec(w: World, op: Op, applied: nat, round: nat, env: Env): Outcome {
    match op.kind
    case Create => ExecWrite(w, op, applied, round, env)
    case Update => ExecWrite(w, op, applied, round, env)
    case Rename =>
      var from, to := Relative(op.fromPath), Relative(op.path);
      if from.None? || to.None? then Outcome(w, op.(error := Some(Raised)), applied)
      else Outcome(Moved(w, op.fromPath, from.value, op.path, to.value), op.(completed := true), applied)
    case Delete =>
      var rel := Relative(op.path);
      if rel.None? then Outcome(w, op.(error := Some(Raised)), applied)
      else Outcome(Deleted(w, rel.value, op.path), op.(completed := true), applied)
    case Noop => Outcome(w, op.(completed := true), applied)
  }

  // ----- the order of a pass -----

  datatype Phase = Creating | Renaming | Finishing

  predicate Selected(phase: Phase, op: Op) {
    match phase
    case Creating => op.kind.Create? && !op.completed && op.error.None?
    case Renaming => op.kind.Rename? && !op.completed && op.error.None?
    case Finishing => !op.completed
  }

  function Round(phase: Phase): nat { if phase.Finishing? then 1 else 0 }

  datatype Progress = Progress(w: World, ops: seq<Op>, applied: nat)

  function StepAt(p: Progress, i: nat, phase: Phase, env: Env): Progress
    requires i < |p.ops|
  {
    var out := Exec(p.w, p.ops[i], p.applied, Round(phase), env);
    Progress(out.w, p.ops[i := out.op], out.applied)
  }

  /** The first `n` operations of a phase. */
  function Run(p: Progress, phase: Phase, env: Env, n: nat): (q: Progress)
    requires n <= |p.ops|
    ensures |q.ops| == |p.ops|
  {
    if n == 0 then p
    else
      var q := Run(p, phase, env, n - 1);
      if Selected(phase, q.ops[n - 1]) then StepAt(q, n - 1, phase, env) else q
  }

  function Start(w: World, ops: seq<Op>): Progress { Progress(w, ops, 0) }

  function AfterCreates(w: World, ops: seq<Op>, env: Env): (p: Progress)
    ensures |p.ops| == |ops|
  {
    Run(Start(w, ops), Creating, env, |ops|)
  }

  /** Creates and renames are complete; deletions are computed here. */
  function Midway(w: World, ops: seq<Op>, env: Env): (p: Progress)
    ensures |p.ops| == |ops|
  {
    Run(AfterCreates(w, ops, env), Renaming, env, |ops|)
  }

  function DeleteOp(path: string): Op { Op(Delete, path, "", Binary, None, "", false, None) }

  function DeleteOps(paths: seq<string>): seq<Op> {
    seq(|paths|, i requires 0 <= i < |paths| => DeleteOp(paths[i]))
  }

  function Finish(mid: Progress, dels: seq<string>, env: Env): Progress {
    Run(mid.(ops := mid.ops + DeleteOps(dels)), Finishing, env, |mid.ops| + |dels|)
  }

  /** A path below a directory named ".git", which the walk never enters. */
  predicate InGitDir(path: string) {
    var parts := Split(path, '/');
    ".git" in parts[..|parts| - 1]
  }

  /** What `cleanup_extra_local_files` never deletes. */
  predicate Skipped(path: string) { ".git" <= path || InGitDir(path) }

  /** What `_local_file_count` counts. */
  predicate Counted(path: string) {
    var parts := Split(path, '/');
    !InGitDir(path) && !(".git" <= parts[|parts| - 1])
  }

  predicate InFilemeta(fm: Filemeta, path: string) { Has(fm, path) || Has(fm, "/" + path) }

  function ToDelete(tree: Tree, fm: Filemeta): set<string> {
    set p | p in tree && !Skipped(p) && !InFilemeta(fm, p)
  }

  /** Some order of the walk. */
  ghost predicate Lists(paths: seq<string>, all: set<string>) {
    && (forall p :: p in paths <==> p in all)
    && (forall i, j :: 0 <= i < j < |paths| ==> paths[i] != paths[j])
  }

  function LocalCount(tree: Tree): nat { |set p | p in tree && Counted(p)| }

  // ----- the pass -----

  datatype PassResult = PassResult(w: World, ops: seq<Op>, accepted: bool)

  function Synced(before: Filemeta, latest: Filemeta, incremental: bool): Filemeta {
    if incremental then Changed(before, latest) else latest
  }

  function Threshold(fm: Filemeta): nat { TruncationWindow.MassChangeThreshold(FileCount(fm)) }

  /** A wholly empty filemeta against local files is a publication or reset, never a deletion. */
  predicate Refused(w: World, latest: Filemeta) { FileCount(latest) == 0 && LocalCount(w.tree) > 0 }

  function Planned(w: World, before: Filemeta, latest: Filemeta, incremental: bool): seq<Op> {
    PlanOps(w, Files(Synced(before, latest, incremental)))
  }

  function PassMid(w: World, before: Filemeta, latest: Filemeta, incremental: bool, fetch: Fetch): Progress {
    Midway(w, Planned(w, before, latest, incremental), Env(Threshold(latest), fetch))
  }

  predicate Gated(latest: Filemeta, dels: seq<string>, allow: bool) { |dels| > Threshold(latest) && !allow }

  /** `_apply_remote_folder_changes`; `dels` is what the walk found to delete. */
  function Pass(w: World, before: Filemeta, latest: Filemeta, incremental: bool, dels: seq<string>, allow: bool,
                fetch: Fetch): PassResult
  {
    if Refused(w, latest) || !AllPlannable(Files(Synced(before, latest, incremental))) then PassResult(w, [], false)
    else
      var mid := PassMid(w, before, latest, incremental, fetch);
      var gated := Gated(latest, dels, allow);
      var end := Finish(mid, if gated then [] else dels, Env(Threshold(latest), fetch));
      PassResult(end.w, end.ops, !gated)
  }
}
