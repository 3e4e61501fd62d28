/** What a phase of operations leaves alone, and what a single one decides. */
module MirrorFrames {
  import opened Common
  import opened Dict
  import opened Filemeta
  import opened MirrorModel
  import Paths

  /** A file of the tree, or an entry of the tracked state. */
  datatype Place = File(rel: string) | Entry(path: string)

  datatype Content = Absent | Bytes(body: Body) | Owner(id: Option<string>)

  function See(w: World, place: Place): Content {
    match place
    case File(p) => if p in w.tree then Bytes(w.tree[p]) else Absent
    case Entry(k) => var owner := Get(w.state, k); if owner.Some? then Owner(owner.value) else Absent
  }

  /** The places an operation can change. A rename that raises changes nothing. */
  predicate Touches(op: Op, place: Place) {
    match op.kind
    case Noop => false
    case Rename =>
      && Relative(op.fromPath).Some? && Relative(op.path).Some?
      && (match place
          case File(p) => Relative(op.path).value == p || Relative(op.fromPath).value == p
          case Entry(k) => op.path == k || op.fromPath == k)
    case _ => (match place case File(p) => Relative(op.path) == Some(p) case Entry(k) => op.path == k)
  }

  lemma ExecFrame(w: World, op: Op, applied: nat, round: nat, env: Env, place: Place)
    requires !Touches(op, place)
    ensures See(Exec(w, op, applied, round, env).w, place) == See(w, place)
  {
    if place.Entry? {
      GetPut(w.state, op.path, Some(op.id), place.path);
      GetRemove(w.state, op.path, place.path);
      GetRemove(w.state, op.fromPath, place.path);
      var owner := Get(w.state, op.fromPath);
      GetPut(Remove(w.state, op.fromPath), op.path, if owner.Some? then owner.value else None, place.path);
    }
  }

  /** Operations not yet reached are as they were. */
  lemma {:induction false} RunLeaves(p: Progress, phase: Phase, env: Env, n: nat, j: nat)
    requires n <= j < |p.ops|
    ensures Run(p, phase, env, n).ops[j] == p.ops[j]
  {
    if n > 0 {
      RunLeaves(p, phase, env, n - 1, j);
    }
  }

  /** An operation keeps what its own turn made of it. */
  lemma {:induction false} RunKeeps(p: Progress, phase: Phase, env: Env, j: nat, n: nat)
    requires j < n <= |p.ops|
    ensures Run(p, phase, env, n).ops[j] ==
            if Selected(phase, p.ops[j])
            then Exec(Run(p, phase, env, j).w, p.ops[j], Run(p, phase, env, j).applied, Round(phase), env).op
            else p.ops[j]
    decreases n
  {
    if j < n - 1 {
      RunKeeps(p, phase, env, j, n - 1);
    } else {
      RunLeaves(p, phase, env, j, j);
    }
  }

  /** No selected operation in [lo, hi) touches the place. */
  ghost predicate Untouched(p: Progress, phase: Phase, lo: nat, hi: nat, place: Place)
    requires hi <= |p.ops|
  {
    forall j :: lo <= j < hi && Selected(phase, p.ops[j]) ==> !Touches(p.ops[j], place)
  }

  lemma {:induction false} Frame(p: Progress, phase: Phase, env: Env, lo: nat, hi: nat, place: Place)
    requires lo <= hi <= |p.ops| && Untouched(p, phase, lo, hi, place)
    ensures See(Run(p, phase, env, hi).w, place) == See(Run(p, phase, env, lo).w, place)
    decreases hi
  {
    if lo < hi {
      Frame(p, phase, env, lo, hi - 1, place);
      RunLeaves(p, phase, env, hi - 1, hi - 1);
      var q := Run(p, phase, env, hi - 1);
      if Selected(phase, q.ops[hi - 1]) {
        ExecFrame(q.w, q.ops[hi - 1], q.applied, Round(phase), env, place);
      }
    }
  }

  /** A place touched by one operation alone ends as that operation leaves it. */
  lemma OneTouch(p: Progress, phase: Phase, env: Env, i: nat, n: nat, place: Place)
    requires i < n <= |p.ops| && Selected(phase, p.ops[i])
    requires Untouched(p, phase, 0, i, place) && Untouched(p, phase, i + 1, n, place)
    ensures var q := Run(p, phase, env, i);
            && See(q.w, place) == See(p.w, place)
            && See(Run(p, phase, env, n).w, place) == See(Exec(q.w, p.ops[i], q.applied, Round(phase), env).w, place)
  {
    Frame(p, phase, env, 0, i, place);
    RunLeaves(p, phase, env, i, i);
    Frame(p, phase, env, i + 1, n, place);
  }

  // ----- invariants of every world a pass goes through -----

  /** Tree paths are spelled as the walk spells them. */
  ghost predicate Spelled(tree: Tree) {
    forall p :: p in tree ==> Relative(p) == Some(p)
  }

  lemma RelativeSpelled(path: string)
    requires Relative(path).Some?
    ensures Relative(Relative(path).value) == Relative(path)
    ensures Relative("/" + Relative(path).value) == Relative(path)
  {
    Paths.RelativeIsCanonical(path);
  }

  ghost predicate Sound(w: World) { Spelled(w.tree) && IsDict(w.state) }

  lemma WrittenSound(w: World, path: string, id: string, body: Body)
    requires Sound(w) && Relative(path).Some?
    ensures Sound(Written(w, Relative(path).value, path, id, body))
  {
    RelativeSpelled(path);
    PutIsDict(w.state, path, Some(id));
  }

  lemma MovedSound(w: World, from: string, dest: string)
    requires Sound(w) && Relative(from).Some? && Relative(dest).Some?
    ensures Sound(Moved(w, from, Relative(from).value, dest, Relative(dest).value))
  {
    RelativeSpelled(dest);
    RemoveIsDict(w.state, from);
    var owner := Get(w.state, from);
    PutIsDict(Remove(w.state, from), dest, if owner.Some? then owner.value else None);
  }

  lemma ExecSound(w: World, op: Op, applied: nat, round: nat, env: Env)
    requires Sound(w)
    ensures Sound(Exec(w, op, applied, round, env).w)
  {
    match op.kind
    case Rename =>
      if Relative(op.fromPath).Some? && Relative(op.path).Some? {
        MovedSound(w, op.fromPath, op.path);
      }
    case Delete => RemoveIsDict(w.state, op.path);
    case Noop =>
    case _ =>
      var body := env.fetch(round, op.path, op.id);
      if Relative(op.path).Some? && body.Some? {
        WrittenSound(w, op.path, op.id, body.value);
      }
  }

  lemma {:induction false} RunSound(p: Progress, phase: Phase, env: Env, n: nat)
    requires n <= |p.ops| && Sound(p.w)
    ensures Sound(Run(p, phase, env, n).w)
  {
    if n > 0 {
      RunSound(p, phase, env, n - 1);
      var q := Run(p, phase, env, n - 1);
      ExecSound(q.w, q.ops[n - 1], q.applied, Round(phase), env);
    }
  }

  lemma MidwaySound(w: World, ops: seq<Op>, env: Env)
    requires Sound(w)
    ensures Sound(AfterCreates(w, ops, env).w) && Sound(Midway(w, ops, env).w)
  {
    RunSound(Start(w, ops), Creating, env, |ops|);
    RunSound(AfterCreates(w, ops, env), Renaming, env, |ops|);
  }
}
