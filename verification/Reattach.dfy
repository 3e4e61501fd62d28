/** `_ensure_configured_branch` of `persistence.py`: reattaching a detached HEAD. */
module Reattach {
  import opened Common
  import opened Dict
  import opened CommitGraph

  datatype Head = Detached(commit: nat) | Attached(branch: string)

  /** `branches` is `git_repo.heads`. */
  datatype Repo = Repo(graph: Graph, branches: Dict<nat>, head: Head)

  /** The first twelve digits of a commit's name. */
  type Sha = nat -> string

  /** Twelve digits tell the commits of this history apart. */
  ghost predicate TellsApart(sha: Sha, g: Graph) {
    && (forall a :: 0 <= a < |g| ==> |sha(a)| == 12)
    && (forall a, b :: 0 <= a < |g| && 0 <= b < |g| && sha(a) == sha(b) ==> a == b)
  }

  const RECOVERY := "recovery/"

  function Dashed(s: string): string {
    if s == "" then "" else [if s[0] == '/' then '-' else s[0]] + Dashed(s[1..])
  }

  function RecoveryName(branch: string, tip: nat, sha: Sha): string { RECOVERY + Dashed(branch) + "-" + sha(tip) }

  /** The connector's branch, else the only branch there is, else "main". */
  function Chosen(connector: Option<string>, branches: Dict<nat>): string {
    if connector.Some? then connector.value
    else if |branches| == 1 then branches[0].0
    else "main"
  }

  function Reattached(r: Repo, connector: Option<string>, sha: Sha): Repo {
    match r.head
    case Attached(_) => r
    case Detached(commit) =>
      var name := Chosen(connector, r.branches);
      var tip := Get<nat>(r.branches, name);
      var kept :=
        if tip.None? || tip.value == commit || Has<nat>(r.branches, RecoveryName(name, tip.value, sha)) then r.branches
        else Put<nat>(r.branches, RecoveryName(name, tip.value, sha), tip.value);
      r.(branches := Put<nat>(kept, name, commit), head := Attached(name))
  }

  class GitRepo {
    var graph: Graph
    var branches: Dict<nat>
    var head: Head

    ghost function View(): Repo
      reads this
    {
      Repo(graph, branches, head)
    }

    constructor (r: Repo)
      ensures View() == r
    {
      graph, branches, head := r.graph, r.branches, r.head;
    }

    method EnsureConfiguredBranch(connector: Option<string>, sha: Sha)
      modifies this`branches, this`head
      ensures View() == Reattached(old(View()), connector, sha)
    {
      if head.Attached? {
        return;
      }
      var detached := head.commit;
      var name := Chosen(connector, branches);
      var target := Get<nat>(branches, name);
      if target.None? {
        branches := Put<nat>(branches, name, detached);
      } else if target.value != detached {
        var recovery := RecoveryName(name, target.value, sha);
        if !Has<nat>(branches, recovery) {
          branches := Put<nat>(branches, recovery, target.value);
        }
        branches := Put<nat>(branches, name, detached);
      } else {
        PutSame(branches, name);
      }
      head := Attached(name);
    }
  }

  lemma {:induction false} PutSame(d: Dict<nat>, k: string)
    requires Has<nat>(d, k)
    ensures Put<nat>(d, k, Get<nat>(d, k).value) == d
  {
    if d[0].0 != k {
      PutSame(d[1..], k);
    }
  }

  ghost predicate Valid(r: Repo) {
    && WellFormed(r.graph)
    && (forall b :: Has<nat>(r.branches, b) ==> Get<nat>(r.branches, b).value < |r.graph|)
    && (match r.head case Detached(c) => c < |r.graph| case Attached(b) => Has<nat>(r.branches, b))
  }

  function HeadCommit(r: Repo): nat
    requires r.head.Attached? ==> Has<nat>(r.branches, r.head.branch)
  {
    match r.head case Detached(c) => c case Attached(b) => Get<nat>(r.branches, b).value
  }

  ghost predicate OnBranch(r: Repo, c: nat, b: string)
    requires Valid(r)
  {
    Has<nat>(r.branches, b) && Ancestor(r.graph, c, Get<nat>(r.branches, b).value)
  }

  ghost predicate OnSomeBranch(r: Repo, c: nat)
    requires Valid(r)
  {
    exists b :: OnBranch(r, c, b)
  }

  /** Reachable from a branch or from HEAD. */
  ghost predicate Reachable(r: Repo, c: nat)
    requires Valid(r)
  {
    OnSomeBranch(r, c) || Ancestor(r.graph, c, HeadCommit(r))
  }

  predicate IsRecovery(b: string) { RECOVERY <= b }

  /** Every recovery branch points to the commit its twelve-digit suffix names. */
  ghost predicate Named(r: Repo, sha: Sha) {
    forall b :: Has<nat>(r.branches, b) && IsRecovery(b) ==>
      |b| >= 12 && b[|b| - 12..] == sha(Get<nat>(r.branches, b).value)
  }

  lemma RecoverySuffix(branch: string, tip: nat, sha: Sha)
    requires |sha(tip)| == 12
    ensures var n := RecoveryName(branch, tip, sha); IsRecovery(n) && |n| >= 12 && n[|n| - 12..] == sha(tip)
  {
    var front := RECOVERY + Dashed(branch) + "-";
    assert RecoveryName(branch, tip, sha) == front + sha(tip);
    assert RECOVERY <= front;
  }

  /** What each branch is after a reattachment. */
  lemma BranchAfter(r: Repo, connector: Option<string>, sha: Sha, b: string)
    requires r.head.Detached?
    ensures var name := Chosen(connector, r.branches);
            var tip := Get<nat>(r.branches, name);
            Get<nat>(Reattached(r, connector, sha).branches, b) ==
              if b == name then Some(r.head.commit)
              else if Has<nat>(r.branches, b) || tip.None? || tip.value == r.head.commit then Get<nat>(r.branches, b)
              else if b == RecoveryName(name, tip.value, sha) then tip
              else None
  {
    var name := Chosen(connector, r.branches);
    var tip := Get<nat>(r.branches, name);
    GetPut<nat>(r.branches, name, r.head.commit, b);
    if tip.Some? {
      var recovery := RecoveryName(name, tip.value, sha);
      GetPut<nat>(r.branches, recovery, tip.value, b);
      GetPut<nat>(Put<nat>(r.branches, recovery, tip.value), name, r.head.commit, b);
    }
  }

  lemma ReattachedValid(r: Repo, connector: Option<string>, sha: Sha)
    requires Valid(r)
    ensures Valid(Reattached(r, connector, sha))
    ensures HeadCommit(Reattached(r, connector, sha)) == HeadCommit(r)
    ensures r.head.Detached? ==> Reattached(r, connector, sha).head == Attached(Chosen(connector, r.branches))
  {
    if r.head.Detached? {
      forall b {
        BranchAfter(r, connector, sha, b);
      }
    }
  }

  lemma ReattachedNamed(r: Repo, connector: Option<string>, sha: Sha)
    requires Valid(r) && TellsApart(sha, r.graph) && Named(r, sha) && !IsRecovery(Chosen(connector, r.branches))
    ensures Named(Reattached(r, connector, sha), sha)
  {
    if r.head.Detached? {
      var name := Chosen(connector, r.branches);
      var tip := Get<nat>(r.branches, name);
      if tip.Some? {
        RecoverySuffix(name, tip.value, sha);
      }
      forall b {
        BranchAfter(r, connector, sha, b);
      }
    }
  }

  /** The branch that still leads to what branch `b` led to. */
  lemma Preserved(r: Repo, connector: Option<string>, sha: Sha, b: string) returns (b': string)
    requires Valid(r) && TellsApart(sha, r.graph) && Named(r, sha) && Has<nat>(r.branches, b)
    ensures Get<nat>(Reattached(r, connector, sha).branches, b') == Get<nat>(r.branches, b)
  {
    b' := b;
    if r.head.Detached? {
      var name := Chosen(connector, r.branches);
      var tip := Get<nat>(r.branches, name);
      if b == name && tip.value != r.head.commit {
        b' := RecoveryName(name, tip.value, sha);
        RecoverySuffix(name, tip.value, sha);
        if b' == name {
          assert sha(tip.value) == b'[|b'| - 12..];
          RecoveryIsLonger(name, tip.value, sha);
        }
      }
      BranchAfter(r, connector, sha, b');
    }
  }

  lemma {:induction false} DashedLength(s: string)
    ensures |Dashed(s)| == |s|
  {
    if s != "" {
      DashedLength(s[1..]);
    }
  }

  lemma RecoveryIsLonger(branch: string, tip: nat, sha: Sha)
    ensures |RecoveryName(branch, tip, sha)| > |branch|
  {
    DashedLength(branch);
  }

  /**
   * Reattaching loses nothing: what a branch or HEAD reached is reached by a
   * branch afterwards, HEAD's commit is unchanged and on the chosen branch.
   */
  lemma ReattachLosesNothing(r: Repo, connector: Option<string>, sha: Sha, c: nat)
    requires Valid(r) && TellsApart(sha, r.graph) && Named(r, sha) && Reachable(r, c)
    ensures Valid(Reattached(r, connector, sha)) && OnSomeBranch(Reattached(r, connector, sha), c)
  {
    ReattachedValid(r, connector, sha);
    var t := Reattached(r, connector, sha);
    if OnSomeBranch(r, c) {
      var b :| OnBranch(r, c, b);
      var b' := Preserved(r, connector, sha, b);
      assert OnBranch(t, c, b');
    } else {
      assert OnBranch(t, c, t.head.branch);
    }
  }

  // ----- repeated reattachments -----

  /** Commits on HEAD, checkouts that detach it, new ordinary branches, and the reattachment itself. */
  datatype Step =
    | Commits(change: nat)
    | Detaches(commit: nat)
    | Branches(name: string, commit: nat)
    | Reattaches(connector: Option<string>)

  ghost predicate Enabled(r: Repo, step: Step) {
    match step
    case Commits(_) => r.head.Attached? ==> !IsRecovery(r.head.branch)
    case Detaches(c) => r.head.Attached? && c < |r.graph|
    case Branches(name, c) => !Has<nat>(r.branches, name) && !IsRecovery(name) && c < |r.graph|
    case Reattaches(connector) => !IsRecovery(Chosen(connector, r.branches))
  }

  ghost function Apply(r: Repo, step: Step, sha: Sha): Repo
    requires Valid(r) && Enabled(r, step)
  {
    match step
    case Commits(change) =>
      var grown := r.graph + [Commit([HeadCommit(r)], change)];
      if r.head.Detached? then r.(graph := grown, head := Detached(|r.graph|))
      else r.(graph := grown, branches := Put<nat>(r.branches, r.head.branch, |r.graph|))
    case Detaches(c) => r.(head := Detached(c))
    case Branches(name, c) => r.(branches := Put<nat>(r.branches, name, c))
    case Reattaches(connector) => Reattached(r, connector, sha)
  }

  ghost predicate Good(r: Repo, sha: Sha) { Valid(r) && Named(r, sha) }

  lemma CommitKeeps(r: Repo, change: nat, sha: Sha)
    requires Good(r, sha) && Enabled(r, Commits(change))
    ensures Good(Apply(r, Commits(change), sha), sha)
    ensures forall c | Reachable(r, c) :: Reachable(Apply(r, Commits(change), sha), c)
  {
    var t := Apply(r, Commits(change), sha);
    var head := HeadCommit(r);
    AppendWellFormed(r.graph, Commit([head], change));
    if r.head.Attached? {
      forall b {
        GetPut<nat>(r.branches, r.head.branch, |r.graph|, b);
      }
    }
    forall c | Reachable(r, c)
      ensures Reachable(t, c)
    {
      if Ancestor(r.graph, c, head) {
        AncestorStable(r.graph, t.graph, c, head);
        assert Ancestor(t.graph, c, t.graph[|r.graph|].parents[0]);
        assert Ancestor(t.graph, c, HeadCommit(t));
      } else {
        var b :| OnBranch(r, c, b);
        AncestorStable(r.graph, t.graph, c, Get<nat>(r.branches, b).value);
        assert OnBranch(t, c, b);
      }
    }
  }

  lemma DetachKeeps(r: Repo, commit: nat, sha: Sha)
    requires Good(r, sha) && Enabled(r, Detaches(commit))
    ensures Good(Apply(r, Detaches(commit), sha), sha)
    ensures forall c | Reachable(r, c) :: Reachable(Apply(r, Detaches(commit), sha), c)
  {
    var t := Apply(r, Detaches(commit), sha);
    forall c | Reachable(r, c)
      ensures OnSomeBranch(t, c)
    {
      var b := r.head.branch;
      if OnSomeBranch(r, c) {
        b :| OnBranch(r, c, b);
      }
      assert OnBranch(t, c, b);
    }
  }

  lemma BranchKeeps(r: Repo, name: string, commit: nat, sha: Sha)
    requires Good(r, sha) && Enabled(r, Branches(name, commit))
    ensures Good(Apply(r, Branches(name, commit), sha), sha)
    ensures forall c | Reachable(r, c) :: Reachable(Apply(r, Branches(name, commit), sha), c)
  {
    var t := Apply(r, Branches(name, commit), sha);
    forall b {
      GetPut<nat>(r.branches, name, commit, b);
    }
    forall c | OnSomeBranch(r, c)
      ensures OnSomeBranch(t, c)
    {
      var b :| OnBranch(r, c, b);
      assert OnBranch(t, c, b);
    }
  }

  lemma StepKeeps(r: Repo, step: Step, sha: Sha)
    requires TellsApart(sha, r.graph) && Good(r, sha) && Enabled(r, step)
    ensures Good(Apply(r, step, sha), sha)
    ensures forall c | Reachable(r, c) :: Reachable(Apply(r, step, sha), c)
  {
    match step
    case Commits(change) => CommitKeeps(r, change, sha);
    case Detaches(commit) => DetachKeeps(r, commit, sha);
    case Branches(name, commit) => BranchKeeps(r, name, commit, sha);
    case Reattaches(connector) =>
      ReattachedValid(r, connector, sha);
      ReattachedNamed(r, connector, sha);
      forall c | Reachable(r, c)
        ensures Reachable(Reattached(r, connector, sha), c)
      {
        ReattachLosesNothing(r, connector, sha, c);
      }
  }

  ghost predicate Next(r: Repo, t: Repo, sha: Sha) {
    Valid(r) && exists step :: Enabled(r, step) && t == Apply(r, step, sha)
  }

  ghost predicate IsRun(run: seq<Repo>, sha: Sha) {
    run != [] && forall k :: 0 <= k < |run| - 1 ==> Next(run[k], run[k + 1], sha)
  }

  lemma NextGrows(r: Repo, t: Repo, sha: Sha)
    requires Next(r, t, sha)
    ensures r.graph <= t.graph
  {
    var step :| Enabled(r, step) && t == Apply(r, step, sha);
  }

  /**
   * Over any run nothing once reachable is ever lost, and recovery branches keep
   * naming their commits, as long as twelve digits tell apart the commits made so far.
   */
  lemma {:induction false} RunLosesNothing(run: seq<Repo>, i: nat, j: nat, sha: Sha, c: nat)
    requires IsRun(run, sha) && Good(run[0], sha)
    requires i <= j < |run| && TellsApart(sha, run[j].graph)
    ensures Good(run[i], sha) && Good(run[j], sha)
    ensures Reachable(run[i], c) ==> Reachable(run[j], c)
    decreases j
  {
    if j > 0 {
      assert Next(run[j - 1], run[j - 1 + 1], sha);
      NextGrows(run[j - 1], run[j], sha);
      RunLosesNothing(run, if i == j then i - 1 else i, j - 1, sha, c);
      NextKeeps(run[j - 1], run[j], sha, c);
    }
  }

  lemma NextKeeps(r: Repo, t: Repo, sha: Sha, c: nat)
    requires TellsApart(sha, r.graph) && Good(r, sha) && Next(r, t, sha)
    ensures Good(t, sha) && (Reachable(r, c) ==> Reachable(t, c))
  {
    var step :| Enabled(r, step) && t == Apply(r, step, sha);
    StepKeeps(r, step, sha);
  }

  // ----- which branch, and under which name the old tip is kept -----

  /** Where HEAD is attached: the connector's branch, else the only branch, else "main". */
  lemma AttachedTo(r: Repo, connector: Option<string>, sha: Sha)
    requires r.head.Detached?
    ensures var h := Reattached(r, connector, sha).head;
            && (connector.Some? ==> h == Attached(connector.value))
            && (connector.None? && |r.branches| == 1 ==> h == Attached(r.branches[0].0))
            && (connector.None? && |r.branches| != 1 ==> h == Attached("main"))
  {
  }

  /** That branch is at HEAD's commit, and every other branch there was is where it was. */
  lemma OnlyTargetMoves(r: Repo, connector: Option<string>, sha: Sha, n: string, b: string)
    requires r.head.Detached? && Reattached(r, connector, sha).head == Attached(n)
    ensures var t := Reattached(r, connector, sha);
            && Get<nat>(t.branches, n) == Some(r.head.commit)
            && (b != n && Has<nat>(r.branches, b) ==> Get<nat>(t.branches, b) == Get<nat>(r.branches, b))
            && t.graph == r.graph
  {
    BranchAfter(r, connector, sha, b);
    BranchAfter(r, connector, sha, n);
  }

  /** The connector's branch comes first, however many branches there are. */
  lemma ConnectorIsAttached(r: Repo, c: nat, n: string, sha: Sha, b: string)
    requires r.head == Detached(c)
    ensures var t := Reattached(r, Some(n), sha);
            && t.head == Attached(n) && Get<nat>(t.branches, n) == Some(c)
            && (b != n && Has<nat>(r.branches, b) ==> Get<nat>(t.branches, b) == Get<nat>(r.branches, b))
  {
    AttachedTo(r, Some(n), sha);
    OnlyTargetMoves(r, Some(n), sha, n, b);
  }

  /** The name of a recovery branch: slashes of the branch's name become dashes. */
  lemma {:induction false} DashedAt(s: string, i: nat)
    requires i < |s|
    ensures |Dashed(s)| == |s| && Dashed(s)[i] == if s[i] == '/' then '-' else s[i]
  {
    DashedLength(s);
    if i > 0 {
      DashedAt(s[1..], i - 1);
    }
  }

  lemma RecoveryNameIs(branch: string, tip: nat, sha: Sha) returns (dashed: string)
    ensures RecoveryName(branch, tip, sha) == "recovery/" + dashed + "-" + sha(tip)
    ensures |dashed| == |branch|
    ensures forall i :: 0 <= i < |branch| ==> dashed[i] == if branch[i] == '/' then '-' else branch[i]
  {
    dashed := Dashed(branch);
    DashedLength(branch);
    forall i | 0 <= i < |branch|
      ensures dashed[i] == if branch[i] == '/' then '-' else branch[i]
    {
      DashedAt(branch, i);
    }
  }

  /** The old tip of a branch that moves is kept under that name, unless the name is taken. */
  lemma OldTipIsKept(r: Repo, connector: Option<string>, sha: Sha, n: string, dashed: string)
    requires r.head.Detached? && Reattached(r, connector, sha).head == Attached(n)
    requires Has<nat>(r.branches, n) && Get<nat>(r.branches, n) != Some(r.head.commit)
    requires |dashed| == |n| && forall i :: 0 <= i < |n| ==> dashed[i] == if n[i] == '/' then '-' else n[i]
    ensures var tip := Get<nat>(r.branches, n).value;
            var name := "recovery/" + dashed + "-" + sha(tip);
            Get<nat>(Reattached(r, connector, sha).branches, name)
            == if Has<nat>(r.branches, name) then Get<nat>(r.branches, name) else Some(tip)
  {
    var tip := Get<nat>(r.branches, n).value;
    var d := RecoveryNameIs(n, tip, sha);
    assert d == dashed;
    RecoveryIsLonger(n, tip, sha);
    BranchAfter(r, connector, sha, RecoveryName(n, tip, sha));
  }

  // ----- names that tell commits apart, and a run they apply to -----

  const HEX := "0123456789abcdef"

  /** The last `n` hexadecimal digits of `c`. */
  function Hex(c: nat, n: nat): (s: string)
    ensures |s| == n
  {
    if n == 0 then "" else Hex(c / 16, n - 1) + [HEX[c % 16]]
  }

  function Power(n: nat): nat { if n == 0 then 1 else 16 * Power(n - 1) }

  lemma HexStep(a: nat, b: nat, n: nat)
    requires n > 0 && Hex(a, n) == Hex(b, n)
    ensures Hex(a / 16, n - 1) == Hex(b / 16, n - 1) && a % 16 == b % 16
  {
    assert Hex(a / 16, n - 1) == Hex(a, n)[..n - 1] && Hex(b / 16, n - 1) == Hex(b, n)[..n - 1];
    assert HEX[a % 16] == Hex(a, n)[n - 1] && HEX[b % 16] == Hex(b, n)[n - 1];
  }

  lemma {:induction false} HexTells(a: nat, b: nat, n: nat)
    requires a < Power(n) && b < Power(n) && Hex(a, n) == Hex(b, n)
    ensures a == b
  {
    if n > 0 {
      HexStep(a, b, n);
      HexTells(a / 16, b / 16, n - 1);
    }
  }

  /** Every history of at most 16^12 commits can be told apart by twelve digits. */
  lemma HexTellsApart(g: Graph)
    requires |g| <= Power(12)
    ensures TellsApart((c: nat) => Hex(c, 12), g)
  {
    forall a, b | 0 <= a < |g| && 0 <= b < |g| && Hex(a, 12) == Hex(b, 12)
      ensures a == b
    {
      HexTells(a, b, 12);
    }
  }

  /** Commits 1 and 2 on top of 0: "main" is at 1 and HEAD detached at 2. */
  function Diverged(): Repo {
    Repo([Commit([], 0), Commit([0], 1), Commit([0], 2)], [("main", 1)], Detached(2))
  }

  lemma DivergedIsGood(sha: Sha)
    ensures Good(Diverged(), sha) && Reachable(Diverged(), 1)
  {
    var r := Diverged();
    forall b
      ensures Get<nat>(r.branches, b) == if b == "main" then Some(1) else None
    {
      assert r.branches[1..] == [];
    }
    assert OnBranch(r, 1, "main");
  }

  lemma PutTwo(k: string, v: nat, l: string, u: nat, w: nat)
    requires k != l
    ensures Put<nat>(Put<nat>([(k, v)], l, u), k, w) == [(k, w), (l, u)] && !Has<nat>([(k, v)], l)
  {
    var d := [(k, v)];
    assert d[1..] == [] && !Has<nat>([], l);
    assert Get<nat>(d, l) == Get<nat>(d[1..], l);
    assert Put<nat>(d, l, u) == [(k, v), (l, u)];
  }

  /** On that repository reattaching moves "main" to 2 and keeps 1 under a branch named after it. */
  lemma DivergedIsRecovered(sha: Sha)
    ensures Reattached(Diverged(), None, sha).branches == [("main", 2), (RecoveryName("main", 1, sha), 1)]
  {
    RecoveryIsLonger("main", 1, sha);
    PutTwo("main", 1, RecoveryName("main", 1, sha), 1, 2);
  }

  /** It is a run the theorem applies to, with a commit that only the recovery branch saves. */
  lemma DivergedIsARun(sha: Sha)
    requires TellsApart(sha, Diverged().graph)
    ensures Good(Diverged(), sha) && Reachable(Diverged(), 1)
            && IsRun([Diverged(), Reattached(Diverged(), None, sha)], sha)
  {
    var r := Diverged();
    DivergedIsGood(sha);
    assert !IsRecovery("main") by {
      assert "main"[0] != RECOVERY[0];
    }
    assert Enabled(r, Reattaches(None));
    assert Next(r, Reattached(r, None, sha), sha) by {
      assert Reattached(r, None, sha) == Apply(r, Reattaches(None), sha);
    }
  }
}
