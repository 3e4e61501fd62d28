/**
 * When a pass is refused, aborted, held back or accepted, in terms of the published
 * entries, the walk and the deletions alone.
 */
module MirrorPublication {
  import opened Common
  import opened Dict
  import opened Filemeta
  import opened MirrorModel
  import opened MirrorConvergence
  import opened PlainTerms

  /** No entry is listed as a file. */
  ghost predicate NothingListed(fm: Filemeta) { forall i :: 0 <= i < |fm| ==> !IsListed(fm[i].1) }

  ghost predicate HasVisible(tree: Tree) { exists p :: p in tree && IsVisible(p) }

  /** The entry is acted on, and has a usable path and a type. */
  predicate IsActed(m: Meta) { IsListed(m) && m.id.value != "" }

  ghost predicate TypedAndNamed(before: Filemeta, latest: Filemeta, incremental: bool) {
    forall e :: e in latest && IsActed(e.1) && (incremental ==> Get(before, e.0) != Some(e.1)) ==>
      Relative(e.0).Some? && e.1.typ.Some? && e.1.typ.value != ""
  }

  lemma NothingListedIs(fm: Filemeta)
    ensures FileCount(fm) == 0 <==> NothingListed(fm)
  {
    FileCountIs(fm);
    if i: nat :| i < |fm| && IsListed(fm[i].1) {
      assert i in Listing(fm);
    }
    if |Listing(fm)| > 0 {
      var i :| i in Listing(fm);
    }
  }

  lemma HasVisibleIs(tree: Tree)
    ensures LocalCount(tree) > 0 <==> HasVisible(tree)
  {
    forall p
      ensures Counted(p) <==> IsVisible(p)
    {
      CountedIs(p);
    }
    var all := set p | p in tree && Counted(p);
    if p :| p in tree && IsVisible(p) {
      assert p in all;
    }
    if |all| > 0 {
      var p :| p in all;
    }
  }

  lemma RefusedIs(w: World, latest: Filemeta)
    ensures Refused(w, latest) <==> NothingListed(latest) && HasVisible(w.tree)
  {
    NothingListedIs(latest);
    HasVisibleIs(w.tree);
  }

  lemma PlannableIs(before: Filemeta, latest: Filemeta, incremental: bool)
    ensures AllPlannable(Worklist(before, latest, incremental)) <==> TypedAndNamed(before, latest, incremental)
  {
    var files := Worklist(before, latest, incremental);
    forall e
      ensures e in files <==> e in latest && IsActed(e.1) && (incremental ==> Get(before, e.0) != Some(e.1))
    {
      WorklistMembers(before, latest, incremental, e);
    }
    if AllPlannable(files) {
      forall e | e in files
        ensures Plannable(e.0, e.1)
      {
        var i :| 0 <= i < |files| && files[i] == e;
      }
    }
  }

  /**
   * The publication rule: where nothing is listed and some visible file stands, the
   * pass does nothing at all and the filemeta is not accepted, whatever else.
   */
  lemma EmptyPublicationIsRefused(w: World, before: Filemeta, latest: Filemeta, incremental: bool, dels: seq<string>,
                                  allow: bool, fetch: Fetch, p: string)
    requires NothingListed(latest) && p in w.tree && IsVisible(p)
    ensures Pass(w, before, latest, incremental, dels, allow, fetch) == PassResult(w, [], false)
  {
    RefusedIs(w, latest);
  }

  /** So does a pass that has to act on an entry without a usable path or a type. */
  lemma UntypedIsAborted(w: World, before: Filemeta, latest: Filemeta, incremental: bool, dels: seq<string>,
                         allow: bool, fetch: Fetch)
    requires !TypedAndNamed(before, latest, incremental)
    ensures Pass(w, before, latest, incremental, dels, allow, fetch) == PassResult(w, [], false)
  {
    PlannableIs(before, latest, incremental);
  }

  /**
   * A pass is accepted if and only if something is listed or nothing visible
   * stands, every entry it acts on has a usable path and a type, and its deletions
   * are no more than 25 or a tenth of the listed entries, unless that is overridden.
   */
  lemma AcceptedIff(w: World, before: Filemeta, latest: Filemeta, incremental: bool, dels: seq<string>, allow: bool,
                    fetch: Fetch)
    ensures Pass(w, before, latest, incremental, dels, allow, fetch).accepted <==>
            && (NothingListed(latest) ==> !HasVisible(w.tree))
            && TypedAndNamed(before, latest, incremental)
            && (|dels| <= MassLimit(|Listing(latest)|) || allow)
  {
    RefusedIs(w, latest);
    PlannableIs(before, latest, incremental);
    FileCountIs(latest);
    ThresholdIs(FileCount(latest));
  }

  /** In particular, twenty-five deletions never hold a publication back. */
  lemma FewDeletionsAreAccepted(w: World, before: Filemeta, latest: Filemeta, incremental: bool, dels: seq<string>,
                                allow: bool, fetch: Fetch)
    requires !NothingListed(latest) || !HasVisible(w.tree)
    requires TypedAndNamed(before, latest, incremental) && |dels| <= 25
    ensures Pass(w, before, latest, incremental, dels, allow, fetch).accepted
  {
    AcceptedIff(w, before, latest, incremental, dels, allow, fetch);
  }

  /** What the walk lists: visible to it, and no key of the filemeta under either spelling. */
  lemma ListedToDelete(tree: Tree, fm: Filemeta, p: string)
    ensures p in ToDelete(tree, fm) <==>
            && p in tree && !(".git" <= p) && !BelowGit(p)
            && forall i :: 0 <= i < |fm| ==> fm[i].0 != p && fm[i].0 != "/" + p
  {
    SkippedIs(p);
    KeyIs(fm, p);
    KeyIs(fm, "/" + p);
  }

  lemma KeyIs(fm: Filemeta, k: string)
    ensures Has(fm, k) <==> exists i :: 0 <= i < |fm| && fm[i].0 == k
  {
    if Has(fm, k) {
      var i := GetFound(fm, k);
    }
    if i: nat :| i < |fm| && fm[i].0 == k {
      HasAt(fm, i);
    }
  }
}
