/** What a record is made of: the fold of the changes enqueued since the last take, torn or whole. */
module ChangeFolding {
  import opened Common
  import opened OperationsQueue

  predicate Paired(c: Change) { c.snapshot.Some? <==> c.baselineOnly.Some? }

  /** Snapshot and flag of the latest change that bears a snapshot. */
  function LatestSnapshot(changes: seq<Change>): (Option<Snapshot>, Option<bool>) {
    if changes == [] then (None, None)
    else if changes[|changes| - 1].snapshot.Some? then
      (changes[|changes| - 1].snapshot, changes[|changes| - 1].baselineOnly)
    else LatestSnapshot(changes[..|changes| - 1])
  }

  /** The newest timestamp always wins, and so does the newest snapshot. */
  lemma {:induction false} FoldIsNewest(changes: seq<Change>)
    requires changes != []
    ensures Fold(changes).value.timestamp == changes[|changes| - 1].timestamp
    ensures Fold(changes).value.snapshot == LatestSnapshot(changes).0
  {
    if |changes| > 1 {
      FoldIsNewest(changes[..|changes| - 1]);
    }
  }

  /** No change carries a flag, and none without a snapshot comes after one with a snapshot. */
  ghost predicate FlagFree(changes: seq<Change>) {
    && (forall i :: 0 <= i < |changes| ==> changes[i].baselineOnly.None?)
    && (forall i, j :: 0 <= i < j < |changes| && changes[i].snapshot.Some? ==> changes[j].snapshot.Some?)
  }

  lemma {:induction false} NoSnapshotIff(changes: seq<Change>)
    ensures LatestSnapshot(changes).0.None? <==> forall i :: 0 <= i < |changes| ==> changes[i].snapshot.None?
  {
    if changes != [] {
      NoSnapshotIff(changes[..|changes| - 1]);
    }
  }

  lemma FlagFreeFront(changes: seq<Change>)
    requires changes != []
    ensures var (front, last) := (changes[..|changes| - 1], changes[|changes| - 1]);
            FlagFree(changes) <==>
            FlagFree(front) && last.baselineOnly.None? && (LatestSnapshot(front).0.Some? ==> last.snapshot.Some?)
  {
    var front, last := changes[..|changes| - 1], changes[|changes| - 1];
    NoSnapshotIff(front);
    if LatestSnapshot(front).0.Some? && FlagFree(changes) {
      var i :| 0 <= i < |front| && front[i].snapshot.Some?;
      assert changes[i].snapshot.Some?;
    }
    if FlagFree(front) && last.baselineOnly.None? && (LatestSnapshot(front).0.Some? ==> last.snapshot.Some?) {
      forall i, j | 0 <= i < j < |changes| && changes[i].snapshot.Some?
        ensures changes[j].snapshot.Some?
      {
        assert front[i].snapshot.Some?;
        if j < |front| {
          assert front[j].snapshot.Some?;
        }
      }
    }
  }

  lemma {:induction false} FoldFlag(changes: seq<Change>)
    requires changes != []
    ensures Fold(changes).value.baselineOnly.None? <==> FlagFree(changes)
  {
    FlagFreeFront(changes);
    if |changes| > 1 {
      var front := changes[..|changes| - 1];
      FoldIsNewest(front);
      FoldFlag(front);
    }
  }

  /** The snapshot a record ends with brought its own flag, or nothing before or after it could supply one. */
  ghost predicate Untorn(changes: seq<Change>) {
    if LatestSnapshot(changes).0.None? then forall i :: 0 <= i < |changes| ==> changes[i].baselineOnly.None?
    else LatestSnapshot(changes).1.Some?
         || (changes[|changes| - 1].snapshot.Some? && FlagFree(changes[..|changes| - 1]))
  }

  /**
   * For any changes at all: a record holds the newest snapshot together with that
   * snapshot's own flag if and only if they are untorn.
   */
  lemma UntornIff(changes: seq<Change>)
    requires changes != []
    ensures (Fold(changes).value.snapshot, Fold(changes).value.baselineOnly) == LatestSnapshot(changes)
            <==> Untorn(changes)
  {
    FoldIsNewest(changes);
    NoSnapshotIff(changes);
    FoldFlag(changes);
    FlagFreeFront(changes);
    if LatestSnapshot(changes).1.Some? {
      FlaggedFold(changes);
    }
  }

  /** A snapshot-bearing change with a flag keeps it until the next snapshot. */
  lemma {:induction false} FlaggedFold(changes: seq<Change>)
    requires changes != [] && LatestSnapshot(changes).1.Some?
    ensures LatestSnapshot(changes).0.Some?
    ensures Fold(changes).value.baselineOnly == LatestSnapshot(changes).1
  {
    if changes[|changes| - 1].snapshot.None? {
      FoldIsNewest(changes[..|changes| - 1]);
      FlaggedFold(changes[..|changes| - 1]);
    }
  }

  /** A flag that a newer snapshot does not bring is taken over from the older record. */
  lemma UnpairedIsTorn(older: Change, newer: Change)
    requires older.baselineOnly.Some? && newer.snapshot.Some? && newer.baselineOnly.None?
    ensures !Untorn([older, newer])
    ensures Fold([older, newer]) == Some(Change(newer.timestamp, newer.snapshot, older.baselineOnly))
  {
    var both := [older, newer];
    assert both[..1] == [older] && [older][..0] == [] && both[1] == newer;
    assert Fold([older]) == Some(older);
    assert Fold(both) == Some(Merge(Some(older), newer));
    UntornIff(both);
    assert LatestSnapshot(both) == (newer.snapshot, None);
  }

  /** What the listener sends carries both fields or neither, and that is enough. */
  lemma {:induction false} PairedIsUntorn(changes: seq<Change>)
    requires forall i :: 0 <= i < |changes| ==> Paired(changes[i])
    ensures Untorn(changes)
  {
    NoSnapshotIff(changes);
    PairedLatest(changes);
  }

  lemma {:induction false} PairedLatest(changes: seq<Change>)
    requires forall i :: 0 <= i < |changes| ==> Paired(changes[i])
    ensures LatestSnapshot(changes).0.Some? <==> LatestSnapshot(changes).1.Some?
  {
    if changes != [] {
      PairedLatest(changes[..|changes| - 1]);
    }
  }

  /** So their record carries the newest timestamp and the newest snapshot together with its own flag. */
  lemma FoldSpec(changes: seq<Change>)
    requires changes != [] && forall i :: 0 <= i < |changes| ==> Paired(changes[i])
    ensures Fold(changes).value.timestamp == changes[|changes| - 1].timestamp
    ensures (Fold(changes).value.snapshot, Fold(changes).value.baselineOnly) == LatestSnapshot(changes)
    ensures Paired(Fold(changes).value)
  {
    FoldIsNewest(changes);
    PairedIsUntorn(changes);
    PairedLatest(changes);
    UntornIff(changes);
  }

  lemma {:induction false} SinceIsPaired(log: seq<Event>, k: Key)
    requires forall i :: 0 <= i < |log| && log[i].Enqueued? ==> Paired(log[i].change)
    ensures forall i :: 0 <= i < |Since(log, k)| ==> Paired(Since(log, k)[i])
  {
    if log != [] {
      SinceIsPaired(log[..|log| - 1], k);
    }
  }

  /**
   * Over any interleaving whose notifications all carry both fields or neither,
   * the record a take hands out is never torn.
   */
  lemma TakenIsUntorn(run: seq<State>, n: nat, j: nat)
    requires IsRun(run) && n < |run| && j < |run[n].log| && run[n].log[j].Taken?
    requires forall i :: 0 <= i < j && run[n].log[i].Enqueued? ==> Paired(run[n].log[i].change)
    ensures var (log, batch) := (run[n].log, Since(run[n].log[..j], run[n].log[j].key));
            log[j].record.Some? ==>
              && batch != [] && log[j].record.value.timestamp == batch[|batch| - 1].timestamp
              && (log[j].record.value.snapshot, log[j].record.value.baselineOnly) == LatestSnapshot(batch)
  {
    RecordsAlways(run, n);
    var log, batch := run[n].log, Since(run[n].log[..j], run[n].log[j].key);
    SinceIsPaired(log[..j], log[j].key);
    if batch != [] {
      FoldSpec(batch);
    }
  }
}
