/** What retention guarantees, whatever the history. */
module CheckpointTheorems {
  import opened Events
  import opened Checkpoints

  ghost predicate SourceBefore(history: seq<Entry>, i: nat)
    requires i < |history|
  {
    history[i].restoredFrom != 0 ==>
      exists j :: 0 <= j < i && history[j].number == history[i].restoredFrom && history[j].ref == history[i].ref
  }

  /** A recorded history: ascending numbers, a reference determines the size
      of its archive, and a restore points to an earlier entry with its own
      archive. */
  ghost predicate Recorded(history: seq<Entry>, sizeOf: Ref -> nat) {
    && AscendingNumbers(history)
    && (forall i | 0 <= i < |history| :: history[i].size == sizeOf(history[i].ref))
    && (forall i | 0 <= i < |history| :: SourceBefore(history, i))
  }

  // ------------------------------------------------------------ closure

  lemma {:induction false} SourcesGrow(history: seq<Entry>, keep: set<nat>)
    ensures keep <= Sources(history, keep)
    decreases |history|
  {
    if history != [] {
      var e := history[|history| - 1];
      SourcesGrow(history[..|history| - 1], if e.number in keep && e.restoredFrom != 0 then keep + {e.restoredFrom} else keep);
    }
  }

  /** Nothing at or past the newest entry's number is added. */
  lemma {:induction false} SourcesAddOlder(history: seq<Entry>, keep: set<nat>, sizeOf: Ref -> nat, s: nat)
    requires Recorded(history, sizeOf) && s in Sources(history, keep) && s !in keep
    ensures history != [] && s < history[|history| - 1].number
    decreases |history|
  {
    if history != [] {
      var n := |history| - 1;
      var e := history[n];
      var keep' := if e.number in keep && e.restoredFrom != 0 then keep + {e.restoredFrom} else keep;
      RecordedPrefix(history, n, sizeOf);
      assert SourceBefore(history, n);
      if s !in keep' {
        SourcesAddOlder(history[..n], keep', sizeOf, s);
      }
    }
  }

  lemma RecordedPrefix(history: seq<Entry>, n: nat, sizeOf: Ref -> nat)
    requires Recorded(history, sizeOf) && n <= |history|
    ensures Recorded(history[..n], sizeOf)
  {
    forall i | 0 <= i < n
      ensures SourceBefore(history[..n], i)
    {
      assert SourceBefore(history, i);
      if history[i].restoredFrom != 0 {
        var j :| 0 <= j < i && history[j].number == history[i].restoredFrom && history[j].ref == history[i].ref;
        assert history[..n][j] == history[j];
      }
    }
  }

  /** The closure is closed: the source of every kept restore is kept. */
  lemma {:induction false} SourcesClosed(history: seq<Entry>, keep: set<nat>, sizeOf: Ref -> nat, i: nat)
    requires Recorded(history, sizeOf) && i < |history|
    requires history[i].number in Sources(history, keep) && history[i].restoredFrom != 0
    ensures history[i].restoredFrom in Sources(history, keep)
    decreases |history|
  {
    var n := |history| - 1;
    var e := history[n];
    var keep' := if e.number in keep && e.restoredFrom != 0 then keep + {e.restoredFrom} else keep;
    RecordedPrefix(history, n, sizeOf);
    if i == n {
      if e.number !in keep' {
        SourcesAddOlder(history[..n], keep', sizeOf, e.number);
      }
      assert SourceBefore(history, n);
      assert e.number in keep;
      SourcesGrow(history[..n], keep');
    } else {
      SourcesClosed(history[..n], keep', sizeOf, i);
    }
  }

  /** Everything in the closure was kept, or is the source of a later entry of
      the closure. */
  lemma {:induction false} SourcesOrigin(history: seq<Entry>, keep: set<nat>, s: nat)
    requires s in Sources(history, keep)
    ensures s in keep || exists i :: 0 <= i < |history| && history[i].number in Sources(history, keep)
                                     && history[i].restoredFrom == s && s != 0
    decreases |history|
  {
    if history != [] && s !in keep {
      var n := |history| - 1;
      var e := history[n];
      var keep' := if e.number in keep && e.restoredFrom != 0 then keep + {e.restoredFrom} else keep;
      SourcesGrow(history, keep);
      if s in keep' {
        assert history[n].restoredFrom == s;
      } else {
        SourcesOrigin(history[..n], keep', s);
        var i :| 0 <= i < n && history[..n][i].number in Sources(history[..n], keep') && history[..n][i].restoredFrom == s;
        assert history[i].restoredFrom == s;
      }
    }
  }

  lemma {:induction false} SourceSharesArchive(history: seq<Entry>, keep: set<nat>, sizeOf: Ref -> nat, i: nat)
    requires Recorded(history, sizeOf) && i < |history| && history[i].number in Sources(history, keep)
    ensures history[i].ref in RefsOf(history, keep)
    decreases |history| - i
  {
    SourcesOrigin(history, keep, history[i].number);
    if history[i].number !in keep {
      var k :| 0 <= k < |history| && history[k].number in Sources(history, keep) && history[k].restoredFrom == history[i].number;
      assert SourceBefore(history, k);
      var j :| 0 <= j < k && history[j].number == history[k].restoredFrom && history[j].ref == history[k].ref;
      assert j == i;
      SourceSharesArchive(history, keep, sizeOf, k);
    }
  }

  /** Keeping the sources of kept restores keeps no further archive. */
  lemma ClosureAddsNoArchive(history: seq<Entry>, keep: set<nat>, sizeOf: Ref -> nat)
    requires Recorded(history, sizeOf)
    ensures RefsOf(history, Sources(history, keep)) == RefsOf(history, keep)
  {
    SourcesGrow(history, keep);
    forall i | 0 <= i < |history| && history[i].number in Sources(history, keep)
      ensures history[i].ref in RefsOf(history, keep)
    {
      SourceSharesArchive(history, keep, sizeOf, i);
    }
  }

  // -------------------------------------------------------------- totals

  lemma {:induction false} SizeInIs(history: seq<Entry>, keep: set<nat>, sizeOf: Ref -> nat, r: Ref)
    requires (forall i | 0 <= i < |history| :: history[i].size == sizeOf(history[i].ref)) && r in RefsOf(history, keep)
    ensures SizeIn(history, keep, r) == sizeOf(r)
    decreases |history|
  {
    var i :| 0 <= i < |history| && history[i].number in keep && history[i].ref == r;
    if !(history[0].number in keep && history[0].ref == r) {
      assert history[1..][i - 1] == history[i];
      SizeInIs(history[1..], keep, sizeOf, r);
    }
  }

  lemma {:induction false} TotalMonotone(sizes: Ref -> nat, some: set<Ref>, all: set<Ref>)
    requires some <= all
    ensures Total(sizes, some) <= Total(sizes, all)
    decreases |all|
  {
    if r :| r in all && r !in some {
      TotalWithout(sizes, all, r);
      TotalMonotone(sizes, some, all - {r});
    } else {
      assert all == some;
    }
  }

  lemma RefsWithout(history: seq<Entry>, keep: set<nat>, dropped: set<Ref>)
    requires AscendingNumbers(history)
    ensures RefsOf(history, Without(history, keep, dropped)) == RefsOf(history, keep) - dropped
  {
    forall i | 0 <= i < |history| && history[i].number in keep && history[i].ref !in dropped
      ensures history[i].number in Without(history, keep, dropped)
    {
    }
  }

  /** The archives kept in the end fit max(1 GiB, 4 x current size), unless
      only protected ones remain. */
  lemma KeptArchivesFit(history: seq<Entry>, now: Time, keep: set<nat>, sizeOf: Ref -> nat)
    requires Recorded(history, sizeOf) && history != [] && Retention(history, now, keep)
    ensures || Total(sizeOf, RefsOf(history, keep)) <= Budget(history)
            || forall r | r in RefsOf(history, keep) :: IsProtected(history, Fixed(history, now), r)
  {
    var fixed := Fixed(history, now);
    var dropped :| DropsForBudget(history, fixed, dropped) && keep == Sources(history, Without(history, fixed, dropped));
    ClosureAddsNoArchive(history, Without(history, fixed, dropped), sizeOf);
    RefsWithout(history, fixed, dropped);
    var refs := RefsOf(history, fixed) - dropped;
    forall r | r in refs
      ensures Sizes(history, fixed)(r) == sizeOf(r)
    {
      SizeInIs(history, fixed, sizeOf, r);
    }
    TotalSame(Sizes(history, fixed), sizeOf, refs);
  }

  /** The current checkpoint and the base never expire. */
  lemma CurrentAndBaseStay(history: seq<Entry>, now: Time, keep: set<nat>, i: nat)
    requires AscendingNumbers(history) && i < |history| && Retention(history, now, keep)
    requires i == |history| - 1 || history[i].kind == Base
    ensures history[i].number in keep
  {
    var fixed := Fixed(history, now);
    var dropped :| DropsForBudget(history, fixed, dropped) && keep == Sources(history, Without(history, fixed, dropped));
    ProtectedStays(history, now, dropped, i);
    SourcesGrow(history, Without(history, fixed, dropped));
  }

  lemma ProtectedStays(history: seq<Entry>, now: Time, dropped: set<Ref>, i: nat)
    requires AscendingNumbers(history) && i < |history| && (i == |history| - 1 || history[i].kind == Base)
    requires forall d | d in dropped :: !IsProtected(history, Fixed(history, now), d)
    ensures history[i].number in Without(history, Fixed(history, now), dropped)
  {
    assert FixedKeeps(history, now, i);
    assert history[i].number in Fixed(history, now);
    assert IsProtected(history, Fixed(history, now), history[i].ref);
  }

  // ------------------------------------------------------- pruning again

  function Remaining(history: seq<Entry>, keep: set<nat>): seq<Entry>
    decreases |history|
  {
    if history == [] then []
    else
      var n := |history| - 1;
      if history[n].number in keep then Remaining(history[..n], keep) + [history[n]] else Remaining(history[..n], keep)
  }

  /** A kept entry is still there, no further from the end. */
  lemma {:induction false} RemainingHas(history: seq<Entry>, keep: set<nat>, i: nat) returns (k: nat)
    requires i < |history| && history[i].number in keep
    ensures k < |Remaining(history, keep)| && Remaining(history, keep)[k] == history[i]
    ensures |Remaining(history, keep)| - k <= |history| - i
    decreases |history|
  {
    var n := |history| - 1;
    if i == n {
      k := |Remaining(history, keep)| - 1;
    } else {
      k := RemainingHas(history[..n], keep, i);
    }
  }

  lemma {:induction false} RemainingFrom(history: seq<Entry>, keep: set<nat>, k: nat) returns (i: nat)
    requires k < |Remaining(history, keep)|
    ensures i < |history| && Remaining(history, keep)[k] == history[i] && history[i].number in keep
    ensures k <= i
    decreases |history|
  {
    var n := |history| - 1;
    if k == |Remaining(history[..n], keep)| {
      i := n;
      RemainingShorter(history[..n], keep);
    } else {
      i := RemainingFrom(history[..n], keep, k);
    }
  }

  lemma {:induction false} RemainingShorter(history: seq<Entry>, keep: set<nat>)
    ensures |Remaining(history, keep)| <= |history|
    decreases |history|
  {
    if history != [] {
      RemainingShorter(history[..|history| - 1], keep);
    }
  }

  lemma {:induction false} RemainingAscends(history: seq<Entry>, keep: set<nat>)
    requires AscendingNumbers(history)
    ensures AscendingNumbers(Remaining(history, keep))
    decreases |history|
  {
    if history != [] {
      var n := |history| - 1;
      RemainingAscends(history[..n], keep);
      forall k | 0 <= k < |Remaining(history[..n], keep)|
        ensures Remaining(history[..n], keep)[k].number < history[n].number
      {
        var i := RemainingFrom(history[..n], keep, k);
      }
    }
  }

  /** What fixed retention kept within the budget, it keeps again. */
  lemma FixedAgain(history: seq<Entry>, now: Time, keep: set<nat>, i: nat)
    requires AscendingNumbers(history) && i < |history| && FixedKeeps(history, now, i) && history[i].number in keep
    ensures history[i].number in Fixed(Remaining(history, keep), now)
  {
    var rest := Remaining(history, keep);
    var k := RemainingHas(history, keep, i);
    if NewestOfDay(history, i) {
      forall j | 0 <= j < |rest| && Day(rest[j].createdAt) == Day(rest[k].createdAt)
        ensures rest[j].number <= rest[k].number
      {
        var m := RemainingFrom(history, keep, j);
      }
    }
    assert FixedKeeps(rest, now, k);
  }

  /** Retention's three stages over one history. */
  ghost predicate Stages(history: seq<Entry>, now: Time, dropped: set<Ref>, budgeted: set<nat>, keep: set<nat>) {
    && history != [] && DropsForBudget(history, Fixed(history, now), dropped)
    && budgeted == Without(history, Fixed(history, now), dropped)
    && keep == Sources(history, budgeted)
  }

  lemma FixedHas(history: seq<Entry>, now: Time, s: nat) returns (i: nat)
    requires s in Fixed(history, now)
    ensures i < |history| && history[i].number == s && FixedKeeps(history, now, i)
  {
    i :| 0 <= i < |history| && FixedKeeps(history, now, i) && history[i].number == s;
  }

  /** The second prune starts with everything the budget left, and with the
      same archives. */
  lemma SameArchives(history: seq<Entry>, now: Time, dropped: set<Ref>, budgeted: set<nat>, keep: set<nat>, sizeOf: Ref -> nat)
    requires Recorded(history, sizeOf) && Stages(history, now, dropped, budgeted, keep)
    ensures budgeted <= Fixed(Remaining(history, keep), now)
    ensures RefsOf(Remaining(history, keep), Fixed(Remaining(history, keep), now)) == RefsOf(history, budgeted)
  {
    var rest := Remaining(history, keep);
    SourcesGrow(history, budgeted);
    forall s | s in budgeted
      ensures s in Fixed(rest, now)
    {
      var i := FixedHas(history, now, s);
      FixedAgain(history, now, keep, i);
    }
    ClosureAddsNoArchive(history, budgeted, sizeOf);
    forall k | 0 <= k < |rest|
      ensures rest[k].ref in RefsOf(history, budgeted)
    {
      var i := RemainingFrom(history, keep, k);
      assert history[i].ref in RefsOf(history, keep);
    }
    forall i | 0 <= i < |history| && history[i].number in budgeted
      ensures history[i].ref in RefsOf(rest, Fixed(rest, now))
    {
      var k := RemainingHas(history, keep, i);
      assert rest[k].number in Fixed(rest, now);
    }
  }

  lemma ProtectedAgain(history: seq<Entry>, now: Time, dropped: set<Ref>, budgeted: set<nat>, keep: set<nat>, r: Ref)
    requires AscendingNumbers(history) && Stages(history, now, dropped, budgeted, keep)
    requires IsProtected(history, Fixed(history, now), r) && r !in dropped
    ensures IsProtected(Remaining(history, keep), Fixed(Remaining(history, keep), now), r)
  {
    var rest := Remaining(history, keep);
    var i :| && 0 <= i < |history| && history[i].number in Fixed(history, now) && history[i].ref == r
             && (i == |history| - 1 || history[i].kind == Base);
    FixedEntryAgain(history, now, dropped, budgeted, keep, i);
    var k := RemainingHas(history, keep, i);
    FixedAgain(history, now, keep, i);
  }

  lemma FixedEntryAgain(history: seq<Entry>, now: Time, dropped: set<Ref>, budgeted: set<nat>, keep: set<nat>, i: nat)
    requires AscendingNumbers(history) && Stages(history, now, dropped, budgeted, keep) && i < |history|
    requires history[i].number in Fixed(history, now) && history[i].ref !in dropped
    ensures history[i].number in budgeted && history[i].number in keep && FixedKeeps(history, now, i)
  {
    assert FixedKeeps(history, now, i);
    SourcesGrow(history, budgeted);
  }

  lemma BudgetAgain(history: seq<Entry>, now: Time, dropped: set<Ref>, budgeted: set<nat>, keep: set<nat>)
    requires AscendingNumbers(history) && Stages(history, now, dropped, budgeted, keep)
    ensures Remaining(history, keep) != [] && Budget(Remaining(history, keep)) == Budget(history)
  {
    CurrentAndBaseStay(history, now, keep, |history| - 1);
    var k := RemainingHas(history, keep, |history| - 1);
  }

  /** What the first pruning left fits, or is all protected. */
  lemma FitsAlready(history: seq<Entry>, now: Time, dropped: set<Ref>, budgeted: set<nat>, keep: set<nat>, sizeOf: Ref -> nat)
    requires Recorded(history, sizeOf) && Stages(history, now, dropped, budgeted, keep)
    requires Remaining(history, keep) != []
    ensures var rest := Remaining(history, keep);
            var refs := RefsOf(rest, Fixed(rest, now));
            Total(sizeOf, refs) <= Budget(rest) || forall r | r in refs :: IsProtected(history, Fixed(history, now), r) && r !in dropped
  {
    var rest := Remaining(history, keep);
    var fixed := Fixed(history, now);
    var refs := RefsOf(rest, Fixed(rest, now));
    SameArchives(history, now, dropped, budgeted, keep, sizeOf);
    RefsWithout(history, fixed, dropped);
    BudgetAgain(history, now, dropped, budgeted, keep);
    forall r | r in refs
      ensures Sizes(history, fixed)(r) == sizeOf(r)
    {
      SizeInIs(history, fixed, sizeOf, r);
    }
    TotalSame(Sizes(history, fixed), sizeOf, refs);
  }

  /** Nothing is over budget the second time. */
  lemma NothingDropsAgain(history: seq<Entry>, now: Time, dropped: set<Ref>, budgeted: set<nat>, keep: set<nat>,
                          again: set<Ref>, sizeOf: Ref -> nat)
    requires Recorded(history, sizeOf) && Stages(history, now, dropped, budgeted, keep)
    requires Remaining(history, keep) != []
    requires DropsForBudget(Remaining(history, keep), Fixed(Remaining(history, keep), now), again)
    ensures again == {}
  {
    var rest := Remaining(history, keep);
    var fixed' := Fixed(rest, now);
    FitsAlready(history, now, dropped, budgeted, keep, sizeOf);
    SameSizes(history, keep, fixed', sizeOf);
    forall r | IsProtected(history, Fixed(history, now), r) && r !in dropped
      ensures IsProtected(rest, fixed', r)
    {
      ProtectedAgain(history, now, dropped, budgeted, keep, r);
    }
    NothingOver(rest, fixed', again, sizeOf);
  }

  lemma NothingOver(rest: seq<Entry>, fixed: set<nat>, again: set<Ref>, sizeOf: Ref -> nat)
    requires rest != [] && DropsForBudget(rest, fixed, again)
    requires forall r | r in RefsOf(rest, fixed) :: Sizes(rest, fixed)(r) == sizeOf(r)
    requires Total(sizeOf, RefsOf(rest, fixed)) <= Budget(rest) || forall r | r in RefsOf(rest, fixed) :: IsProtected(rest, fixed, r)
    ensures again == {}
  {
    var refs := RefsOf(rest, fixed);
    if d :| d in again && Total(Sizes(rest, fixed), refs - again) + Sizes(rest, fixed)(d) > Budget(rest) {
      TotalSame(Sizes(rest, fixed), sizeOf, refs - again);
      TotalWithout(sizeOf, refs, d);
      TotalMonotone(sizeOf, refs - again, refs - {d});
    }
  }

  lemma SameSizes(history: seq<Entry>, keep: set<nat>, fixed: set<nat>, sizeOf: Ref -> nat)
    requires Recorded(history, sizeOf)
    ensures forall r | r in RefsOf(Remaining(history, keep), fixed) :: Sizes(Remaining(history, keep), fixed)(r) == sizeOf(r)
  {
    var rest := Remaining(history, keep);
    forall k | 0 <= k < |rest|
      ensures rest[k].size == sizeOf(rest[k].ref)
    {
      var i := RemainingFrom(history, keep, k);
    }
    forall r | r in RefsOf(rest, fixed)
      ensures Sizes(rest, fixed)(r) == sizeOf(r)
    {
      SizeInIs(rest, fixed, sizeOf, r);
    }
  }

  /** Removing expired entries leaves a recorded history. */
  lemma RemainingRecorded(history: seq<Entry>, keep: set<nat>, sizeOf: Ref -> nat)
    requires Recorded(history, sizeOf)
    requires forall i | 0 <= i < |history| && history[i].number in keep && history[i].restoredFrom != 0 :: history[i].restoredFrom in keep
    ensures Recorded(Remaining(history, keep), sizeOf)
  {
    var rest := Remaining(history, keep);
    RemainingAscends(history, keep);
    forall k | 0 <= k < |rest|
      ensures rest[k].size == sizeOf(rest[k].ref) && SourceBefore(rest, k)
    {
      var i := RemainingFrom(history, keep, k);
      if history[i].restoredFrom != 0 {
        assert SourceBefore(history, i);
        var j :| 0 <= j < i && history[j].number == history[i].restoredFrom && history[j].ref == history[i].ref;
        var m := RemainingHas(history, keep, j);
        assert rest[m].number < rest[k].number;
      }
    }
  }

  /** Each kept entry is kept again. */
  lemma {:induction false} KeptAgain(history: seq<Entry>, now: Time, dropped: set<Ref>, budgeted: set<nat>, keep: set<nat>,
                                     sizeOf: Ref -> nat, i: nat)
    requires Recorded(history, sizeOf) && Stages(history, now, dropped, budgeted, keep) && Recorded(Remaining(history, keep), sizeOf)
    requires i < |history| && history[i].number in keep
    ensures history[i].number in Sources(Remaining(history, keep), Fixed(Remaining(history, keep), now))
    decreases |history| - i
  {
    var rest := Remaining(history, keep);
    var fixed := Fixed(rest, now);
    SourcesOrigin(history, budgeted, history[i].number);
    if history[i].number in budgeted {
      SameArchives(history, now, dropped, budgeted, keep, sizeOf);
      SourcesGrow(rest, fixed);
    } else {
      var k :| 0 <= k < |history| && history[k].number in keep && history[k].restoredFrom == history[i].number && history[k].restoredFrom != 0;
      assert SourceBefore(history, k);
      KeptAgain(history, now, dropped, budgeted, keep, sizeOf, k);
      var m := RemainingHas(history, keep, k);
      SourcesClosed(rest, fixed, sizeOf, m);
    }
  }

  lemma {:induction false} NoneDropped(history: seq<Entry>, keep: set<nat>)
    requires forall i | 0 <= i < |history| :: history[i].number in keep
    ensures Dropped(history, keep) == []
    decreases |history|
  {
    if history != [] {
      NoneDropped(history[..|history| - 1], keep);
    }
  }

  lemma AllKeptAgain(history: seq<Entry>, now: Time, dropped: set<Ref>, budgeted: set<nat>, keep: set<nat>, again: set<nat>,
                     sizeOf: Ref -> nat)
    requires Recorded(history, sizeOf) && Stages(history, now, dropped, budgeted, keep) && Recorded(Remaining(history, keep), sizeOf)
    requires Retention(Remaining(history, keep), now, again) && Remaining(history, keep) != []
    ensures forall k | 0 <= k < |Remaining(history, keep)| :: Remaining(history, keep)[k].number in again
  {
    var rest := Remaining(history, keep);
    var fixed := Fixed(rest, now);
    var dropped' :| DropsForBudget(rest, fixed, dropped') && again == Sources(rest, Without(rest, fixed, dropped'));
    NothingDropsAgain(history, now, dropped, budgeted, keep, dropped', sizeOf);
    assert Without(rest, fixed, {}) == fixed;
    forall k | 0 <= k < |rest|
      ensures rest[k].number in again
    {
      var i := RemainingFrom(history, keep, k);
      KeptAgain(history, now, dropped, budgeted, keep, sizeOf, i);
    }
  }

  /** Pruning again at the same time expires nothing. */
  lemma PruningAgainExpiresNothing(history: seq<Entry>, now: Time, keep: set<nat>, again: set<nat>, sizeOf: Ref -> nat)
    requires Recorded(history, sizeOf) && Retention(history, now, keep)
    requires Retention(Remaining(history, keep), now, again)
    ensures Dropped(Remaining(history, keep), again) == []
  {
    var rest := Remaining(history, keep);
    if rest != [] {
      var fixed := Fixed(history, now);
      var dropped :| DropsForBudget(history, fixed, dropped) && keep == Sources(history, Without(history, fixed, dropped));
      var budgeted := Without(history, fixed, dropped);
      forall i | 0 <= i < |history| && history[i].number in keep && history[i].restoredFrom != 0
        ensures history[i].restoredFrom in keep
      {
        SourcesClosed(history, budgeted, sizeOf, i);
      }
      RemainingRecorded(history, keep, sizeOf);
      AllKeptAgain(history, now, dropped, budgeted, keep, again, sizeOf);
      NoneDropped(rest, again);
    }
  }
}
