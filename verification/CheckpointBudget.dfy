/** What retention keeps, entry by entry and byte by byte
    (environment/checkpoints.go), in the numbers its documentation gives. */
module CheckpointBudget {
  import opened Events
  import opened Checkpoints
  import opened CheckpointTheorems

  /** One of the ten newest entries, a base, or the newest entry of one of the
      last fourteen UTC days, counting today. */
  ghost predicate Retained(history: seq<Entry>, now: Time, i: nat)
    requires i < |history|
  {
    || |history| - i <= 10
    || history[i].kind == Base
    || (&& 0 <= now / 86_400_000_000 - history[i].createdAt / 86_400_000_000 <= 13
        && forall j | i < j < |history| :: history[j].createdAt / 86_400_000_000 != history[i].createdAt / 86_400_000_000)
  }

  /** The archive of the current entry, or of a base. */
  ghost predicate Spared(history: seq<Entry>, r: Ref) {
    exists i :: 0 <= i < |history| && history[i].ref == r && (i == |history| - 1 || history[i].kind == Base)
  }

  /** One GiB, or four times the current archive, whichever is larger. */
  predicate Fits(history: seq<Entry>, bytes: nat)
    requires history != []
  {
    bytes <= 1_073_741_824 || bytes <= 4 * history[|history| - 1].size
  }

  ghost function RetainedArchives(history: seq<Entry>, now: Time): set<Ref> {
    set i | 0 <= i < |history| && Retained(history, now, i) :: history[i].ref
  }

  /** Archives that retention by count and day would have left. */
  ghost function OverBudget(history: seq<Entry>, now: Time, keep: set<nat>): set<Ref> {
    RetainedArchives(history, now) - RefsOf(history, keep)
  }

  /** Each retained entry that uses `a` is older than some that uses `b`. */
  ghost predicate UsedBefore(history: seq<Entry>, now: Time, a: Ref, b: Ref) {
    exists j :: && 0 <= j < |history| && Retained(history, now, j) && history[j].ref == b
                && forall i | 0 <= i < |history| && Retained(history, now, i) && history[i].ref == a :: i < j
  }

  // --------------------------------------------------- the specification

  lemma RetainedIsFixed(history: seq<Entry>, now: Time, i: nat)
    requires AscendingNumbers(history) && i < |history|
    ensures history[i].number in Fixed(history, now) <==> Retained(history, now, i)
  {
    assert history[i].number in Fixed(history, now) <==> FixedKeeps(history, now, i);
    assert NewestOfDay(history, i) <==>
           forall j | i < j < |history| :: history[j].createdAt / 86_400_000_000 != history[i].createdAt / 86_400_000_000;
  }

  lemma RetainedRefs(history: seq<Entry>, now: Time)
    requires AscendingNumbers(history)
    ensures RefsOf(history, Fixed(history, now)) == RetainedArchives(history, now)
  {
    forall i | 0 <= i < |history|
      ensures history[i].number in Fixed(history, now) <==> Retained(history, now, i)
    {
      RetainedIsFixed(history, now, i);
    }
  }

  lemma SparedIsProtected(history: seq<Entry>, now: Time, r: Ref)
    ensures Spared(history, r) <==> IsProtected(history, Fixed(history, now), r)
  {
    forall i | 0 <= i < |history| && (i == |history| - 1 || history[i].kind == Base)
      ensures history[i].number in Fixed(history, now)
    {
      assert FixedKeeps(history, now, i);
    }
  }

  lemma FitsBudget(history: seq<Entry>, bytes: nat)
    requires history != []
    ensures bytes <= Budget(history) <==> Fits(history, bytes)
  {
  }

  /** Retention, taken apart: the dropped archives, and what they leave. */
  lemma Stages(history: seq<Entry>, now: Time, keep: set<nat>, sizeOf: Ref -> nat) returns (dropped: set<Ref>)
    requires Recorded(history, sizeOf) && history != [] && Retention(history, now, keep)
    ensures DropsForBudget(history, Fixed(history, now), dropped)
    ensures keep == Sources(history, Without(history, Fixed(history, now), dropped))
    ensures RefsOf(history, keep) == RetainedArchives(history, now) - dropped
    ensures dropped == OverBudget(history, now, keep)
  {
    dropped :| DropsForBudget(history, Fixed(history, now), dropped)
               && keep == Sources(history, Without(history, Fixed(history, now), dropped));
    ClosureAddsNoArchive(history, Without(history, Fixed(history, now), dropped), sizeOf);
    RefsWithout(history, Fixed(history, now), dropped);
    RetainedRefs(history, now);
  }

  lemma RetainedTotal(history: seq<Entry>, now: Time, sizeOf: Ref -> nat, refs: set<Ref>)
    requires Recorded(history, sizeOf) && refs <= RetainedArchives(history, now)
    ensures Total(Sizes(history, Fixed(history, now)), refs) == Total(sizeOf, refs)
  {
    RetainedRefs(history, now);
    forall r | r in refs
      ensures Sizes(history, Fixed(history, now))(r) == sizeOf(r)
    {
      SizeInIs(history, Fixed(history, now), sizeOf, r);
    }
    TotalSame(Sizes(history, Fixed(history, now)), sizeOf, refs);
  }

  // ---------------------------------------------------------- the budget

  /** What is kept fits, or is all spared. */
  lemma KeptBytes(history: seq<Entry>, now: Time, keep: set<nat>, sizeOf: Ref -> nat)
    requires Recorded(history, sizeOf) && history != [] && Retention(history, now, keep)
    ensures Fits(history, Total(sizeOf, RefsOf(history, keep))) || forall r | r in RefsOf(history, keep) :: Spared(history, r)
  {
    var dropped := Stages(history, now, keep, sizeOf);
    var kept := RefsOf(history, keep);
    RetainedRefs(history, now);
    RetainedTotal(history, now, sizeOf, kept);
    FitsBudget(history, Total(sizeOf, kept));
    forall r | IsProtected(history, Fixed(history, now), r)
      ensures Spared(history, r)
    {
      SparedIsProtected(history, now, r);
    }
  }

  /** The last drop was needed: with the archive it freed, and it alone of
      those dropped, what is kept exceeds both bounds. */
  ghost predicate LastDrop(history: seq<Entry>, now: Time, keep: set<nat>, sizeOf: Ref -> nat, d: Ref)
    requires history != []
  {
    && d in OverBudget(history, now, keep)
    && !Fits(history, Total(sizeOf, RefsOf(history, keep) + {d}))
    && forall x | x in OverBudget(history, now, keep) && x != d :: UsedBefore(history, now, x, d)
  }

  /** The archive that the budget dropped last. */
  lemma LastOver(history: seq<Entry>, fixed: set<nat>, dropped: set<Ref>) returns (d: Ref)
    requires history != [] && DropsForBudget(history, fixed, dropped) && dropped != {}
    ensures d in dropped && forall x | x in dropped :: LastUsed(history, fixed, x) <= LastUsed(history, fixed, d)
    ensures Total(Sizes(history, fixed), RefsOf(history, fixed) - dropped) + SizeIn(history, fixed, d) > Budget(history)
  {
    d :| && d in dropped && (forall x | x in dropped :: LastUsed(history, fixed, x) <= LastUsed(history, fixed, d))
         && Total(Sizes(history, fixed), RefsOf(history, fixed) - dropped) + Sizes(history, fixed)(d) > Budget(history);
  }

  lemma OverWithLast(history: seq<Entry>, now: Time, kept: set<Ref>, sizeOf: Ref -> nat, d: Ref)
    requires Recorded(history, sizeOf) && history != [] && kept + {d} <= RetainedArchives(history, now) && d !in kept
    requires Total(Sizes(history, Fixed(history, now)), kept) + SizeIn(history, Fixed(history, now), d) > Budget(history)
    ensures !Fits(history, Total(sizeOf, kept + {d}))
  {
    RetainedTotal(history, now, sizeOf, kept);
    RetainedRefs(history, now);
    SizeInIs(history, Fixed(history, now), sizeOf, d);
    TotalWithout(sizeOf, kept + {d}, d);
    assert kept + {d} - {d} == kept;
    FitsBudget(history, Total(sizeOf, kept + {d}));
  }

  lemma UsedBeforeLast(history: seq<Entry>, now: Time, dropped: set<Ref>, d: Ref)
    requires AscendingNumbers(history) && dropped <= RefsOf(history, Fixed(history, now)) && d in dropped
    requires forall x | x in dropped :: LastUsed(history, Fixed(history, now), x) <= LastUsed(history, Fixed(history, now), d)
    ensures forall x | x in dropped && x != d :: UsedBefore(history, now, x, d)
  {
    forall x | x in dropped && x != d
      ensures UsedBefore(history, now, x, d)
    {
      LastUsedDiffers(history, Fixed(history, now), x, d);
      OlderIsUsedBefore(history, now, x, d);
    }
  }

  lemma DroppedWhenOver(history: seq<Entry>, now: Time, keep: set<nat>, sizeOf: Ref -> nat) returns (d: Ref)
    requires Recorded(history, sizeOf) && history != [] && Retention(history, now, keep)
    requires OverBudget(history, now, keep) != {}
    ensures LastDrop(history, now, keep, sizeOf, d)
  {
    var dropped := Stages(history, now, keep, sizeOf);
    RetainedRefs(history, now);
    d := LastOver(history, Fixed(history, now), dropped);
    OverWithLast(history, now, RefsOf(history, keep), sizeOf, d);
    UsedBeforeLast(history, now, dropped, d);
  }

  /** What fits loses nothing. */
  lemma WithinBudgetKeepsAll(history: seq<Entry>, now: Time, keep: set<nat>, sizeOf: Ref -> nat)
    requires Recorded(history, sizeOf) && history != [] && Retention(history, now, keep)
    requires Fits(history, Total(sizeOf, RetainedArchives(history, now)))
    ensures OverBudget(history, now, keep) == {}
    ensures forall i | 0 <= i < |history| && Retained(history, now, i) :: history[i].number in keep
  {
    if OverBudget(history, now, keep) != {} {
      var d := DroppedWhenOver(history, now, keep, sizeOf);
      TotalMonotone(sizeOf, RefsOf(history, keep) + {d}, RetainedArchives(history, now)) by {
        var dropped := Stages(history, now, keep, sizeOf);
      }
      assert false;
    }
    forall i | 0 <= i < |history| && Retained(history, now, i)
      ensures history[i].number in keep
    {
      KeptExactly(history, now, keep, sizeOf, i);
    }
  }

  // ----------------------------------------------------------- the order

  lemma {:induction false} LastUsedIsLatest(history: seq<Entry>, keep: set<nat>, r: Ref, i: nat)
    requires AscendingNumbers(history) && i < |history| && history[i].number in keep && history[i].ref == r
    ensures history[i].number <= LastUsed(history, keep, r)
    decreases |history|
  {
    var n := |history| - 1;
    if !(history[n].number in keep && history[n].ref == r) {
      LastUsedIsLatest(history[..n], keep, r, i);
    }
  }

  lemma OlderIsUsedBefore(history: seq<Entry>, now: Time, a: Ref, b: Ref)
    requires AscendingNumbers(history) && b in RefsOf(history, Fixed(history, now))
    requires LastUsed(history, Fixed(history, now), a) < LastUsed(history, Fixed(history, now), b)
    ensures UsedBefore(history, now, a, b)
  {
    var fixed := Fixed(history, now);
    var j := LastUsedIsEntry(history, fixed, b);
    RetainedIsFixed(history, now, j);
    forall i | 0 <= i < |history| && Retained(history, now, i) && history[i].ref == a
      ensures i < j
    {
      RetainedIsFixed(history, now, i);
      LastUsedIsLatest(history, fixed, a, i);
    }
  }

  /** Nothing spared is dropped, and the least recently used goes first. */
  lemma OldestGoFirst(history: seq<Entry>, now: Time, keep: set<nat>, sizeOf: Ref -> nat, d: Ref, r: Ref)
    requires Recorded(history, sizeOf) && history != [] && Retention(history, now, keep)
    requires d in OverBudget(history, now, keep) && r in RefsOf(history, keep)
    ensures !Spared(history, d) && (Spared(history, r) || UsedBefore(history, now, d, r))
  {
    var dropped := Stages(history, now, keep, sizeOf);
    RetainedRefs(history, now);
    SparedIsProtected(history, now, d);
    SparedIsProtected(history, now, r);
    if !Spared(history, r) {
      OlderIsUsedBefore(history, now, d, r);
    }
  }

  // --------------------------------------------------------- the entries

  /** An entry is kept exactly when it is retained and its archive is not
      dropped, or it is the source of a kept restore. */
  lemma KeptExactly(history: seq<Entry>, now: Time, keep: set<nat>, sizeOf: Ref -> nat, i: nat)
    requires Recorded(history, sizeOf) && Retention(history, now, keep) && i < |history|
    ensures history[i].number in keep <==>
            || (Retained(history, now, i) && history[i].ref !in OverBudget(history, now, keep))
            || exists k :: 0 <= k < |history| && history[k].number in keep && history[k].restoredFrom == history[i].number
  {
    var dropped := Stages(history, now, keep, sizeOf);
    var budgeted := Without(history, Fixed(history, now), dropped);
    RetainedIsFixed(history, now, i);
    SourcesGrow(history, budgeted);
    if history[i].number in keep {
      SourcesOrigin(history, budgeted, history[i].number);
    }
    if k :| 0 <= k < |history| && history[k].number in keep && history[k].restoredFrom == history[i].number {
      SourcesClosed(history, budgeted, sizeOf, k);
    }
  }
}
