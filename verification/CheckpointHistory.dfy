/** A workspace's checkpoint history and its stored archives under record,
    restore and prune (environment/checkpoints.go,
    runtime/checkpoint/history.go, runtime/sqlite/store.go). Every method that
    makes one store call leaves the object valid, so stopping between any two
    calls, or at a failed one, does too. */
module CheckpointHistory {
  import opened Wrappers
  import opened Events
  import opened Checkpoints
  import opened CheckpointTheorems

  datatype HistoryError = NotFound | StoreFailed | ProviderFailed | NoCheckpoints | BadArchive

  /** The rows left when the rows numbered `gone` are deleted. */
  function Without1(history: seq<Entry>, gone: nat): seq<Entry>
    decreases |history|
  {
    if history == [] then []
    else
      var n := |history| - 1;
      if history[n].number == gone then Without1(history[..n], gone) else Without1(history[..n], gone) + [history[n]]
  }

  ghost function Numbers(history: seq<Entry>): set<nat> {
    set i | 0 <= i < |history| :: history[i].number
  }

  /** Deleting one more row. */
  lemma {:induction false} DeleteNext(history: seq<Entry>, keep: set<nat>, gone: nat)
    ensures Without1(Remaining(history, keep), gone) == Remaining(history, keep - {gone})
    decreases |history|
  {
    if history != [] {
      var n := |history| - 1;
      DeleteNext(history[..n], keep, gone);
      if history[n].number in keep {
        assert (Remaining(history[..n], keep) + [history[n]])[..|Remaining(history[..n], keep)|] == Remaining(history[..n], keep);
      }
    }
  }

  lemma {:induction false} RemainingAll(history: seq<Entry>, keep: set<nat>)
    requires Numbers(history) <= keep
    ensures Remaining(history, keep) == history
    decreases |history|
  {
    if history != [] {
      var n := |history| - 1;
      assert forall i | 0 <= i < n :: history[..n][i] == history[i];
      RemainingAll(history[..n], keep);
      assert history[n].number in Numbers(history);
      assert history == history[..n] + [history[n]];
    }
  }

  lemma {:induction false} RemainingSame(history: seq<Entry>, keep: set<nat>, other: set<nat>)
    requires forall i | 0 <= i < |history| :: history[i].number in keep <==> history[i].number in other
    ensures Remaining(history, keep) == Remaining(history, other)
    decreases |history|
  {
    if history != [] {
      RemainingSame(history[..|history| - 1], keep, other);
    }
  }

  lemma {:induction false} DroppedHas(history: seq<Entry>, keep: set<nat>, e: Entry)
    ensures e in Dropped(history, keep) <==> e in history && e.number !in keep
    decreases |history|
  {
    if history != [] {
      DroppedHas(history[..|history| - 1], keep, e);
      assert history == history[..|history| - 1] + [history[|history| - 1]];
    }
  }

  lemma RemainingMembers(history: seq<Entry>, keep: set<nat>, e: Entry)
    ensures e in Remaining(history, keep) <==> e in history && e.number in keep
  {
    if e in history && e.number in keep {
      var i :| 0 <= i < |history| && history[i] == e;
      var k := RemainingHas(history, keep, i);
    }
    if e in Remaining(history, keep) {
      var k :| 0 <= k < |Remaining(history, keep)| && Remaining(history, keep)[k] == e;
      var i := RemainingFrom(history, keep, k);
    }
  }

  lemma RetainedSources(history: seq<Entry>, now: Time, keep: set<nat>, sizeOf: Ref -> nat)
    requires Recorded(history, sizeOf) && history != [] && Retention(history, now, keep)
    ensures forall i | 0 <= i < |history| && history[i].number in keep && history[i].restoredFrom != 0 ::
              history[i].restoredFrom in keep
  {
    var fixed := Fixed(history, now);
    var dropped :| DropsForBudget(history, fixed, dropped) && keep == Sources(history, Without(history, fixed, dropped));
    forall i | 0 <= i < |history| && history[i].number in keep && history[i].restoredFrom != 0
      ensures history[i].restoredFrom in keep
    {
      SourcesClosed(history, Without(history, fixed, dropped), sizeOf, i);
    }
  }

  /** Deleting the expired entries keeps the rest recorded. */
  lemma ExpiryKeeps(history: seq<Entry>, now: Time, keep: set<nat>, sizeOf: Ref -> nat)
    requires Recorded(history, sizeOf) && history != [] && Retention(history, now, keep)
    ensures Recorded(Remaining(history, keep), sizeOf)
    ensures KeepsEnds(history, Remaining(history, keep))
  {
    RetainedSources(history, now, keep, sizeOf);
    RemainingRecorded(history, keep, sizeOf);
    CurrentAndBaseStay(history, now, keep, |history| - 1);
    var k := RemainingHas(history, keep, |history| - 1);
    forall i | 0 <= i < |history| && history[i].kind == Base
      ensures history[i] in Remaining(history, keep)
    {
      CurrentAndBaseStay(history, now, keep, i);
      RemainingMembers(history, keep, history[i]);
    }
  }

  /** The current entry and the bases are still there. */
  ghost predicate KeepsEnds(history: seq<Entry>, rest: seq<Entry>)
    requires history != []
  {
    && rest != [] && rest[|rest| - 1] == history[|history| - 1]
    && (forall i | 0 <= i < |history| && history[i].kind == Base :: history[i] in rest)
  }

  /** A new entry that keeps the history recorded. */
  ghost predicate Appendable(history: seq<Entry>, sizeOf: Ref -> nat, e: Entry) {
    && e.size == sizeOf(e.ref)
    && (e.restoredFrom != 0 ==>
          exists j :: 0 <= j < |history| && history[j].number == e.restoredFrom && history[j].ref == e.ref)
  }

  lemma AppendRecorded(history: seq<Entry>, sizeOf: Ref -> nat, e: Entry)
    requires Recorded(history, sizeOf) && Appendable(history, sizeOf, e) && e.number > 0
    requires history != [] ==> e.number > history[|history| - 1].number
    ensures Recorded(history + [e], sizeOf)
  {
    var longer := history + [e];
    forall i | 0 <= i < |longer|
      ensures SourceBefore(longer, i)
    {
      if i < |history| {
        assert SourceBefore(history, i);
      }
      if longer[i].restoredFrom != 0 {
        var j :| 0 <= j < |history| && j < i && history[j].number == longer[i].restoredFrom && history[j].ref == longer[i].ref;
        assert longer[j] == history[j];
      }
    }
  }

  ghost function RefsUpTo(history: seq<Entry>, k: nat, gone: set<nat>): set<Ref>
    requires k <= |history|
  {
    set i | 0 <= i < k && history[i].number !in gone :: history[i].ref
  }

  ghost function NumbersUpTo(entries: seq<Entry>, k: nat): set<nat>
    requires k <= |entries|
  {
    set i | 0 <= i < k :: entries[i].number
  }

  lemma DeletedAre(before: seq<Entry>, keep: set<nat>, expired: seq<Entry>, left: set<nat>)
    requires expired == Dropped(before, keep) && left == Numbers(before) - NumbersUpTo(expired, |expired|)
    requires AscendingNumbers(before)
    ensures Remaining(before, left) == Remaining(before, keep)
  {
    forall i | 0 <= i < |before|
      ensures before[i].number in left <==> before[i].number in keep
    {
      DroppedHas(before, keep, before[i]);
      forall k | 0 <= k < |expired| && expired[k].number == before[i].number
        ensures before[i].number !in keep
      {
        DroppedHas(before, keep, expired[k]);
      }
      if before[i].number !in keep {
        var k :| 0 <= k < |expired| && expired[k] == before[i];
      }
    }
    RemainingSame(before, left, keep);
  }

  lemma NothingExpired(before: seq<Entry>, keep: set<nat>)
    requires Dropped(before, keep) == []
    ensures Remaining(before, keep) == before
  {
    forall i | 0 <= i < |before|
      ensures before[i].number in keep
    {
      DroppedHas(before, keep, before[i]);
    }
    RemainingAll(before, keep);
  }

  lemma RefsCover(before: seq<Entry>, keep: set<nat>, expired: seq<Entry>, gone: set<nat>, refs: set<Ref>)
    requires expired == Dropped(before, keep) && gone == NumbersUpTo(expired, |expired|)
    requires refs == RefsUpTo(before, |before|, gone)
    ensures refs == RefsIn(Remaining(before, keep))
  {
    forall e | e in Remaining(before, keep)
      ensures e.ref in refs
    {
      RemainingMembers(before, keep, e);
      var i :| 0 <= i < |before| && before[i] == e;
      forall k | 0 <= k < |expired|
        ensures expired[k].number != e.number
      {
        DroppedHas(before, keep, expired[k]);
      }
    }
    forall r | r in refs
      ensures r in RefsIn(Remaining(before, keep))
    {
      var i :| 0 <= i < |before| && before[i].number !in gone && before[i].ref == r;
      DroppedHas(before, keep, before[i]);
      RemainingMembers(before, keep, before[i]);
    }
  }

  /** The archives that a history points at. */
  function RefsIn(history: seq<Entry>): set<Ref> {
    set e | e in history :: e.ref
  }

  /** Numbers ascend, and none is used again; bases survive; a restore points
      to an earlier entry with its archive; every entry's archive is stored. */
  ghost predicate WorkspaceOk(history: seq<Entry>, archives: set<Ref>, used: set<nat>, bases: set<Entry>, sizeOf: Ref -> nat) {
    && Recorded(history, sizeOf)
    && (forall e | e in history :: e.ref in archives && e.number in used)
    && (forall u | u in used :: history != [] && u <= history[|history| - 1].number)
    && (forall e | e in bases :: e in history && e.kind == Base)
    && (forall e | e in history && e.kind == Base :: e in bases)
  }

  lemma ExpiryKeepsWorkspace(history: seq<Entry>, keep: set<nat>, archives: set<Ref>, used: set<nat>, bases: set<Entry>, sizeOf: Ref -> nat)
    requires WorkspaceOk(history, archives, used, bases, sizeOf) && history != []
    requires Recorded(Remaining(history, keep), sizeOf) && KeepsEnds(history, Remaining(history, keep))
    ensures WorkspaceOk(Remaining(history, keep), archives, used, bases, sizeOf)
  {
    var rest := Remaining(history, keep);
    forall e | e in rest
      ensures e in history
    {
      RemainingMembers(history, keep, e);
    }
    forall e | e in bases
      ensures e in rest
    {
      assert e in history;
      var i :| 0 <= i < |history| && history[i] == e;
      RetainsBase(history, rest, i, bases, e);
    }
  }

  lemma RetainsBase(history: seq<Entry>, rest: seq<Entry>, i: nat, bases: set<Entry>, e: Entry)
    requires history != [] && KeepsEnds(history, rest) && i < |history| && history[i] == e && e.kind == Base
    ensures e in rest
  {
  }

  /** The DELETE statements of one transaction. The newest row is never among
      the expired ones, so their guard on MAX(seq) always holds. */
  method DeleteRows(history: seq<Entry>, expired: seq<Entry>, ghost keep: set<nat>) returns (rows: seq<Entry>)
    requires AscendingNumbers(history) && expired == Dropped(history, keep)
    ensures rows == Remaining(history, keep)
  {
    rows := history;
    ghost var left := Numbers(history);
    RemainingAll(history, left);
    for k := 0 to |expired|
      invariant rows == Remaining(history, left)
      invariant left == Numbers(history) - NumbersUpTo(expired, k)
    {
      DeleteNext(history, left, expired[k].number);
      rows := Without1(rows, expired[k].number);
      left := left - {expired[k].number};
    }
    DeletedAre(history, keep, expired, left);
  }

  /** The archives that entries other than the expired ones point at. */
  method KeptRefs(history: seq<Entry>, expired: seq<Entry>, ghost keep: set<nat>) returns (refs: set<Ref>)
    requires expired == Dropped(history, keep)
    ensures refs == RefsIn(Remaining(history, keep))
  {
    var gone: set<nat> := {};
    for k := 0 to |expired|
      invariant gone == NumbersUpTo(expired, k)
    {
      gone := gone + {expired[k].number};
    }
    refs := {};
    for k := 0 to |history|
      invariant refs == RefsUpTo(history, k, gone)
    {
      if history[k].number !in gone {
        refs := refs + {history[k].ref};
      }
    }
    RefsCover(history, keep, expired, gone, refs);
  }

  /** What pruning leaves: what retention keeps. */
  ghost predicate PrunedTo(history: seq<Entry>, now: Time, rest: seq<Entry>) {
    exists keep :: Retention(history, now, keep) && rest == Remaining(history, keep)
  }

  /** What recording leaves: the longer history, pruned unless that failed. */
  ghost predicate AppendedTo(longer: seq<Entry>, now: Time, history: seq<Entry>, deleteFails: bool) {
    PrunedTo(longer, now, history) || (deleteFails && history == longer)
  }

  /** The archive is that of the current entry. */
  predicate IsCurrent(history: seq<Entry>, ref: Ref) {
    history != [] && history[|history| - 1].ref == ref
  }

  lemma PrunedKeepsCurrent(history: seq<Entry>, now: Time, rest: seq<Entry>, sizeOf: Ref -> nat)
    requires Recorded(history, sizeOf) && history != [] && PrunedTo(history, now, rest)
    ensures rest != [] && rest[|rest| - 1] == history[|history| - 1]
  {
    var keep :| Retention(history, now, keep) && rest == Remaining(history, keep);
    ExpiryKeeps(history, now, keep, sizeOf);
  }

  class Workspace {
    ghost const sizeOf: Ref -> nat
    var history: seq<Entry>
    var archives: set<Ref>
    /** Every number an entry ever had, and every base ever recorded. */
    ghost var used: set<nat>
    ghost var bases: set<Entry>

    ghost predicate Valid()
      reads this
    {
      forall h | h == history :: WorkspaceOk(h, archives, used, bases, sizeOf)
    }

    constructor (size: Ref -> nat)
      ensures Valid() && history == [] && archives == {} && sizeOf == size
    {
      sizeOf := size;
      history, archives := [], {};
      used, bases := {}, {};
    }

    /** The provider stores an archive before it is recorded. */
    method StoreArchive(ref: Ref)
      requires Valid()
      modifies this`archives
      ensures Valid() && archives == old(archives) + {ref}
    {
      assert WorkspaceOk(history, archives, used, bases, sizeOf);
      archives := archives + {ref};
    }

    /** AppendWorkspaceCheckpoint: MAX(seq) + 1 is a number never used before. */
    method Append(checkpoint: Entry) returns (recorded: Entry)
      requires Valid() && Appendable(history, sizeOf, checkpoint) && checkpoint.ref in archives
      modifies this`history, this`used, this`bases
      ensures Valid() && history == old(history) + [recorded]
      ensures recorded == checkpoint.(number := recorded.number) && recorded.number !in old(used)
      ensures used == old(used) + {recorded.number} && old(bases) <= bases
    {
      assert WorkspaceOk(history, archives, used, bases, sizeOf);
      var next := 1;
      if |history| > 0 {
        next := history[|history| - 1].number + 1;
      }
      recorded := checkpoint.(number := next);
      AppendRecorded(history, sizeOf, recorded);
      history := history + [recorded];
      used := used + {next};
      if recorded.kind == Base {
        bases := bases + {recorded};
      }
    }

    /** DeleteWorkspaceCheckpoints of the expired entries, in one transaction
        that may fail. */
    method DeleteExpired(expired: seq<Entry>, now: Time, ghost keep: set<nat>, fails: bool) returns (r: Result<(), HistoryError>)
      requires Valid() && history != [] && Retention(history, now, keep) && expired == Dropped(history, keep)
      modifies this`history
      ensures Valid() && r.Ok? == !fails
      ensures history == if fails then old(history) else Remaining(old(history), keep)
    {
      if fails {
        return Err(StoreFailed);
      }
      assert WorkspaceOk(history, archives, used, bases, sizeOf);
      ExpiryKeeps(history, now, keep, sizeOf);
      ExpiryKeepsWorkspace(history, keep, archives, used, bases, sizeOf);
      history := DeleteRows(history, expired, keep);
      return Ok(());
    }

    /** PruneWorkspaceCheckpoints: the archive store removes some or all of the
        archives that are not in `refs`. */
    method PruneArchives(refs: set<Ref>, removed: set<Ref>)
      requires Valid() && forall e | e in history :: e.ref in refs
      modifies this`archives
      ensures Valid() && archives == old(archives) - (removed - refs)
    {
      assert WorkspaceOk(history, archives, used, bases, sizeOf);
      archives := archives - (removed - refs);
    }

    /** pruneWorkspaceCheckpoints. */
    method Prune(now: Time, deleteFails: bool, removed: set<Ref>) returns (r: Result<(), HistoryError>)
      requires Valid()
      modifies this`history, this`archives
      ensures Valid()
      ensures r.Err? ==> history == old(history) && archives == old(archives) && (deleteFails || history == [])
      ensures r.Ok? ==> PrunedTo(old(history), now, history) && archives == old(archives) - (removed - RefsIn(history))
    {
      if |history| == 0 {
        return Err(NoCheckpoints);
      }
      assert WorkspaceOk(history, archives, used, bases, sizeOf);
      var before := history;
      var expired, keep := ExpiredCheckpoints(history, now);
      if |expired| != 0 {
        var deleted :- DeleteExpired(expired, now, keep, deleteFails);
      } else {
        NothingExpired(history, keep);
      }
      var refs := KeptRefs(before, expired, keep);
      PruneArchives(refs, removed);
      assert PrunedTo(before, now, history);
      return Ok(());
    }

    /** RecordWorkspaceCheckpoint. A run that changed nothing records nothing;
        a failed prune does not undo the append. */
    method Record(checkpoint: Entry, deleteFails: bool, removed: set<Ref>) returns (recorded: Entry)
      requires Valid() && Appendable(history, sizeOf, checkpoint) && checkpoint.ref in archives
      modifies this
      ensures Valid() && history != [] && recorded == history[|history| - 1] && recorded.ref == checkpoint.ref
      ensures recorded.number in old(used) <==>
                checkpoint.kind == AfterRun && old(history) != [] && old(history)[|old(history)| - 1].ref == checkpoint.ref
      ensures recorded.number in old(used) ==> history == old(history) && archives == old(archives)
      ensures recorded.number !in old(used) ==>
                && recorded == checkpoint.(number := recorded.number)
                && AppendedTo(old(history) + [recorded], recorded.createdAt, history, deleteFails)
      ensures old(bases) <= bases && old(used) <= used
    {
      if checkpoint.kind == AfterRun && |history| > 0 && history[|history| - 1].ref == checkpoint.ref {
        assert WorkspaceOk(history, archives, used, bases, sizeOf);
        return history[|history| - 1];
      }
      recorded := AppendAndPrune(checkpoint, deleteFails, removed);
    }

    /** Its second half: the entry is appended, and is the current one also
        after pruning. */
    method AppendAndPrune(checkpoint: Entry, deleteFails: bool, removed: set<Ref>) returns (recorded: Entry)
      requires Valid() && Appendable(history, sizeOf, checkpoint) && checkpoint.ref in archives
      modifies this
      ensures Valid() && history != [] && recorded == history[|history| - 1]
      ensures recorded == checkpoint.(number := recorded.number) && recorded.number !in old(used)
      ensures AppendedTo(old(history) + [recorded], recorded.createdAt, history, deleteFails)
      ensures old(bases) <= bases && old(used) <= used
    {
      recorded := Append(checkpoint);
      ghost var appended := history;
      StillRecorded();
      var pruned := Prune(recorded.createdAt, deleteFails, removed);
      if pruned.Ok? {
        PrunedKeepsCurrent(appended, recorded.createdAt, history, sizeOf);
      }
    }

    /** persistCheckpoint of a run: the archive is checked, stored, and only
        then recorded. `stored` is what the archive store answers. Failing
        before the entry leaves every entry alone, and no entry ever points at
        an archive that is not stored. */
    method PersistCheckpoint(valid: bool, stored: Option<Ref>, size: nat, recordFails: bool, run: string, now: Time,
                             deleteFails: bool, removed: set<Ref>) returns (r: Result<Entry, HistoryError>)
      requires Valid() && (stored.Some? ==> size == sizeOf(stored.value))
      modifies this
      ensures Valid()
      ensures r.Ok? <==> valid && stored.Some? && !recordFails
      ensures r.Err? ==> history == old(history) && old(archives) <= archives
      ensures r.Err? && !(valid && stored.Some?) ==> archives == old(archives)
      ensures r.Ok? ==> history != [] && history[|history| - 1] == r.value && r.value.ref == stored.value
      ensures r.Ok? && IsCurrent(old(history), stored.value) ==> history == old(history)
      ensures r.Ok? && !IsCurrent(old(history), stored.value) ==>
                && r.value == Entry(r.value.number, stored.value, AfterRun, run, 0, size, now) && r.value.number !in old(used)
                && AppendedTo(old(history) + [r.value], now, history, deleteFails)
    {
      if !valid {
        return Err(BadArchive);
      }
      if stored.None? {
        return Err(ProviderFailed);
      }
      StoreArchive(stored.value);
      if recordFails {
        return Err(StoreFailed);
      }
      var recorded := Record(Entry(0, stored.value, AfterRun, run, 0, size, now), deleteFails, removed);
      return Ok(recorded);
    }

    lemma StillRecorded()
      requires Valid()
      ensures Recorded(history, sizeOf)
    {
      assert WorkspaceOk(history, archives, used, bases, sizeOf);
    }

    /** The entry with a number, or the length of the history. */
    method Find(number: nat) returns (i: nat)
      ensures i <= |history| && (i == |history| <==> number !in Numbers(history))
      ensures i < |history| ==> history[i].number == number
    {
      i := 0;
      while i < |history| && history[i].number != number
        invariant i <= |history|
        invariant forall k | 0 <= k < i :: history[k].number != number
      {
        i := i + 1;
      }
    }

    lemma TargetIsStored(i: nat)
      requires Valid() && i < |history|
      ensures history[i].ref in archives && history[i].size == sizeOf(history[i].ref)
    {
      assert WorkspaceOk(history, archives, used, bases, sizeOf);
    }

    /** History.RestoreWorkspace: the provider applies the target, then the
        restore is recorded with the target's archive, which is still stored.
        A failure up to the append changes no entry and no archive, also one
        after the provider applied the target. */
    method RestoreWorkspace(number: nat, readFails: bool, providerFails: bool, recordFails: bool, now: Time,
                            deleteFails: bool, removed: set<Ref>)
      returns (r: Result<Entry, HistoryError>)
      requires Valid()
      modifies this
      ensures Valid()
      ensures r.Err? ==> history == old(history) && archives == old(archives)
      ensures r.Err? <==> readFails || number !in Numbers(old(history)) || providerFails || recordFails
      ensures r.Ok? ==>
                && history != [] && r.value == history[|history| - 1] && r.value.kind == Restore && r.value.restoredFrom == number
                && r.value.number !in old(used) && r.value.ref in old(archives)
                && exists target :: target in old(history) && target.number == number && target.ref == r.value.ref
    {
      if readFails {
        return Err(StoreFailed);
      }
      var i := Find(number);
      if i == |history| {
        return Err(NotFound);
      }
      TargetIsStored(i);
      var target := history[i];
      if providerFails {
        return Err(ProviderFailed);
      }
      if recordFails {
        return Err(StoreFailed);
      }
      var recorded := Record(Entry(0, target.ref, Restore, "", target.number, target.size, now), deleteFails, removed);
      return Ok(recorded);
    }
  }
}
