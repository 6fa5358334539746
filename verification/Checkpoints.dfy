/** Checkpoint retention (environment/checkpoints.go): which entries of a
    workspace's history expire. */
module Checkpoints {
  import opened Events

  /** An archive's reference: the digest of its content. */
  type Ref = nat

  datatype Kind = Base | AfterRun | Restore

  /** `number` is the seq column; `restoredFrom` is the number a restore entry restored, and 0 otherwise. */
  datatype Entry = Entry(number: nat, ref: Ref, kind: Kind, run: string, restoredFrom: nat, size: nat, createdAt: Time)

  const RetainRecent := 10
  const RetainDaily := 14
  const RetainBytes := 0x4000_0000
  const RetainCopies := 4
  const DayLength := 86_400_000_000

  /** The UTC day of a time in microseconds. */
  function Day(t: Time): int {
    t / DayLength
  }

  function Max(a: nat, b: nat): nat {
    if a > b then a else b
  }

  ghost predicate AscendingNumbers(history: seq<Entry>) {
    && (forall i | 0 <= i < |history| :: history[i].number > 0)
    && (forall i, j | 0 <= i < j < |history| :: history[i].number < history[j].number)
  }

  // --------------------------------------------------------- what is kept

  ghost predicate NewestOfDay(history: seq<Entry>, i: nat)
    requires i < |history|
  {
    forall j | 0 <= j < |history| && Day(history[j].createdAt) == Day(history[i].createdAt) :: history[j].number <= history[i].number
  }

  ghost predicate InDays(e: Entry, now: Time) {
    Day(now) - (RetainDaily - 1) <= Day(e.createdAt) <= Day(now)
  }

  /** Fixed retention: the ten newest, the newest of each of the last fourteen
      days, and the base. */
  ghost predicate FixedKeeps(history: seq<Entry>, now: Time, i: nat)
    requires i < |history|
  {
    || i >= |history| - RetainRecent
    || history[i].kind == Base
    || (InDays(history[i], now) && NewestOfDay(history, i))
  }

  ghost function Fixed(history: seq<Entry>, now: Time): set<nat> {
    set i | 0 <= i < |history| && FixedKeeps(history, now, i) :: history[i].number
  }

  // ------------------------------------------------------------- archives

  function RefsOf(history: seq<Entry>, keep: set<nat>): set<Ref> {
    set i | 0 <= i < |history| && history[i].number in keep :: history[i].ref
  }

  /** The number of the newest kept entry that uses `r`. */
  function LastUsed(history: seq<Entry>, keep: set<nat>, r: Ref): nat
    decreases |history|
  {
    if history == [] then 0
    else
      var e := history[|history| - 1];
      if e.number in keep && e.ref == r then e.number else LastUsed(history[..|history| - 1], keep, r)
  }

  /** The size that the oldest kept entry gives the archive. */
  function SizeIn(history: seq<Entry>, keep: set<nat>, r: Ref): nat {
    if history == [] then 0
    else if history[0].number in keep && history[0].ref == r then history[0].size
    else SizeIn(history[1..], keep, r)
  }

  ghost predicate IsProtected(history: seq<Entry>, keep: set<nat>, r: Ref) {
    exists i :: && 0 <= i < |history| && history[i].number in keep && history[i].ref == r
                && (i == |history| - 1 || history[i].kind == Base)
  }

  ghost function Total(sizes: Ref -> nat, refs: set<Ref>): nat
    decreases |refs|
  {
    if refs == {} then 0
    else
      var r :| r in refs;
      sizes(r) + Total(sizes, refs - {r})
  }

  lemma {:induction false} TotalWithout(sizes: Ref -> nat, refs: set<Ref>, r: Ref)
    requires r in refs
    ensures Total(sizes, refs) == sizes(r) + Total(sizes, refs - {r})
    decreases |refs|
  {
    var first :| first in refs && Total(sizes, refs) == sizes(first) + Total(sizes, refs - {first});
    if first != r {
      TotalWithout(sizes, refs - {first}, r);
      TotalWithout(sizes, refs - {r}, first);
      assert refs - {first} - {r} == refs - {r} - {first};
    }
  }

  lemma {:induction false} TotalSame(sizes: Ref -> nat, others: Ref -> nat, refs: set<Ref>)
    requires forall r | r in refs :: sizes(r) == others(r)
    ensures Total(sizes, refs) == Total(others, refs)
    decreases |refs|
  {
    if refs != {} {
      var r :| r in refs;
      TotalWithout(sizes, refs, r);
      TotalWithout(others, refs, r);
      TotalSame(sizes, others, refs - {r});
    }
  }

  function Sizes(history: seq<Entry>, keep: set<nat>): Ref -> nat {
    (r: Ref) => SizeIn(history, keep, r)
  }

  function Budget(history: seq<Entry>): nat
    requires history != []
  {
    Max(RetainBytes, RetainCopies * history[|history| - 1].size)
  }

  /** `keep` without the entries of the dropped archives. */
  function Without(history: seq<Entry>, keep: set<nat>, dropped: set<Ref>): set<nat> {
    set s | s in keep && !(exists i :: 0 <= i < |history| && history[i].number == s && history[i].ref in dropped)
  }

  /** Dropping `dropped` is what the byte budget asks for: no protected
      archive; least recently used first; until the rest fits or only
      protected ones remain; and no longer than needed. */
  ghost predicate DropsForBudget(history: seq<Entry>, keep: set<nat>, dropped: set<Ref>)
    requires history != []
  {
    var refs, sizes := RefsOf(history, keep), Sizes(history, keep);
    && dropped <= refs
    && (forall d | d in dropped :: !IsProtected(history, keep, d))
    && (forall d, r | d in dropped && r in refs - dropped && !IsProtected(history, keep, r) ::
          LastUsed(history, keep, d) < LastUsed(history, keep, r))
    && (Total(sizes, refs - dropped) <= Budget(history) || forall r | r in refs - dropped :: IsProtected(history, keep, r))
    && (dropped != {} ==>
          exists d | d in dropped ::
            && (forall x | x in dropped :: LastUsed(history, keep, x) <= LastUsed(history, keep, d))
            && Total(sizes, refs - dropped) + sizes(d) > Budget(history))
  }

  // -------------------------------------------------- the restore sources

  /** Walking newest first, the source of a kept restore is kept too. */
  function Sources(history: seq<Entry>, keep: set<nat>): set<nat>
    decreases |history|
  {
    if history == [] then keep
    else
      var e := history[|history| - 1];
      Sources(history[..|history| - 1], if e.number in keep && e.restoredFrom != 0 then keep + {e.restoredFrom} else keep)
  }

  function Dropped(history: seq<Entry>, keep: set<nat>): seq<Entry>
    decreases |history|
  {
    if history == [] then []
    else
      var n := |history| - 1;
      if history[n].number !in keep then Dropped(history[..n], keep) + [history[n]] else Dropped(history[..n], keep)
  }

  /** What ExpiredCheckpoints promises: fixed retention, then the byte budget,
      then the sources of kept restores. */
  ghost predicate Retention(history: seq<Entry>, now: Time, keep: set<nat>) {
    if history == [] then keep == {}
    else
      exists dropped :: DropsForBudget(history, Fixed(history, now), dropped)
                        && keep == Sources(history, Without(history, Fixed(history, now), dropped))
  }

  // ------------------------------------------------------------ the loops

  datatype Archive = Archive(size: nat, lastUsed: nat, protected: bool)

  ghost predicate ArchiveOf(history: seq<Entry>, keep: set<nat>, last: nat, r: Ref, a: Archive) {
    && a.size == SizeIn(history, keep, r) && a.lastUsed == LastUsed(history, keep, r)
    && (a.protected <==> exists i :: 0 <= i < |history| && history[i].number in keep && history[i].ref == r
                                     && (history[i].number == last || history[i].kind == Base))
  }

  ghost predicate Gathers(history: seq<Entry>, keep: set<nat>, last: nat, archives: map<Ref, Archive>) {
    && archives.Keys == RefsOf(history, keep)
    && (forall r | r in archives :: ArchiveOf(history, keep, last, r, archives[r]))
  }

  /** Gathers, as the loops pass it on: the one-point quantifier keeps its
      clauses out of their proofs. */
  ghost predicate Collected(history: seq<Entry>, keep: set<nat>, last: nat, archives: map<Ref, Archive>) {
    forall x | x == archives :: Gathers(history, keep, last, x)
  }

  lemma {:induction false} SizeInSnoc(history: seq<Entry>, e: Entry, keep: set<nat>, r: Ref)
    ensures SizeIn(history + [e], keep, r) ==
            if r in RefsOf(history, keep) then SizeIn(history, keep, r)
            else if e.number in keep && e.ref == r then e.size else 0
  {
    if history == [] {
      assert history + [e] == [e] && [e][1..] == [];
    } else {
      assert (history + [e])[1..] == history[1..] + [e];
      SizeInSnoc(history[1..], e, keep, r);
      assert r in RefsOf(history, keep) <==> (history[0].number in keep && history[0].ref == r) || r in RefsOf(history[1..], keep) by {
        if r in RefsOf(history, keep) {
          var i :| 0 <= i < |history| && history[i].number in keep && history[i].ref == r;
          if i > 0 {
            assert history[1..][i - 1] == history[i];
          }
        }
        if r in RefsOf(history[1..], keep) {
          var i :| 0 <= i < |history[1..]| && history[1..][i].number in keep && history[1..][i].ref == r;
          assert history[i + 1] == history[1..][i];
        }
      }
    }
  }

  /** What the archives' loop does for one kept entry. */
  function Noted(archives: map<Ref, Archive>, e: Entry, last: nat): map<Ref, Archive> {
    var prior := if e.ref in archives then archives[e.ref] else Archive(e.size, 0, false);
    archives[e.ref := Archive(prior.size, e.number, prior.protected || e.number == last || e.kind == Base)]
  }

  lemma CollectNext(history: seq<Entry>, k: nat, keep: set<nat>, last: nat, archives: map<Ref, Archive>)
    requires k < |history| && Collected(history[..k], keep, last, archives)
    ensures Collected(history[..k + 1], keep, last, if history[k].number in keep then Noted(archives, history[k], last) else archives)
  {
    var e := history[k];
    var before, after := history[..k], history[..k + 1];
    assert Gathers(before, keep, last, archives);
    assert after == before + [e] && after[..k] == before;
    assert forall i | 0 <= i < k :: after[i] == before[i];
    var next := if e.number in keep then Noted(archives, e, last) else archives;
    assert RefsOf(after, keep) == RefsOf(before, keep) + (if e.number in keep then {e.ref} else {}) by {
      assert after[k] == e;
    }
    forall r | r in next
      ensures ArchiveOf(after, keep, last, r, next[r])
    {
      SizeInSnoc(before, e, keep, r);
      assert after[k] == e;
      if r in archives {
        assert ArchiveOf(before, keep, last, r, archives[r]);
      }
    }
  }

  function SizeOf(archives: map<Ref, Archive>): Ref -> nat {
    (r: Ref) => if r in archives then archives[r].size else 0
  }

  ghost function WholeTotal(archives: map<Ref, Archive>): nat {
    Total(SizeOf(archives), archives.Keys)
  }

  lemma TotalGains(archives: map<Ref, Archive>, r: Ref, a: Archive)
    ensures r !in archives ==> WholeTotal(archives[r := a]) == a.size + WholeTotal(archives)
    ensures r in archives && a.size == archives[r].size ==> WholeTotal(archives[r := a]) == WholeTotal(archives)
  {
    var next := archives[r := a];
    if r !in archives {
      TotalWithout(SizeOf(next), next.Keys, r);
      assert next.Keys - {r} == archives.Keys;
      TotalSame(SizeOf(next), SizeOf(archives), archives.Keys);
    } else if a.size == archives[r].size {
      assert next.Keys == archives.Keys;
      TotalSame(SizeOf(next), SizeOf(archives), archives.Keys);
    }
  }

  lemma {:induction false} LastUsedIsEntry(history: seq<Entry>, keep: set<nat>, r: Ref) returns (i: nat)
    requires r in RefsOf(history, keep)
    ensures i < |history| && history[i].number == LastUsed(history, keep, r) && history[i].ref == r && history[i].number in keep
    decreases |history|
  {
    var n := |history| - 1;
    if history[n].number in keep && history[n].ref == r {
      i := n;
    } else {
      var j :| 0 <= j < |history| && history[j].number in keep && history[j].ref == r;
      assert history[..n][j] == history[j];
      i := LastUsedIsEntry(history[..n], keep, r);
    }
  }

  lemma LastUsedDiffers(history: seq<Entry>, keep: set<nat>, a: Ref, b: Ref)
    requires AscendingNumbers(history) && a in RefsOf(history, keep) && b in RefsOf(history, keep) && a != b
    ensures LastUsed(history, keep, a) != LastUsed(history, keep, b)
  {
    var i := LastUsedIsEntry(history, keep, a);
    var j := LastUsedIsEntry(history, keep, b);
  }

  ghost predicate SortedByUse(archives: map<Ref, Archive>, refs: seq<Ref>) {
    && (forall r :: r in refs <==> r in archives)
    && (forall i, j | 0 <= i < j < |refs| :: refs[i] != refs[j])
    && (forall i, j | 0 <= i < j < |refs| :: archives[refs[i]].lastUsed <= archives[refs[j]].lastUsed)
  }

  lemma {:induction false} Earliest(archives: map<Ref, Archive>, refs: set<Ref>) returns (first: Ref)
    requires refs != {} && refs <= archives.Keys
    ensures first in refs && forall r | r in refs :: archives[first].lastUsed <= archives[r].lastUsed
    decreases |refs|
  {
    var r :| r in refs;
    first := r;
    if refs != {r} {
      var rest := Earliest(archives, refs - {r});
      first := if archives[r].lastUsed <= archives[rest].lastUsed then r else rest;
      assert forall x | x in refs :: x == r || x in refs - {r};
    }
  }

  /** slices.SortedFunc over the archives. */
  method SortByUse(archives: map<Ref, Archive>) returns (refs: seq<Ref>)
    ensures SortedByUse(archives, refs)
  {
    refs := [];
    var left: set<Ref> := archives.Keys;
    while left != {}
      invariant left <= archives.Keys
      invariant forall r :: r in refs <==> r in archives && r !in left
      invariant forall i, j | 0 <= i < j < |refs| :: refs[i] != refs[j]
      invariant forall i, j | 0 <= i < j < |refs| :: archives[refs[i]].lastUsed <= archives[refs[j]].lastUsed
      invariant forall i, r | 0 <= i < |refs| && r in left :: archives[refs[i]].lastUsed <= archives[r].lastUsed
      decreases |left|
    {
      ghost var first := Earliest(archives, left);
      var r: Ref :| r in left && forall x | x in left :: archives[r].lastUsed <= archives[x].lastUsed;
      refs := refs + [r];
      left := left - {r};
    }
  }

  method CollectArchives(history: seq<Entry>, keep: set<nat>, last: nat) returns (archives: map<Ref, Archive>, total: nat)
    ensures Collected(history, keep, last, archives)
    ensures total == WholeTotal(archives)
  {
    archives, total := map[], 0;
    for i := 0 to |history|
      invariant Collected(history[..i], keep, last, archives)
      invariant total == WholeTotal(archives)
    {
      CollectNext(history, i, keep, last, archives);
      var checkpoint := history[i];
      if checkpoint.number !in keep {
        continue;
      }
      var a := Archive(checkpoint.size, 0, false);
      if checkpoint.ref in archives {
        a := archives[checkpoint.ref];
      } else {
        total := total + a.size;
      }
      a := a.(lastUsed := checkpoint.number, protected := a.protected || checkpoint.number == last || checkpoint.kind == Base);
      TotalGains(archives, checkpoint.ref, a);
      assert archives[checkpoint.ref := a] == Noted(archives, checkpoint, last);
      archives := archives[checkpoint.ref := a];
    }
    assert history[..|history|] == history;
  }

  lemma ForgetNext(history: seq<Entry>, i: nat, keep: set<nat>, ref: Ref)
    requires i < |history|
    ensures Without(history[..i + 1], keep, {ref}) ==
            Without(history[..i], keep, {ref}) - (if history[i].ref == ref then {history[i].number} else {})
  {
    var before, after := history[..i], history[..i + 1];
    assert after == before + [history[i]] && after[i] == history[i];
    assert forall j | 0 <= j < i :: after[j] == before[j];
  }

  method Forget(history: seq<Entry>, keep: set<nat>, ref: Ref) returns (kept: set<nat>)
    ensures kept == Without(history, keep, {ref})
  {
    kept := keep;
    for i := 0 to |history|
      invariant kept == Without(history[..i], keep, {ref})
    {
      ForgetNext(history, i, keep, ref);
      if history[i].ref == ref {
        kept := kept - {history[i].number};
      }
    }
    assert history[..|history|] == history;
  }

  lemma WithoutTwice(history: seq<Entry>, keep: set<nat>, dropped: set<Ref>, r: Ref)
    ensures Without(history, Without(history, keep, dropped), {r}) == Without(history, keep, dropped + {r})
  {
  }

  /** Exactly the unprotected ones of the first k refs. */
  ghost predicate DroppedOf(archives: map<Ref, Archive>, refs: seq<Ref>, k: nat, dropped: set<Ref>)
    requires SortedByUse(archives, refs)
  {
    forall i | 0 <= i < |refs| :: refs[i] in dropped <==> i < k && !archives[refs[i]].protected
  }

  /** What the budget loop has dropped after k refs. */
  ghost predicate Drops(archives: map<Ref, Archive>, refs: seq<Ref>, k: nat, dropped: set<Ref>, total: int, budget: nat)
    requires SortedByUse(archives, refs)
  {
    && DroppedOf(archives, refs, k, dropped)
    && dropped <= archives.Keys
    && total == Total(SizeOf(archives), archives.Keys - dropped)
    && NoSooner(archives, dropped, total, budget)
  }

  /** Before the last drop the total did not fit. */
  ghost predicate NoSooner(archives: map<Ref, Archive>, dropped: set<Ref>, total: int, budget: nat)
    requires dropped <= archives.Keys
  {
    dropped != {} ==>
      exists d | d in dropped :: (forall x | x in dropped :: archives[x].lastUsed <= archives[d].lastUsed)
                                 && total + archives[d].size > budget
  }

  ghost predicate DroppedUpTo(archives: map<Ref, Archive>, refs: seq<Ref>, k: nat, dropped: set<Ref>, total: int, budget: nat)
    requires SortedByUse(archives, refs)
  {
    forall x | x == dropped :: Drops(archives, refs, k, x, total, budget)
  }

  lemma NothingDropped(archives: map<Ref, Archive>, refs: seq<Ref>, total: nat, budget: nat)
    requires SortedByUse(archives, refs) && total == WholeTotal(archives)
    ensures DroppedUpTo(archives, refs, 0, {}, total, budget)
  {
    assert archives.Keys - {} == archives.Keys;
  }

  lemma DropSkips(archives: map<Ref, Archive>, refs: seq<Ref>, k: nat, dropped: set<Ref>, total: int, budget: nat)
    requires SortedByUse(archives, refs) && k < |refs| && DroppedUpTo(archives, refs, k, dropped, total, budget)
    requires archives[refs[k]].protected
    ensures DroppedUpTo(archives, refs, k + 1, dropped, total, budget)
  {
    assert Drops(archives, refs, k, dropped, total, budget);
    forall i | 0 <= i < |refs|
      ensures refs[i] in dropped <==> i < k + 1 && !archives[refs[i]].protected
    {
    }
  }

  lemma DropMembers(archives: map<Ref, Archive>, refs: seq<Ref>, k: nat, dropped: set<Ref>)
    requires SortedByUse(archives, refs) && k < |refs| && DroppedOf(archives, refs, k, dropped) && !archives[refs[k]].protected
    ensures DroppedOf(archives, refs, k + 1, dropped + {refs[k]})
  {
    forall i | 0 <= i < |refs|
      ensures refs[i] in dropped + {refs[k]} <==> i < k + 1 && !archives[refs[i]].protected
    {
      assert refs[i] == refs[k] ==> i == k;
    }
  }

  /** What went before the k-th ref was used no later. */
  lemma DroppedEarlier(archives: map<Ref, Archive>, refs: seq<Ref>, k: nat, dropped: set<Ref>, x: Ref)
    requires SortedByUse(archives, refs) && k < |refs| && x in dropped && dropped <= archives.Keys
    requires DroppedOf(archives, refs, k, dropped)
    ensures archives[x].lastUsed <= archives[refs[k]].lastUsed
  {
    assert x in refs;
    var i :| 0 <= i < |refs| && refs[i] == x;
  }

  lemma DropNoSooner(archives: map<Ref, Archive>, refs: seq<Ref>, k: nat, dropped: set<Ref>, total: int, budget: nat)
    requires SortedByUse(archives, refs) && k < |refs| && dropped <= archives.Keys
    requires DroppedOf(archives, refs, k, dropped) && total > budget
    ensures dropped + {refs[k]} <= archives.Keys
    ensures NoSooner(archives, dropped + {refs[k]}, total - archives[refs[k]].size, budget)
  {
    var r := refs[k];
    assert r in refs;
    forall x | x in dropped + {r}
      ensures archives[x].lastUsed <= archives[r].lastUsed
    {
      if x != r {
        DroppedEarlier(archives, refs, k, dropped, x);
      }
    }
    assert r in dropped + {r};
  }

  lemma DropNext(archives: map<Ref, Archive>, refs: seq<Ref>, k: nat, dropped: set<Ref>, total: int, budget: nat)
    requires SortedByUse(archives, refs) && k < |refs| && DroppedUpTo(archives, refs, k, dropped, total, budget)
    requires !archives[refs[k]].protected && total > budget
    ensures DroppedUpTo(archives, refs, k + 1, dropped + {refs[k]}, total - archives[refs[k]].size, budget)
  {
    var r := refs[k];
    assert r in refs && Drops(archives, refs, k, dropped, total, budget);
    DropMembers(archives, refs, k, dropped);
    DropNoSooner(archives, refs, k, dropped, total, budget);
    TotalWithout(SizeOf(archives), archives.Keys - dropped, r);
    assert archives.Keys - dropped - {r} == archives.Keys - (dropped + {r});
  }

  /** applyByteBudget. */
  method ApplyByteBudget(history: seq<Entry>, keep: set<nat>) returns (kept: set<nat>, ghost dropped: set<Ref>)
    requires AscendingNumbers(history)
    ensures history == [] ==> kept == keep
    ensures history != [] ==> DropsForBudget(history, keep, dropped) && kept == Without(history, keep, dropped)
  {
    kept, dropped := keep, {};
    if |history| == 0 {
      return;
    }
    var current := history[|history| - 1];
    var budget := Max(RetainBytes, RetainCopies * current.size);
    var archives, size := CollectArchives(history, keep, current.number);
    var total: int := size;
    var refs := SortByUse(archives);
    assert kept == Without(history, keep, {});
    NothingDropped(archives, refs, size, budget);
    var k := 0;
    while k < |refs|
      invariant 0 <= k <= |refs|
      invariant DroppedUpTo(archives, refs, k, dropped, total, budget)
      invariant kept == Without(history, keep, dropped)
    {
      if total <= budget {
        break;
      }
      if !archives[refs[k]].protected {
        WithoutTwice(history, keep, dropped, refs[k]);
        kept := Forget(history, kept, refs[k]);
        DropNext(archives, refs, k, dropped, total, budget);
        total := total - archives[refs[k]].size;
        dropped := dropped + {refs[k]};
      } else {
        DropSkips(archives, refs, k, dropped, total, budget);
      }
      k := k + 1;
    }
    BudgetDone(history, keep, archives, refs, k, dropped, total);
  }

  /** The archives' map, read as the specification's functions. */
  lemma ArchivesMean(history: seq<Entry>, keep: set<nat>, archives: map<Ref, Archive>)
    requires AscendingNumbers(history) && history != [] && Collected(history, keep, history[|history| - 1].number, archives)
    ensures archives.Keys == RefsOf(history, keep)
    ensures forall r | r in archives ::
              && archives[r].size == Sizes(history, keep)(r) && archives[r].lastUsed == LastUsed(history, keep, r)
              && (archives[r].protected <==> IsProtected(history, keep, r))
  {
    assert Gathers(history, keep, history[|history| - 1].number, archives);
    forall r | r in archives
      ensures archives[r].size == Sizes(history, keep)(r) && archives[r].lastUsed == LastUsed(history, keep, r)
      ensures archives[r].protected <==> IsProtected(history, keep, r)
    {
      assert ArchiveOf(history, keep, history[|history| - 1].number, r, archives[r]);
    }
  }

  lemma DroppedOldest(history: seq<Entry>, keep: set<nat>, archives: map<Ref, Archive>, refs: seq<Ref>, k: nat,
                      dropped: set<Ref>, total: int, d: Ref, r: Ref)
    requires AscendingNumbers(history) && history != [] && Collected(history, keep, history[|history| - 1].number, archives)
    requires SortedByUse(archives, refs) && k <= |refs| && DroppedUpTo(archives, refs, k, dropped, total, Budget(history))
    requires d in dropped && r in archives.Keys - dropped && !archives[r].protected
    ensures k < |refs| && LastUsed(history, keep, d) < LastUsed(history, keep, r)
  {
    ArchivesMean(history, keep, archives);
    assert Drops(archives, refs, k, dropped, total, Budget(history));
    assert d in refs && r in refs;
    var i, j :| 0 <= i < |refs| && refs[i] == d && 0 <= j < |refs| && refs[j] == r;
    LastUsedDiffers(history, keep, d, r);
  }

  lemma BudgetDone(history: seq<Entry>, keep: set<nat>, archives: map<Ref, Archive>, refs: seq<Ref>, k: nat,
                   dropped: set<Ref>, total: int)
    requires AscendingNumbers(history) && history != [] && Collected(history, keep, history[|history| - 1].number, archives)
    requires SortedByUse(archives, refs) && k <= |refs| && DroppedUpTo(archives, refs, k, dropped, total, Budget(history))
    requires k == |refs| || total <= Budget(history)
    ensures DropsForBudget(history, keep, dropped)
  {
    var sizes := Sizes(history, keep);
    ArchivesMean(history, keep, archives);
    assert Drops(archives, refs, k, dropped, total, Budget(history));
    TotalSame(sizes, SizeOf(archives), archives.Keys - dropped);
    forall d, r | d in dropped && r in archives.Keys - dropped && !IsProtected(history, keep, r)
      ensures LastUsed(history, keep, d) < LastUsed(history, keep, r)
    {
      DroppedOldest(history, keep, archives, refs, k, dropped, total, d, r);
    }
    forall r | r in archives
      ensures r in dropped ==> !IsProtected(history, keep, r)
      ensures r !in dropped && k == |refs| ==> IsProtected(history, keep, r)
    {
      assert r in refs;
      var j :| 0 <= j < |refs| && refs[j] == r;
    }
    BudgetStops(history, keep, archives, dropped, total);
  }

  lemma BudgetStops(history: seq<Entry>, keep: set<nat>, archives: map<Ref, Archive>, dropped: set<Ref>, total: int)
    requires AscendingNumbers(history) && history != [] && Collected(history, keep, history[|history| - 1].number, archives)
    requires dropped <= archives.Keys && NoSooner(archives, dropped, total, Budget(history))
    ensures dropped != {} ==>
              exists d | d in dropped ::
                && (forall x | x in dropped :: LastUsed(history, keep, x) <= LastUsed(history, keep, d))
                && total + Sizes(history, keep)(d) > Budget(history)
  {
    ArchivesMean(history, keep, archives);
  }

  // ------------------------------------------------- ExpiredCheckpoints

  ghost function Recent(history: seq<Entry>): set<nat> {
    set i | 0 <= i < |history| && i >= |history| - RetainRecent :: history[i].number
  }

  ghost function Bases(history: seq<Entry>, k: nat): set<nat>
    requires k <= |history|
  {
    set i | 0 <= i < k && history[i].kind == Base :: history[i].number
  }

  /** `e` is the newest entry of its day among the first k. */
  ghost predicate NewestAmong(history: seq<Entry>, k: nat, day: int, now: Time, e: Entry)
    requires k <= |history|
  {
    exists j :: && 0 <= j < k && history[j] == e && Day(e.createdAt) == day && InDays(e, now)
                && (forall m | j < m < k :: Day(history[m].createdAt) != day)
  }

  ghost predicate DaysCovered(history: seq<Entry>, k: nat, now: Time, newest: map<int, Entry>)
    requires k <= |history|
  {
    && (forall d | d in newest :: NewestAmong(history, k, d, now, newest[d]))
    && (forall j | 0 <= j < k && InDays(history[j], now) :: Day(history[j].createdAt) in newest)
  }

  lemma CoverNext(history: seq<Entry>, k: nat, now: Time, newest: map<int, Entry>)
    requires k < |history| && DaysCovered(history, k, now, newest)
    ensures DaysCovered(history, k + 1, now,
                        if InDays(history[k], now) then newest[Day(history[k].createdAt) := history[k]] else newest)
  {
    var e := history[k];
    var next := if InDays(e, now) then newest[Day(e.createdAt) := e] else newest;
    forall d | d in next
      ensures NewestAmong(history, k + 1, d, now, next[d])
    {
      if InDays(e, now) && d == Day(e.createdAt) {
        assert history[k] == e;
      } else {
        assert NewestAmong(history, k, d, now, newest[d]);
      }
    }
  }

  ghost function DayNumbers(newest: map<int, Entry>): set<nat> {
    set d | d in newest :: newest[d].number
  }

  lemma NewestAmongAll(history: seq<Entry>, now: Time, newest: map<int, Entry>, s: nat)
    requires AscendingNumbers(history) && DaysCovered(history, |history|, now, newest)
    ensures s in DayNumbers(newest) <==>
            exists i :: 0 <= i < |history| && history[i].number == s && InDays(history[i], now) && NewestOfDay(history, i)
  {
    if s in DayNumbers(newest) {
      var d :| d in newest && newest[d].number == s;
      assert NewestAmong(history, |history|, d, now, newest[d]);
      var j :| && 0 <= j < |history| && history[j] == newest[d] && Day(history[j].createdAt) == d && InDays(history[j], now)
               && (forall m | j < m < |history| :: Day(history[m].createdAt) != d);
      assert NewestOfDay(history, j);
    }
    if i :| 0 <= i < |history| && history[i].number == s && InDays(history[i], now) && NewestOfDay(history, i) {
      var d := Day(history[i].createdAt);
      assert NewestAmong(history, |history|, d, now, newest[d]);
      var j :| 0 <= j < |history| && history[j] == newest[d] && Day(history[j].createdAt) == d
               && (forall m | j < m < |history| :: Day(history[m].createdAt) != d);
      assert i <= j && history[j].number <= history[i].number;
      assert i == j;
    }
  }

  lemma FixedIs(history: seq<Entry>, now: Time, newest: map<int, Entry>)
    requires AscendingNumbers(history) && DaysCovered(history, |history|, now, newest)
    ensures Recent(history) + Bases(history, |history|) + DayNumbers(newest) == Fixed(history, now)
  {
    forall s
      ensures s in Recent(history) + Bases(history, |history|) + DayNumbers(newest) <==> s in Fixed(history, now)
    {
      NewestAmongAll(history, now, newest, s);
    }
  }

  /** The fixed part of ExpiredCheckpoints. */
  method FixedRetention(history: seq<Entry>, now: Time) returns (keep: set<nat>)
    requires AscendingNumbers(history)
    ensures keep == Fixed(history, now)
  {
    keep := {};
    for i := if |history| > RetainRecent then |history| - RetainRecent else 0 to |history|
      invariant keep == set j | 0 <= j < i && j >= |history| - RetainRecent :: history[j].number
    {
      keep := keep + {history[i].number};
    }
    assert keep == Recent(history);
    var today := Day(now);
    var oldest := today - (RetainDaily - 1);
    var newest: map<int, Entry> := map[];
    for i := 0 to |history|
      invariant keep == Recent(history) + Bases(history, i)
      invariant DaysCovered(history, i, now, newest)
    {
      var checkpoint := history[i];
      if checkpoint.kind == Base {
        keep := keep + {checkpoint.number};
      }
      CoverNext(history, i, now, newest);
      var day := Day(checkpoint.createdAt);
      if day < oldest || day > today {
        continue;
      }
      assert day in newest ==> NewestAmong(history, i, day, now, newest[day]);
      if day !in newest || checkpoint.number > newest[day].number {
        newest := newest[day := checkpoint];
      }
    }
    FixedIs(history, now, newest);
    keep := AddDays(keep, newest);
  }

  lemma SomeDay(days: set<int>)
    ensures days == {} || exists d :: d in days
  {
    if forall d :: d !in days {
      assert days == {};
    }
  }

  method AddDays(keep: set<nat>, newest: map<int, Entry>) returns (kept: set<nat>)
    ensures kept == keep + DayNumbers(newest)
  {
    kept := keep;
    var days := newest.Keys;
    while days != {}
      invariant days <= newest.Keys
      invariant kept == keep + DaysDone(newest, days)
      decreases |days|
    {
      SomeDay(days);
      var d :| d in days;
      days := days - {d};
      kept := kept + {newest[d].number};
    }
    assert DayNumbers(newest) == DaysDone(newest, {});
  }

  ghost function DaysDone(newest: map<int, Entry>, left: set<int>): set<nat> {
    set d | d in newest && d !in left :: newest[d].number
  }

  lemma SourcesNext(history: seq<Entry>, i: nat, keep: set<nat>)
    requires 0 < i <= |history|
    ensures Sources(history[..i], keep) ==
            Sources(history[..i - 1],
                    if history[i - 1].number in keep && history[i - 1].restoredFrom != 0
                    then keep + {history[i - 1].restoredFrom} else keep)
  {
    assert history[..i][..i - 1] == history[..i - 1];
  }

  lemma DroppedNext(history: seq<Entry>, i: nat, keep: set<nat>)
    requires i < |history|
    ensures Dropped(history[..i + 1], keep) ==
            Dropped(history[..i], keep) + (if history[i].number !in keep then [history[i]] else [])
  {
    assert history[..i + 1][..i] == history[..i];
  }

  /** ExpiredCheckpoints. */
  method ExpiredCheckpoints(history: seq<Entry>, now: Time) returns (expired: seq<Entry>, ghost kept: set<nat>)
    requires AscendingNumbers(history)
    ensures Retention(history, now, kept) && expired == Dropped(history, kept)
  {
    var keep := FixedRetention(history, now);
    ghost var dropped;
    keep, dropped := ApplyByteBudget(history, keep);
    ghost var budgeted := keep;
    var i := |history|;
    assert history[..i] == history;
    while i > 0
      invariant 0 <= i <= |history|
      invariant Sources(history, budgeted) == Sources(history[..i], keep)
    {
      SourcesNext(history, i, keep);
      i := i - 1;
      if history[i].number in keep && history[i].restoredFrom != 0 {
        keep := keep + {history[i].restoredFrom};
      }
    }
    kept := keep;
    expired := [];
    for k := 0 to |history|
      invariant expired == Dropped(history[..k], keep)
    {
      DroppedNext(history, k, keep);
      if history[k].number !in keep {
        expired := expired + [history[k]];
      }
    }
    assert history[..|history|] == history;
  }
}
