/** The hunks of a rendered diff, and what applying them yields
    (internal/unidiff/unidiff.go, render and emitHunk; headers as in POSIX
    diff, "Diff -u or -U Output Format"). */
module Hunks {
  import opened Unidiff

  /** A line of a hunk. `marked` is the "\ No newline at end of file" after
      it. */
  datatype HunkLine = HunkLine(kind: Kind, line: string, marked: bool)

  datatype Hunk = Hunk(aStart: nat, aCount: nat, bStart: nat, bCount: nat, lines: seq<HunkLine>)

  /** How many of the first k ops are lines of a, and of b. */
  function ABefore(ops: seq<Op>, k: nat): nat
    requires k <= |ops|
  {
    if k == 0 then 0 else ABefore(ops, k - 1) + (if OnA(ops[k - 1]) then 1 else 0)
  }

  function BBefore(ops: seq<Op>, k: nat): nat
    requires k <= |ops|
  {
    if k == 0 then 0 else BBefore(ops, k - 1) + (if OnB(ops[k - 1]) then 1 else 0)
  }

  // ------------------------------------------------------------- clusters

  predicate Changed(op: Op) {
    !op.kind.Keep?
  }

  /** A range of ops: inclusive as a cluster, half-open as a hunk's range. */
  datatype Span = Span(lo: nat, hi: nat)

  ghost predicate Bounded(ops: seq<Op>, k: nat, clusters: seq<Span>) {
    && k <= |ops|
    && (forall i | 0 <= i < |clusters| ::
          clusters[i].lo <= clusters[i].hi < k && Changed(ops[clusters[i].lo]) && Changed(ops[clusters[i].hi]))
  }

  ghost predicate Apart(context: nat, clusters: seq<Span>) {
    forall i, j | 0 <= i < j < |clusters| :: clusters[j].lo > clusters[i].hi + 2 * context
  }

  ghost predicate InCluster(clusters: seq<Span>, i: nat) {
    exists c | 0 <= c < |clusters| :: clusters[c].lo <= i <= clusters[c].hi
  }

  ghost predicate CoverChanges(ops: seq<Op>, p: nat, k: nat, clusters: seq<Span>) {
    k <= |ops| && forall i | p <= i < k && Changed(ops[i]) :: InCluster(clusters, i)
  }

  /** The clusters that the first k ops form: inclusive ranges that begin and
      end with a change, cover every change, and are more than twice the
      context apart. */
  ghost predicate Clustered(ops: seq<Op>, k: nat, context: nat, clusters: seq<Span>) {
    Bounded(ops, k, clusters) && Apart(context, clusters) && CoverChanges(ops, 0, k, clusters)
  }

  /** Consecutive changes of a cluster are at most twice the context apart. */
  ghost predicate Close(ops: seq<Op>, context: nat, c: Span) {
    forall i, j | c.lo <= i < j <= c.hi && j < |ops| && Changed(ops[i]) && Changed(ops[j]) && Unchanged(ops, i + 1, j) ::
      j - i <= 2 * context
  }

  /** Each cluster is close, and no change follows the last one before op k. */
  ghost predicate Dense(ops: seq<Op>, k: nat, context: nat, clusters: seq<Span>) {
    && (forall c | 0 <= c < |clusters| :: Close(ops, context, clusters[c]))
    && (clusters != [] ==> Unchanged(ops, clusters[|clusters| - 1].hi + 1, k))
  }

  lemma ExtendClose(ops: seq<Op>, i: nat, context: nat, c: Span)
    requires Close(ops, context, c) && c.lo <= c.hi < i < |ops| && Changed(ops[c.hi]) && Changed(ops[i])
    requires Unchanged(ops, c.hi + 1, i) && i - c.hi <= 2 * context
    ensures Close(ops, context, Span(c.lo, i))
  {
    forall p, q | c.lo <= p < q <= i && Changed(ops[p]) && Changed(ops[q]) && Unchanged(ops, p + 1, q)
      ensures q - p <= 2 * context
    {
      assert Changed(ops[c.hi]) && Changed(ops[q]);
    }
  }

  lemma ExtendDense(ops: seq<Op>, i: nat, context: nat, clusters: seq<Span>)
    requires i < |ops| && Bounded(ops, i, clusters) && Dense(ops, i, context, clusters) && Changed(ops[i]) && clusters != []
    requires i - clusters[|clusters| - 1].hi <= 2 * context
    ensures Dense(ops, i + 1, context, clusters[|clusters| - 1 := Span(clusters[|clusters| - 1].lo, i)])
  {
    ExtendClose(ops, i, context, clusters[|clusters| - 1]);
  }

  lemma AddDense(ops: seq<Op>, i: nat, context: nat, clusters: seq<Span>)
    requires i < |ops| && Dense(ops, i, context, clusters)
    ensures Dense(ops, i + 1, context, clusters + [Span(i, i)])
  {
    assert Close(ops, context, Span(i, i));
  }

  /** Clustered and Dense, as the loop passes them on: the one-point
      quantifier keeps their clauses out of its proof. */
  ghost predicate Gathered(ops: seq<Op>, k: nat, context: nat, clusters: seq<Span>) {
    forall x | x == clusters :: Clustered(ops, k, context, x) && Dense(ops, k, context, x)
  }

  lemma KeepClustered(ops: seq<Op>, i: nat, context: nat, clusters: seq<Span>)
    requires i < |ops| && Clustered(ops, i, context, clusters) && !Changed(ops[i])
    ensures Clustered(ops, i + 1, context, clusters)
  {
  }

  lemma KeepDense(ops: seq<Op>, i: nat, context: nat, clusters: seq<Span>)
    requires i < |ops| && Dense(ops, i, context, clusters) && !Changed(ops[i])
    ensures Dense(ops, i + 1, context, clusters)
  {
  }

  lemma GatherKeep(ops: seq<Op>, i: nat, context: nat, clusters: seq<Span>)
    requires i < |ops| && Gathered(ops, i, context, clusters) && !Changed(ops[i])
    ensures Gathered(ops, i + 1, context, clusters)
  {
    assert Clustered(ops, i, context, clusters);
    KeepClustered(ops, i, context, clusters);
    KeepDense(ops, i, context, clusters);
  }

  lemma GatherExtend(ops: seq<Op>, i: nat, context: nat, clusters: seq<Span>)
    requires i < |ops| && Gathered(ops, i, context, clusters) && Changed(ops[i]) && clusters != []
    requires i - clusters[|clusters| - 1].hi <= 2 * context
    ensures Gathered(ops, i + 1, context, clusters[|clusters| - 1 := Span(clusters[|clusters| - 1].lo, i)])
  {
    assert Clustered(ops, i, context, clusters);
    ExtendLast(ops, i, context, clusters);
    ExtendDense(ops, i, context, clusters);
  }

  lemma GatherNew(ops: seq<Op>, i: nat, context: nat, clusters: seq<Span>)
    requires i < |ops| && Gathered(ops, i, context, clusters) && Changed(ops[i])
    requires clusters != [] ==> i - clusters[|clusters| - 1].hi > 2 * context
    ensures Gathered(ops, i + 1, context, clusters + [Span(i, i)])
  {
    assert Clustered(ops, i, context, clusters);
    AddCluster(ops, i, context, clusters);
    AddDense(ops, i, context, clusters);
  }

  method FindClusters(ops: seq<Op>, context: nat) returns (clusters: seq<Span>)
    ensures Clustered(ops, |ops|, context, clusters) && Dense(ops, |ops|, context, clusters)
  {
    clusters := [];
    for i := 0 to |ops|
      invariant Gathered(ops, i, context, clusters)
    {
      if ops[i].kind.Keep? {
        GatherKeep(ops, i, context, clusters);
        continue;
      }
      var n := |clusters|;
      if n > 0 && i - clusters[n - 1].hi <= 2 * context {
        GatherExtend(ops, i, context, clusters);
        clusters := clusters[n - 1 := Span(clusters[n - 1].lo, i)];
      } else {
        GatherNew(ops, i, context, clusters);
        clusters := clusters + [Span(i, i)];
      }
    }
  }

  /** Clusters that only grow cover what they covered. */
  lemma StillCovered(ops: seq<Op>, i: nat, clusters: seq<Span>, longer: seq<Span>)
    requires CoverChanges(ops, 0, i, clusters) && |clusters| <= |longer| && i < |ops|
    requires forall c | 0 <= c < |clusters| :: longer[c].lo <= clusters[c].lo && clusters[c].hi <= longer[c].hi
    requires InCluster(longer, i)
    ensures CoverChanges(ops, 0, i + 1, longer)
  {
    forall k | 0 <= k < i && Changed(ops[k])
      ensures InCluster(longer, k)
    {
      assert InCluster(clusters, k);
      var c :| 0 <= c < |clusters| && clusters[c].lo <= k <= clusters[c].hi;
      assert longer[c].lo <= k <= longer[c].hi;
    }
  }

  lemma ExtendLast(ops: seq<Op>, i: nat, context: nat, clusters: seq<Span>)
    requires i < |ops| && Clustered(ops, i, context, clusters) && Changed(ops[i]) && clusters != []
    ensures Clustered(ops, i + 1, context, clusters[|clusters| - 1 := Span(clusters[|clusters| - 1].lo, i)])
  {
    var n := |clusters| - 1;
    var longer := clusters[n := Span(clusters[n].lo, i)];
    assert longer[n].lo <= i <= longer[n].hi;
    assert clusters[n].hi < i;
    ExtendBounded(ops, i, clusters);
    StillCovered(ops, i, clusters, longer);
    ExtendApart(context, clusters, i);
  }

  lemma ExtendBounded(ops: seq<Op>, i: nat, clusters: seq<Span>)
    requires i < |ops| && Bounded(ops, i, clusters) && Changed(ops[i]) && clusters != []
    ensures Bounded(ops, i + 1, clusters[|clusters| - 1 := Span(clusters[|clusters| - 1].lo, i)])
  {
  }

  lemma ExtendApart(context: nat, clusters: seq<Span>, i: nat)
    requires Apart(context, clusters) && clusters != []
    ensures Apart(context, clusters[|clusters| - 1 := Span(clusters[|clusters| - 1].lo, i)])
  {
    var n := |clusters| - 1;
    var longer := clusters[n := Span(clusters[n].lo, i)];
    forall j, k | 0 <= j < k < |longer|
      ensures longer[k].lo > longer[j].hi + 2 * context
    {
      assert longer[k].lo == clusters[k].lo && longer[j].hi == clusters[j].hi;
    }
  }

  lemma AddCluster(ops: seq<Op>, i: nat, context: nat, clusters: seq<Span>)
    requires i < |ops| && Clustered(ops, i, context, clusters) && Changed(ops[i])
    requires clusters != [] ==> i - clusters[|clusters| - 1].hi > 2 * context
    ensures Clustered(ops, i + 1, context, clusters + [Span(i, i)])
  {
    var longer := clusters + [Span(i, i)];
    assert longer[|clusters|].lo <= i <= longer[|clusters|].hi;
    StillCovered(ops, i, clusters, longer);
    AddApart(context, clusters, i);
  }

  lemma AddApart(context: nat, clusters: seq<Span>, i: nat)
    requires Apart(context, clusters) && forall c | 0 <= c < |clusters| :: clusters[c].lo <= clusters[c].hi
    requires clusters != [] ==> i - clusters[|clusters| - 1].hi > 2 * context
    ensures Apart(context, clusters + [Span(i, i)])
  {
    var n := |clusters|;
    forall j | 0 <= j < n
      ensures i > clusters[j].hi + 2 * context
    {
      assert j < n - 1 ==> clusters[n - 1].lo > clusters[j].hi + 2 * context;
    }
  }

  // ---------------------------------------------------------------- hunks

  /** startLine: 1-based, or the line before an empty region. */
  function StartLine(before: nat, count: nat): nat {
    if count == 0 then before else before + 1
  }

  /** The two files' sizes and final-newline states. */
  datatype Totals = Totals(aTotal: nat, aNewline: bool, bTotal: nat, bNewline: bool)

  function Marked(ops: seq<Op>, k: nat, t: Totals): bool
    requires k < |ops|
  {
    match ops[k].kind
    case Keep => false
    case Delete => ABefore(ops, k + 1) == t.aTotal && !t.aNewline
    case Insert => BBefore(ops, k + 1) == t.bTotal && !t.bNewline
  }

  function HunkLines(ops: seq<Op>, lo: nat, hi: nat, t: Totals): seq<HunkLine>
    requires lo <= hi <= |ops|
    decreases hi - lo
  {
    if lo == hi then []
    else [HunkLine(ops[lo].kind, ops[lo].line, Marked(ops, lo, t))] + HunkLines(ops, lo + 1, hi, t)
  }

  function HunkOf(ops: seq<Op>, lo: nat, hi: nat, t: Totals): (h: Hunk)
    requires lo <= hi <= |ops|
  {
    CountsGrow(ops, lo, hi);
    var aCount, bCount := ABefore(ops, hi) - ABefore(ops, lo), BBefore(ops, hi) - BBefore(ops, lo);
    Hunk(StartLine(ABefore(ops, lo), aCount), aCount, StartLine(BBefore(ops, lo), bCount), bCount, HunkLines(ops, lo, hi, t))
  }

  lemma {:induction false} CountsGrow(ops: seq<Op>, lo: nat, hi: nat)
    requires lo <= hi <= |ops|
    ensures ABefore(ops, lo) <= ABefore(ops, hi) && BBefore(ops, lo) <= BBefore(ops, hi)
    decreases hi - lo
  {
    if lo < hi {
      CountsGrow(ops, lo, hi - 1);
    }
  }

  /** A cluster with its context. */
  function Range(ops: seq<Op>, context: nat, c: Span): (r: Span) {
    Span(if c.lo > context then c.lo - context else 0, if c.hi + 1 + context < |ops| then c.hi + 1 + context else |ops|)
  }

  /** Ascending, disjoint ranges that cover every change from op p on. */
  ghost predicate Covers(ops: seq<Op>, p: nat, ranges: seq<Span>)
    decreases |ranges|
  {
    if ranges == [] then p <= |ops| && Unchanged(ops, p, |ops|)
    else
      && p <= ranges[0].lo <= ranges[0].hi <= |ops|
      && Unchanged(ops, p, ranges[0].lo)
      && Covers(ops, ranges[0].hi, ranges[1..])
  }

  ghost predicate Unchanged(ops: seq<Op>, p: nat, q: nat) {
    q <= |ops| && forall i | p <= i < q :: !Changed(ops[i])
  }

  function Ranges(ops: seq<Op>, context: nat, clusters: seq<Span>): seq<Span> {
    if clusters == [] then [] else [Range(ops, context, clusters[0])] + Ranges(ops, context, clusters[1..])
  }

  /** The ranges of the clusters from op p on. */
  ghost predicate ClustersFrom(ops: seq<Op>, p: nat, context: nat, clusters: seq<Span>) {
    && p <= |ops|
    && (forall i | 0 <= i < |clusters| :: clusters[i].lo <= clusters[i].hi < |ops| && p <= Range(ops, context, clusters[i]).lo)
    && Apart(context, clusters) && CoverChanges(ops, p, |ops|, clusters)
  }

  lemma NotBefore(ops: seq<Op>, p: nat, context: nat, clusters: seq<Span>)
    requires ClustersFrom(ops, p, context, clusters) && clusters != []
    ensures Unchanged(ops, p, Range(ops, context, clusters[0]).lo)
  {
    var lo := Range(ops, context, clusters[0]).lo;
    forall i | p <= i < lo
      ensures !Changed(ops[i])
    {
      assert Changed(ops[i]) ==> InCluster(clusters, i);
      if c :| 0 <= c < |clusters| && clusters[c].lo <= i <= clusters[c].hi {
        FirstIsFirst(context, clusters, c);
      }
    }
  }

  lemma FirstIsFirst(context: nat, clusters: seq<Span>, c: nat)
    requires Apart(context, clusters) && c < |clusters| && clusters[0].lo <= clusters[0].hi
    ensures clusters[0].lo <= clusters[c].lo
  {
  }

  lemma RestOfClusters(ops: seq<Op>, p: nat, context: nat, clusters: seq<Span>)
    requires ClustersFrom(ops, p, context, clusters) && clusters != []
    ensures ClustersFrom(ops, Range(ops, context, clusters[0]).hi, context, clusters[1..])
  {
    var rest, hi := clusters[1..], Range(ops, context, clusters[0]).hi;
    forall i | 0 <= i < |rest|
      ensures rest[i].lo <= rest[i].hi < |ops| && hi <= Range(ops, context, rest[i]).lo
    {
      assert rest[i] == clusters[i + 1] && clusters[i + 1].lo > clusters[0].hi + 2 * context;
    }
    forall i | hi <= i < |ops| && Changed(ops[i])
      ensures InCluster(rest, i)
    {
      assert InCluster(clusters, i);
      var c :| 0 <= c < |clusters| && clusters[c].lo <= i <= clusters[c].hi;
      assert rest[c - 1] == clusters[c];
    }
    assert forall i, j | 0 <= i < j < |rest| :: rest[i] == clusters[i + 1] && rest[j] == clusters[j + 1];
  }

  lemma {:induction false} ClustersCover(ops: seq<Op>, p: nat, context: nat, clusters: seq<Span>)
    requires ClustersFrom(ops, p, context, clusters)
    ensures Covers(ops, p, Ranges(ops, context, clusters))
    decreases |clusters|
  {
    if clusters != [] {
      NotBefore(ops, p, context, clusters);
      RestOfClusters(ops, p, context, clusters);
      ClustersCover(ops, Range(ops, context, clusters[0]).hi, context, clusters[1..]);
    } else {
      assert forall i: nat :: !InCluster(clusters, i);
    }
  }

  // --------------------------------------------------------------- render

  function AllHunks(ops: seq<Op>, ranges: seq<Span>, t: Totals): seq<Hunk>
    requires InBounds(ops, ranges)
  {
    if ranges == [] then [] else [HunkOf(ops, ranges[0].lo, ranges[0].hi, t)] + AllHunks(ops, ranges[1..], t)
  }

  predicate InBounds(ops: seq<Op>, ranges: seq<Span>) {
    forall i | 0 <= i < |ranges| :: ranges[i].lo <= ranges[i].hi <= |ops|
  }

  lemma {:induction false} CoversBounds(ops: seq<Op>, p: nat, ranges: seq<Span>)
    requires Covers(ops, p, ranges)
    ensures InBounds(ops, ranges)
    decreases |ranges|
  {
    if ranges != [] {
      CoversBounds(ops, ranges[0].hi, ranges[1..]);
      assert forall i | 0 < i < |ranges| :: ranges[i] == ranges[1..][i - 1];
    }
  }

  /** emitHunk. */
  method EmitHunk(ops: seq<Op>, aBefore: seq<nat>, bBefore: seq<nat>, lo: nat, hi: nat, t: Totals) returns (h: Hunk)
    requires lo <= hi <= |ops| && |aBefore| == |bBefore| == |ops| + 1
    requires forall k | 0 <= k <= |ops| :: aBefore[k] == ABefore(ops, k) && bBefore[k] == BBefore(ops, k)
    ensures h == HunkOf(ops, lo, hi, t)
  {
    var aCount, bCount := 0, 0;
    CountsGrow(ops, lo, lo);
    for i := lo to hi
      invariant aCount == ABefore(ops, i) - ABefore(ops, lo) && bCount == BBefore(ops, i) - BBefore(ops, lo)
    {
      match ops[i].kind {
        case Keep => aCount, bCount := aCount + 1, bCount + 1;
        case Delete => aCount := aCount + 1;
        case Insert => bCount := bCount + 1;
      }
    }
    CountsGrow(ops, lo, hi);
    var lines: seq<HunkLine> := [];
    for i := lo to hi
      invariant HunkLines(ops, lo, hi, t) == lines + HunkLines(ops, i, hi, t)
    {
      var marked := false;
      match ops[i].kind {
        case Keep =>
        case Delete => marked := aBefore[i + 1] == t.aTotal && !t.aNewline;
        case Insert => marked := bBefore[i + 1] == t.bTotal && !t.bNewline;
      }
      lines := lines + [HunkLine(ops[i].kind, ops[i].line, marked)];
    }
    assert lines + [] == lines;
    h := Hunk(StartLine(aBefore[lo], aCount), aCount, StartLine(bBefore[lo], bCount), bCount, lines);
  }

  /** The prefix sums of render. */
  method PrefixSums(ops: seq<Op>) returns (aBefore: seq<nat>, bBefore: seq<nat>)
    ensures |aBefore| == |bBefore| == |ops| + 1
    ensures forall k | 0 <= k <= |ops| :: aBefore[k] == ABefore(ops, k) && bBefore[k] == BBefore(ops, k)
  {
    aBefore, bBefore := [0], [0];
    for i := 0 to |ops|
      invariant |aBefore| == |bBefore| == i + 1
      invariant forall k | 0 <= k <= i :: aBefore[k] == ABefore(ops, k) && bBefore[k] == BBefore(ops, k)
    {
      var a, b := aBefore[i], bBefore[i];
      match ops[i].kind {
        case Keep => a, b := a + 1, b + 1;
        case Delete => a := a + 1;
        case Insert => b := b + 1;
      }
      aBefore, bBefore := aBefore + [a], bBefore + [b];
    }
  }

  /** render: the hunks of the clusters, extended by their context. */
  method Render(ops: seq<Op>, context: nat, t: Totals) returns (hunks: seq<Hunk>, ghost clusters: seq<Span>)
    ensures Clustered(ops, |ops|, context, clusters) && Dense(ops, |ops|, context, clusters)
    ensures var ranges := Ranges(ops, context, clusters);
            Covers(ops, 0, ranges) && InBounds(ops, ranges) && hunks == AllHunks(ops, ranges, t)
  {
    var aBefore, bBefore := PrefixSums(ops);
    var found := FindClusters(ops, context);
    clusters := found;
    ClustersCover(ops, 0, context, found);
    ghost var ranges := Ranges(ops, context, found);
    CoversBounds(ops, 0, ranges);
    hunks := EmitHunks(ops, context, found, aBefore, bBefore, t, ranges);
  }

  method EmitHunks(ops: seq<Op>, context: nat, clusters: seq<Span>, aBefore: seq<nat>, bBefore: seq<nat>, t: Totals, ghost ranges: seq<Span>)
    returns (hunks: seq<Hunk>)
    requires ranges == Ranges(ops, context, clusters) && InBounds(ops, ranges)
    requires |aBefore| == |bBefore| == |ops| + 1
    requires forall k | 0 <= k <= |ops| :: aBefore[k] == ABefore(ops, k) && bBefore[k] == BBefore(ops, k)
    ensures hunks == AllHunks(ops, ranges, t)
  {
    hunks := [];
    RangesAt(ops, context, clusters);
    assert ranges[0..] == ranges;
    for i := 0 to |clusters|
      invariant AllHunks(ops, ranges, t) == hunks + AllHunks(ops, ranges[i..], t)
    {
      assert ranges[i..][1..] == ranges[i + 1..];
      var r := Range(ops, context, clusters[i]);
      var h := EmitHunk(ops, aBefore, bBefore, r.lo, r.hi, t);
      assert AllHunks(ops, ranges[i..], t) == [h] + AllHunks(ops, ranges[i + 1..], t);
      hunks := hunks + [h];
    }
    assert ranges[|clusters|..] == [] && hunks + [] == hunks;
  }

  lemma {:induction false} RangesAt(ops: seq<Op>, context: nat, clusters: seq<Span>)
    ensures |Ranges(ops, context, clusters)| == |clusters|
    ensures forall i | 0 <= i < |clusters| :: Ranges(ops, context, clusters)[i] == Range(ops, context, clusters[i])
  {
    if clusters != [] {
      RangesAt(ops, context, clusters[1..]);
    }
  }
}
