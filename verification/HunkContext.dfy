/** How much of the two files a diff shows: each change with its context, and
    nothing else (internal/unidiff/unidiff.go, render). */
module HunkContext {
  import opened Unidiff
  import opened Hunks

  /** From its first change to its last, a range shows `context` kept ops on
      either side, or all there are up to the file's end; and no two changes
      of it that follow each other are more than twice the context apart. */
  ghost predicate ShowsAround(ops: seq<Op>, context: nat, r: Span, first: nat, last: nat) {
    && r.lo <= first <= last < r.hi <= |ops|
    && Changed(ops[first]) && Unchanged(ops, r.lo, first)
    && Changed(ops[last]) && Unchanged(ops, last + 1, r.hi)
    && (first - r.lo == context || (first - r.lo < context && r.lo == 0))
    && (r.hi - 1 - last == context || (r.hi - 1 - last < context && r.hi == |ops|))
    && Close(ops, context, Span(first, last))
  }

  ghost predicate ShowsChanges(ops: seq<Op>, context: nat, r: Span) {
    exists first, last :: ShowsAround(ops, context, r, first, last)
  }

  /** Changes that two ranges show are more than twice the context apart. */
  ghost predicate FarApart(ops: seq<Op>, context: nat, r: Span, s: Span) {
    forall i, j | r.lo <= i < r.hi <= |ops| && s.lo <= j < s.hi <= |ops| && Changed(ops[i]) && Changed(ops[j]) :: j - i > 2 * context
  }

  /** The ranges of a diff with `context` lines of context: every change is in
      one, and changes share a range exactly when they are close. */
  ghost predicate Shaped(ops: seq<Op>, context: nat, ranges: seq<Span>) {
    && InBounds(ops, ranges) && Covers(ops, 0, ranges)
    && (forall k | 0 <= k < |ranges| :: ShowsChanges(ops, context, ranges[k]))
    && (forall k, m | 0 <= k < m < |ranges| :: FarApart(ops, context, ranges[k], ranges[m]))
  }

  lemma InOrder(context: nat, clusters: seq<Span>, c: nat, d: nat)
    requires Apart(context, clusters) && c < |clusters| && d < |clusters|
    ensures c < d ==> clusters[d].lo > clusters[c].hi + 2 * context
    ensures d < c ==> clusters[c].lo > clusters[d].hi + 2 * context
  {
  }

  /** A change in the range of a cluster is in the cluster. */
  lemma InItsCluster(ops: seq<Op>, context: nat, clusters: seq<Span>, c: nat, i: nat)
    requires Clustered(ops, |ops|, context, clusters) && c < |clusters| && i < |ops| && Changed(ops[i])
    requires Range(ops, context, clusters[c]).lo <= i < Range(ops, context, clusters[c]).hi
    ensures clusters[c].lo <= i <= clusters[c].hi
  {
    assert InCluster(clusters, i);
    var d :| 0 <= d < |clusters| && clusters[d].lo <= i <= clusters[d].hi;
    InOrder(context, clusters, c, d);
  }

  lemma OnlyItsChanges(ops: seq<Op>, context: nat, clusters: seq<Span>, c: nat)
    requires Clustered(ops, |ops|, context, clusters) && c < |clusters|
    ensures var r := Range(ops, context, clusters[c]);
            Unchanged(ops, r.lo, clusters[c].lo) && Unchanged(ops, clusters[c].hi + 1, r.hi)
  {
    var r := Range(ops, context, clusters[c]);
    forall i: nat | r.lo <= i < r.hi && Changed(ops[i])
      ensures clusters[c].lo <= i <= clusters[c].hi
    {
      InItsCluster(ops, context, clusters, c, i);
    }
  }

  lemma RangeShows(ops: seq<Op>, context: nat, c: Span, r: Span)
    requires r == Range(ops, context, c) && c.lo <= c.hi < |ops| && Changed(ops[c.lo]) && Changed(ops[c.hi])
    requires Unchanged(ops, r.lo, c.lo) && Unchanged(ops, c.hi + 1, r.hi) && Close(ops, context, c)
    ensures ShowsChanges(ops, context, r)
  {
    assert ShowsAround(ops, context, r, c.lo, c.hi);
  }

  lemma ClustersApart(ops: seq<Op>, context: nat, clusters: seq<Span>, c: nat, d: nat)
    requires Clustered(ops, |ops|, context, clusters) && c < d < |clusters|
    ensures FarApart(ops, context, Range(ops, context, clusters[c]), Range(ops, context, clusters[d]))
  {
    var r, s := Range(ops, context, clusters[c]), Range(ops, context, clusters[d]);
    assert clusters[d].lo > clusters[c].hi + 2 * context;
    forall i: nat, j: nat | r.lo <= i < r.hi && s.lo <= j < s.hi && Changed(ops[i]) && Changed(ops[j])
      ensures j - i > 2 * context
    {
      InItsCluster(ops, context, clusters, c, i);
      InItsCluster(ops, context, clusters, d, j);
    }
  }

  lemma AllShow(ops: seq<Op>, context: nat, clusters: seq<Span>, ranges: seq<Span>)
    requires Clustered(ops, |ops|, context, clusters) && Dense(ops, |ops|, context, clusters)
    requires |ranges| == |clusters| && forall k | 0 <= k < |clusters| :: ranges[k] == Range(ops, context, clusters[k])
    ensures forall k | 0 <= k < |ranges| :: ShowsChanges(ops, context, ranges[k])
  {
    forall k | 0 <= k < |ranges|
      ensures ShowsChanges(ops, context, ranges[k])
    {
      OnlyItsChanges(ops, context, clusters, k);
      RangeShows(ops, context, clusters[k], ranges[k]);
    }
  }

  lemma AllApart(ops: seq<Op>, context: nat, clusters: seq<Span>, ranges: seq<Span>)
    requires Clustered(ops, |ops|, context, clusters)
    requires |ranges| == |clusters| && forall k | 0 <= k < |clusters| :: ranges[k] == Range(ops, context, clusters[k])
    ensures forall k, m | 0 <= k < m < |ranges| :: FarApart(ops, context, ranges[k], ranges[m])
  {
    forall k, m | 0 <= k < m < |ranges|
      ensures FarApart(ops, context, ranges[k], ranges[m])
    {
      ClustersApart(ops, context, clusters, k, m);
    }
  }

  /** What render shows. */
  lemma RenderShows(ops: seq<Op>, context: nat, clusters: seq<Span>)
    requires Clustered(ops, |ops|, context, clusters) && Dense(ops, |ops|, context, clusters)
    requires var ranges := Ranges(ops, context, clusters); Covers(ops, 0, ranges) && InBounds(ops, ranges)
    ensures Shaped(ops, context, Ranges(ops, context, clusters))
  {
    var ranges := Ranges(ops, context, clusters);
    RangesAt(ops, context, clusters);
    AllShow(ops, context, clusters, ranges);
    AllApart(ops, context, clusters, ranges);
  }
}
