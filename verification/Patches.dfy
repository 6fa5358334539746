/** Applying the hunks of a diff to its first file gives its second file. */
module Patches {
  import opened Wrappers
  import opened Unidiff
  import opened Hunks
  import HunkContext

  // ---------------------------------------------------------- applying

  function KeyOf(line: string, marked: bool): Key {
    if marked then line else line + "\n"
  }

  /** What lines of a hunk produce, and the line of the file after them. */
  datatype Produced = Produced(out: seq<Key>, end: nat)

  /** How a reader takes a context line at the end of a file: the format says
      that a line without the marker has its newline; a lenient reader leaves
      that to the file. */
  datatype Reader = Standard | Lenient

  predicate ContextMatches(r: Reader, key: Key, l: HunkLine) {
    match r
    case Standard => key == KeyOf(l.line, l.marked)
    case Lenient => Strip(key) == l.line
  }

  /** A hunk's lines against the file from line `pos` on. Context must match; a
      deleted line must be there, with the newline that it is shown with. */
  function ApplyLines(r: Reader, a: seq<Key>, pos: nat, lines: seq<HunkLine>): Option<Produced>
    decreases |lines|
  {
    if lines == [] then Some(Produced([], pos))
    else
      var l := lines[0];
      match l.kind
      case Keep =>
        if pos < |a| && ContextMatches(r, a[pos], l) then
          (match ApplyLines(r, a, pos + 1, lines[1..])
           case Some(p) => Some(Produced([a[pos]] + p.out, p.end))
           case None => None)
        else None
      case Delete => if pos < |a| && a[pos] == KeyOf(l.line, l.marked) then ApplyLines(r, a, pos + 1, lines[1..]) else None
      case Insert =>
        (match ApplyLines(r, a, pos, lines[1..])
         case Some(p) => Some(Produced([KeyOf(l.line, l.marked)] + p.out, p.end))
         case None => None)
  }

  /** The number of lines before a region, from its header. */
  function BeforeRegion(start: nat, count: nat): int {
    if count == 0 then start else start - 1
  }

  /** Applies hunks to the file from line `pos` on, when `done` lines of the
      result are there. Hunks must be ascending and disjoint, and both ranges
      of every header must be right. */
  function Apply(r: Reader, a: seq<Key>, pos: nat, done: nat, hunks: seq<Hunk>): Option<seq<Key>>
    decreases |hunks|
  {
    if hunks == [] then if pos <= |a| then Some(a[pos..]) else None
    else
      var h := hunks[0];
      var start := BeforeRegion(h.aStart, h.aCount);
      if !(pos <= start <= |a|) || BeforeRegion(h.bStart, h.bCount) != done + (start - pos) then None
      else
        match ApplyLines(r, a, start, h.lines)
        case None => None
        case Some(p) =>
          if p.end - start != h.aCount || |p.out| != h.bCount then None
          else
            match Apply(r, a, p.end, done + (start - pos) + |p.out|, hunks[1..])
            case None => None
            case Some(rest) => Some(a[pos..start] + p.out + rest)
  }

  // ------------------------------------------------------ scripts by index

  /** Each line's newline state: all have one, but for the last line of a file
      that ends without. */
  ghost predicate Ended(a: seq<Key>, newline: bool) {
    forall i | 0 <= i < |a| :: a[i] == KeyOf(Strip(a[i]), i == |a| - 1 && !newline)
  }

  lemma {:induction false} KeysAreEnded(lines: seq<string>, newline: bool)
    requires forall l | l in lines :: NoNewline(l)
    ensures Ended(Keys(lines, newline), newline) && |Keys(lines, newline)| == |lines|
  {
    if lines != [] {
      assert lines[0] in lines;
      if |lines| == 1 && !newline {
        assert Strip(lines[0]) == lines[0];
      } else {
        var key := lines[0] + "\n";
        assert key[..|key| - 1] == lines[0];
        KeysAreEnded(lines[1..], newline);
        var keys := Keys(lines, newline);
        forall i | 0 <= i < |keys|
          ensures keys[i] == KeyOf(Strip(keys[i]), i == |keys| - 1 && !newline)
        {
          if i > 0 {
            assert keys[i] == Keys(lines[1..], newline)[i - 1];
          }
        }
      }
    }
  }

  /** What an op does at line i of one file and line j of the other. */
  ghost predicate OpIs(a: seq<Key>, b: seq<Key>, op: Op, i: nat, j: nat) {
    match op.kind
    case Keep => i < |a| && j < |b| && a[i] == b[j] && op.line == Strip(a[i])
    case Delete => i < |a| && op.line == Strip(a[i])
    case Insert => j < |b| && op.line == Strip(b[j])
  }

  /** What op k does, at its place in the two files. */
  ghost predicate OpAt(a: seq<Key>, b: seq<Key>, ops: seq<Op>, k: nat)
    requires k < |ops|
  {
    OpIs(a, b, ops[k], ABefore(ops, k), BBefore(ops, k))
  }

  ghost predicate Indexed(a: seq<Key>, b: seq<Key>, ops: seq<Op>) {
    && ABefore(ops, |ops|) == |a| && BBefore(ops, |ops|) == |b|
    && forall k | 0 <= k < |ops| :: OpAt(a, b, ops, k)
  }

  lemma {:induction false} BeforeTail(ops: seq<Op>, k: nat)
    requires 0 < k <= |ops|
    ensures ABefore(ops, k) == ABefore(ops[1..], k - 1) + (if OnA(ops[0]) then 1 else 0)
    ensures BBefore(ops, k) == BBefore(ops[1..], k - 1) + (if OnB(ops[0]) then 1 else 0)
  {
    if k > 1 {
      BeforeTail(ops, k - 1);
      assert ops[1..][k - 2] == ops[k - 1];
    }
  }

  lemma EditsTail(a: seq<Key>, b: seq<Key>, i: nat, j: nat, ops: seq<Op>) returns (i': nat, j': nat)
    requires i <= |a| && j <= |b| && Edits(a, b, i, j, ops) && ops != []
    ensures i' == i + (if OnA(ops[0]) then 1 else 0) && j' == j + (if OnB(ops[0]) then 1 else 0)
    ensures i' <= |a| && j' <= |b| && Edits(a, b, i', j', ops[1..])
  {
    i', j' := i + (if OnA(ops[0]) then 1 else 0), j + (if OnB(ops[0]) then 1 else 0);
  }

  lemma {:induction false} EditsAt(a: seq<Key>, b: seq<Key>, i: nat, j: nat, ops: seq<Op>, k: nat)
    requires i <= |a| && j <= |b| && Edits(a, b, i, j, ops) && k <= |ops|
    ensures k == |ops| ==> i + ABefore(ops, k) == |a| && j + BBefore(ops, k) == |b|
    ensures k < |ops| ==> OpIs(a, b, ops[k], i + ABefore(ops, k), j + BBefore(ops, k))
    decreases |ops|
  {
    if k > 0 {
      BeforeTail(ops, k);
      var i', j' := EditsTail(a, b, i, j, ops);
      EditsAt(a, b, i', j', ops[1..], k - 1);
      assert i + ABefore(ops, k) == i' + ABefore(ops[1..], k - 1) && j + BBefore(ops, k) == j' + BBefore(ops[1..], k - 1);
      assert k < |ops| ==> ops[1..][k - 1] == ops[k];
    } else {
      EditsFirst(a, b, i, j, ops);
    }
  }

  lemma EditsFirst(a: seq<Key>, b: seq<Key>, i: nat, j: nat, ops: seq<Op>)
    requires i <= |a| && j <= |b| && Edits(a, b, i, j, ops)
    ensures if ops == [] then i == |a| && j == |b| else OpIs(a, b, ops[0], i, j)
  {
  }

  lemma EditsIndexed(a: seq<Key>, b: seq<Key>, ops: seq<Op>)
    requires Edits(a, b, 0, 0, ops)
    ensures Indexed(a, b, ops)
  {
    EditsAt(a, b, 0, 0, ops, |ops|);
    forall k | 0 <= k < |ops|
      ensures OpAt(a, b, ops, k)
    {
      EditsAt(a, b, 0, 0, ops, k);
    }
  }

  // ------------------------------------------------------------ one hunk

  /** The totals that render is given for two files. */
  ghost predicate TotalsOf(a: seq<Key>, b: seq<Key>, t: Totals) {
    t.aTotal == |a| && t.bTotal == |b| && Ended(a, t.aNewline) && Ended(b, t.bNewline)
  }

  /** A shown line, with its marker, is the file's own line. */
  lemma ShownKey(a: seq<Key>, b: seq<Key>, ops: seq<Op>, t: Totals, k: nat)
    requires Indexed(a, b, ops) && TotalsOf(a, b, t) && k < |ops|
    ensures ops[k].kind.Delete? ==> ABefore(ops, k) < |a| && a[ABefore(ops, k)] == KeyOf(ops[k].line, Marked(ops, k, t))
    ensures ops[k].kind.Insert? ==> BBefore(ops, k) < |b| && b[BBefore(ops, k)] == KeyOf(ops[k].line, Marked(ops, k, t))
  {
    assert OpAt(a, b, ops, k);
  }

  /** A kept line without a newline: the last line of both files. Its context
      line carries no marker. */
  ghost predicate OpenKeep(a: seq<Key>, ops: seq<Op>, k: nat)
    requires k < |ops|
  {
    ops[k].kind.Keep? && ABefore(ops, k) < |a| && Strip(a[ABefore(ops, k)]) == a[ABefore(ops, k)]
  }

  /** What the reader makes of op k's line is the file's line. */
  ghost predicate Read(r: Reader, a: seq<Key>, ops: seq<Op>, k: nat)
    requires k < |ops|
  {
    r.Lenient? || !OpenKeep(a, ops, k)
  }

  lemma KeptKey(a: seq<Key>, b: seq<Key>, ops: seq<Op>, t: Totals, r: Reader, k: nat)
    requires Indexed(a, b, ops) && TotalsOf(a, b, t) && k < |ops| && ops[k].kind.Keep?
    ensures var i := ABefore(ops, k);
            && i < |a| && BBefore(ops, k) < |b| && a[i] == b[BBefore(ops, k)]
            && (ContextMatches(r, a[i], HunkLine(Keep, ops[k].line, false)) <==> Read(r, a, ops, k))
  {
    assert OpAt(a, b, ops, k);
    var key := a[ABefore(ops, k)];
    assert key == KeyOf(Strip(key), Strip(key) == key) by { StripOrNewline(key); }
  }

  lemma StripOrNewline(key: Key)
    ensures key == Strip(key) || key == Strip(key) + "\n"
  {
  }

  lemma SliceCons(b: seq<Key>, j: nat, z: nat)
    requires j < z <= |b|
    ensures b[j..z] == [b[j]] + b[j + 1..z]
  {
  }

  // One more line in front of lines that apply, by its kind.

  lemma KeepFirst(r: Reader, a: seq<Key>, pos: nat, l: HunkLine, rest: seq<HunkLine>, p: Produced)
    requires l.kind.Keep? && pos < |a| && ContextMatches(r, a[pos], l) && ApplyLines(r, a, pos + 1, rest) == Some(p)
    ensures ApplyLines(r, a, pos, [l] + rest) == Some(Produced([a[pos]] + p.out, p.end))
  {
    assert ([l] + rest)[1..] == rest;
  }

  lemma DeleteFirst(r: Reader, a: seq<Key>, pos: nat, l: HunkLine, rest: seq<HunkLine>, p: Produced)
    requires l.kind.Delete? && pos < |a| && a[pos] == KeyOf(l.line, l.marked) && ApplyLines(r, a, pos + 1, rest) == Some(p)
    ensures ApplyLines(r, a, pos, [l] + rest) == Some(p)
  {
    assert ([l] + rest)[1..] == rest;
  }

  lemma InsertFirst(r: Reader, a: seq<Key>, pos: nat, l: HunkLine, rest: seq<HunkLine>, p: Produced)
    requires l.kind.Insert? && ApplyLines(r, a, pos, rest) == Some(p)
    ensures ApplyLines(r, a, pos, [l] + rest) == Some(Produced([KeyOf(l.line, l.marked)] + p.out, p.end))
  {
    assert ([l] + rest)[1..] == rest;
  }

  lemma NextBefore(ops: seq<Op>, k: nat)
    requires k < |ops|
    ensures ABefore(ops, k + 1) == ABefore(ops, k) + (if OnA(ops[k]) then 1 else 0)
    ensures BBefore(ops, k + 1) == BBefore(ops, k) + (if OnB(ops[k]) then 1 else 0)
  {
  }

  // The line of op k, in front of lines that produce what follows it.

  lemma KeepLineApplies(r: Reader, a: seq<Key>, b: seq<Key>, ops: seq<Op>, t: Totals, k: nat, rest: seq<HunkLine>, z: nat, end: nat)
    requires Indexed(a, b, ops) && TotalsOf(a, b, t) && k < |ops| && BBefore(ops, k + 1) <= z <= |b| && ops[k].kind.Keep? && Read(r, a, ops, k)
    requires ApplyLines(r, a, ABefore(ops, k + 1), rest) == Some(Produced(b[BBefore(ops, k + 1)..z], end))
    ensures BBefore(ops, k) <= z
    ensures ApplyLines(r, a, ABefore(ops, k), [HunkLine(ops[k].kind, ops[k].line, Marked(ops, k, t))] + rest)
         == Some(Produced(b[BBefore(ops, k)..z], end))
  {
    NextBefore(ops, k);
    var l := HunkLine(ops[k].kind, ops[k].line, Marked(ops, k, t));
    var p := Produced(b[BBefore(ops, k + 1)..z], end);
    KeptKey(a, b, ops, t, r, k);
    KeepFirst(r, a, ABefore(ops, k), l, rest, p);
    SliceCons(b, BBefore(ops, k), z);
  }

  lemma DeleteLineApplies(r: Reader, a: seq<Key>, b: seq<Key>, ops: seq<Op>, t: Totals, k: nat, rest: seq<HunkLine>, z: nat, end: nat)
    requires Indexed(a, b, ops) && TotalsOf(a, b, t) && k < |ops| && BBefore(ops, k + 1) <= z <= |b| && ops[k].kind.Delete?
    requires ApplyLines(r, a, ABefore(ops, k + 1), rest) == Some(Produced(b[BBefore(ops, k + 1)..z], end))
    ensures BBefore(ops, k) <= z
    ensures ApplyLines(r, a, ABefore(ops, k), [HunkLine(ops[k].kind, ops[k].line, Marked(ops, k, t))] + rest)
         == Some(Produced(b[BBefore(ops, k)..z], end))
  {
    NextBefore(ops, k);
    var l := HunkLine(ops[k].kind, ops[k].line, Marked(ops, k, t));
    var p := Produced(b[BBefore(ops, k + 1)..z], end);
    ShownKey(a, b, ops, t, k);
    DeleteFirst(r, a, ABefore(ops, k), l, rest, p);
  }

  lemma InsertLineApplies(r: Reader, a: seq<Key>, b: seq<Key>, ops: seq<Op>, t: Totals, k: nat, rest: seq<HunkLine>, z: nat, end: nat)
    requires Indexed(a, b, ops) && TotalsOf(a, b, t) && k < |ops| && BBefore(ops, k + 1) <= z <= |b| && ops[k].kind.Insert?
    requires ApplyLines(r, a, ABefore(ops, k + 1), rest) == Some(Produced(b[BBefore(ops, k + 1)..z], end))
    ensures BBefore(ops, k) <= z
    ensures ApplyLines(r, a, ABefore(ops, k), [HunkLine(ops[k].kind, ops[k].line, Marked(ops, k, t))] + rest)
         == Some(Produced(b[BBefore(ops, k)..z], end))
  {
    NextBefore(ops, k);
    var l := HunkLine(ops[k].kind, ops[k].line, Marked(ops, k, t));
    var p := Produced(b[BBefore(ops, k + 1)..z], end);
    ShownKey(a, b, ops, t, k);
    InsertFirst(r, a, ABefore(ops, k), l, rest, p);
    SliceCons(b, BBefore(ops, k), z);
  }

  lemma LineApplies(r: Reader, a: seq<Key>, b: seq<Key>, ops: seq<Op>, t: Totals, k: nat, hi: nat, z: nat, end: nat)
    requires Indexed(a, b, ops) && TotalsOf(a, b, t) && k < hi <= |ops| && BBefore(ops, k + 1) <= z <= |b| && Read(r, a, ops, k)
    requires ApplyLines(r, a, ABefore(ops, k + 1), HunkLines(ops, k + 1, hi, t)) == Some(Produced(b[BBefore(ops, k + 1)..z], end))
    ensures BBefore(ops, k) <= z
    ensures ApplyLines(r, a, ABefore(ops, k), HunkLines(ops, k, hi, t)) == Some(Produced(b[BBefore(ops, k)..z], end))
  {
    var rest := HunkLines(ops, k + 1, hi, t);
    LinesFrom(ops, k, hi, t);
    match ops[k].kind {
      case Keep => KeepLineApplies(r, a, b, ops, t, k, rest, z, end);
      case Delete => DeleteLineApplies(r, a, b, ops, t, k, rest, z, end);
      case Insert => InsertLineApplies(r, a, b, ops, t, k, rest, z, end);
    }
  }

  lemma LinesFrom(ops: seq<Op>, k: nat, hi: nat, t: Totals)
    requires k < hi <= |ops|
    ensures HunkLines(ops, k, hi, t) == [HunkLine(ops[k].kind, ops[k].line, Marked(ops, k, t))] + HunkLines(ops, k + 1, hi, t)
  {
  }

  lemma NoLines(r: Reader, a: seq<Key>, b: seq<Key>, ops: seq<Op>, t: Totals, k: nat)
    requires k <= |ops| && BBefore(ops, k) <= |b|
    ensures ApplyLines(r, a, ABefore(ops, k), HunkLines(ops, k, k, t)) == Some(Produced(b[BBefore(ops, k)..BBefore(ops, k)], ABefore(ops, k)))
  {
    assert b[BBefore(ops, k)..BBefore(ops, k)] == [];
  }

  lemma {:induction false} HunkApplies(r: Reader, a: seq<Key>, b: seq<Key>, ops: seq<Op>, t: Totals, lo: nat, hi: nat)
    requires Indexed(a, b, ops) && TotalsOf(a, b, t) && lo <= hi <= |ops|
    requires forall k | lo <= k < hi :: Read(r, a, ops, k)
    ensures ABefore(ops, hi) <= |a| && BBefore(ops, lo) <= BBefore(ops, hi) <= |b|
    ensures ApplyLines(r, a, ABefore(ops, lo), HunkLines(ops, lo, hi, t))
            == Some(Produced(b[BBefore(ops, lo)..BBefore(ops, hi)], ABefore(ops, hi)))
    decreases hi - lo
  {
    CountsGrow(ops, lo, hi);
    CountsGrow(ops, hi, |ops|);
    if lo < hi {
      HunkApplies(r, a, b, ops, t, lo + 1, hi);
      CountsGrow(ops, lo + 1, hi);
      LineApplies(r, a, b, ops, t, lo, hi, BBefore(ops, hi), ABefore(ops, hi));
    } else {
      NoLines(r, a, b, ops, t, hi);
    }
  }

  /** The standard reader refuses a hunk that shows an open end as context. */
  lemma {:induction false} HunkRefused(a: seq<Key>, b: seq<Key>, ops: seq<Op>, t: Totals, lo: nat, hi: nat, k: nat)
    requires Indexed(a, b, ops) && TotalsOf(a, b, t) && lo <= k < hi <= |ops| && OpenKeep(a, ops, k)
    ensures ApplyLines(Standard, a, ABefore(ops, lo), HunkLines(ops, lo, hi, t)) == None
    decreases hi - lo
  {
    if lo == k {
      OpenEndRefused(a, b, ops, t, lo, hi);
    } else {
      HunkRefused(a, b, ops, t, lo + 1, hi, k);
      RestRefused(a, ops, t, lo, hi);
    }
  }

  lemma OpenEndRefused(a: seq<Key>, b: seq<Key>, ops: seq<Op>, t: Totals, lo: nat, hi: nat)
    requires Indexed(a, b, ops) && TotalsOf(a, b, t) && lo < hi <= |ops| && OpenKeep(a, ops, lo)
    ensures ApplyLines(Standard, a, ABefore(ops, lo), HunkLines(ops, lo, hi, t)) == None
  {
    LinesFrom(ops, lo, hi, t);
    KeptKey(a, b, ops, t, Standard, lo);
    KeepRefused(a, ABefore(ops, lo), HunkLine(Keep, ops[lo].line, false), HunkLines(ops, lo + 1, hi, t));
  }

  lemma RestRefused(a: seq<Key>, ops: seq<Op>, t: Totals, lo: nat, hi: nat)
    requires lo < hi <= |ops| && ApplyLines(Standard, a, ABefore(ops, lo + 1), HunkLines(ops, lo + 1, hi, t)) == None
    ensures ApplyLines(Standard, a, ABefore(ops, lo), HunkLines(ops, lo, hi, t)) == None
  {
    LinesFrom(ops, lo, hi, t);
    NextBefore(ops, lo);
    StillRefused(a, ABefore(ops, lo), HunkLine(ops[lo].kind, ops[lo].line, Marked(ops, lo, t)), HunkLines(ops, lo + 1, hi, t));
  }

  lemma KeepRefused(a: seq<Key>, pos: nat, l: HunkLine, rest: seq<HunkLine>)
    requires l.kind.Keep? && pos < |a| && !ContextMatches(Standard, a[pos], l)
    ensures ApplyLines(Standard, a, pos, [l] + rest) == None
  {
  }

  lemma StillRefused(a: seq<Key>, pos: nat, l: HunkLine, rest: seq<HunkLine>)
    requires ApplyLines(Standard, a, pos + (if l.kind.Insert? then 0 else 1), rest) == None
    ensures ApplyLines(Standard, a, pos, [l] + rest) == None
  {
    assert ([l] + rest)[1..] == rest;
  }

  lemma SliceSnoc(a: seq<Key>, p: nat, x: nat)
    requires p <= x < |a|
    ensures a[p..x + 1] == a[p..x] + [a[x]]
  {
  }

  /** Between hunks the files agree. */
  lemma {:induction false} UnchangedAgree(a: seq<Key>, b: seq<Key>, ops: seq<Op>, p: nat, q: nat)
    requires Indexed(a, b, ops) && p <= q && Unchanged(ops, p, q)
    ensures ABefore(ops, q) == ABefore(ops, p) + (q - p) && BBefore(ops, q) == BBefore(ops, p) + (q - p)
    ensures ABefore(ops, q) <= |a| && BBefore(ops, q) <= |b|
    ensures a[ABefore(ops, p)..ABefore(ops, q)] == b[BBefore(ops, p)..BBefore(ops, q)]
    decreases q - p
  {
    CountsGrow(ops, q, |ops|);
    if p < q {
      UnchangedAgree(a, b, ops, p, q - 1);
      assert OpAt(a, b, ops, q - 1);
      var x, y := ABefore(ops, q - 1), BBefore(ops, q - 1);
      SliceSnoc(a, ABefore(ops, p), x);
      SliceSnoc(b, BBefore(ops, p), y);
    }
  }

  // ----------------------------------------------------------- all hunks

  /** A header says where its region starts, also when that is empty. */
  lemma HeaderPlaces(ops: seq<Op>, lo: nat, hi: nat, t: Totals)
    requires lo <= hi <= |ops|
    ensures var h := HunkOf(ops, lo, hi, t);
            && BeforeRegion(h.aStart, h.aCount) == ABefore(ops, lo) && BeforeRegion(h.bStart, h.bCount) == BBefore(ops, lo)
            && h.aCount == ABefore(ops, hi) - ABefore(ops, lo) && h.bCount == BBefore(ops, hi) - BBefore(ops, lo)
            && h.lines == HunkLines(ops, lo, hi, t)
  {
  }

  lemma ApplyFirst(r: Reader, a: seq<Key>, pos: nat, done: nat, h: Hunk, rest: seq<Hunk>, p: Produced, tail: seq<Key>)
    requires var start := BeforeRegion(h.aStart, h.aCount);
             && pos <= start <= |a| && BeforeRegion(h.bStart, h.bCount) == done + (start - pos)
             && ApplyLines(r, a, start, h.lines) == Some(p) && p.end - start == h.aCount && |p.out| == h.bCount
             && Apply(r, a, p.end, done + (start - pos) + |p.out|, rest) == Some(tail)
    ensures Apply(r, a, pos, done, [h] + rest) == Some(a[pos..BeforeRegion(h.aStart, h.aCount)] + p.out + tail)
  {
    assert ([h] + rest)[1..] == rest;
  }

  /** Some hunk shows op k. */
  ghost predicate Shown(ranges: seq<Span>, k: nat) {
    exists i | 0 <= i < |ranges| :: ranges[i].lo <= k < ranges[i].hi
  }

  /** Applying the rendered hunks turns the rest of a into the rest of b, for a
      reader that reads every line that is shown as the file's. */
  lemma {:induction false} HunksApply(r: Reader, a: seq<Key>, b: seq<Key>, ops: seq<Op>, t: Totals, p: nat, ranges: seq<Span>)
    requires Indexed(a, b, ops) && TotalsOf(a, b, t) && p <= |ops| && Covers(ops, p, ranges) && InBounds(ops, ranges)
    requires forall k: nat | k < |ops| && Shown(ranges, k) :: Read(r, a, ops, k)
    ensures ABefore(ops, p) <= |a| && BBefore(ops, p) <= |b|
    ensures Apply(r, a, ABefore(ops, p), BBefore(ops, p), AllHunks(ops, ranges, t)) == Some(b[BBefore(ops, p)..])
    decreases |ranges|
  {
    CountsGrow(ops, p, |ops|);
    if ranges == [] {
      UnchangedAgree(a, b, ops, p, |ops|);
      assert a[ABefore(ops, p)..] == a[ABefore(ops, p)..|a|] && b[BBefore(ops, p)..] == b[BBefore(ops, p)..|b|];
    } else {
      ShownInTail(ranges);
      HunksApply(r, a, b, ops, t, ranges[0].hi, ranges[1..]);
      NextHunkApplies(r, a, b, ops, t, p, ranges[0], AllHunks(ops, ranges[1..], t));
    }
  }

  lemma ShownInTail(ranges: seq<Span>)
    requires ranges != []
    ensures forall k: nat :: Shown(ranges, k) <==> ranges[0].lo <= k < ranges[0].hi || Shown(ranges[1..], k)
  {
    forall k: nat | Shown(ranges[1..], k) ensures Shown(ranges, k) {
      var i :| 0 <= i < |ranges[1..]| && ranges[1..][i].lo <= k < ranges[1..][i].hi;
      assert ranges[i + 1].lo <= k < ranges[i + 1].hi;
    }
    forall k: nat | Shown(ranges, k) ensures ranges[0].lo <= k < ranges[0].hi || Shown(ranges[1..], k) {
      var i :| 0 <= i < |ranges| && ranges[i].lo <= k < ranges[i].hi;
      if i > 0 { assert ranges[1..][i - 1].lo <= k < ranges[1..][i - 1].hi; }
    }
  }

  lemma NextHunkApplies(r: Reader, a: seq<Key>, b: seq<Key>, ops: seq<Op>, t: Totals, p: nat, at: Span, rest: seq<Hunk>)
    requires Indexed(a, b, ops) && TotalsOf(a, b, t) && p <= at.lo <= at.hi <= |ops| && Unchanged(ops, p, at.lo)
    requires forall k | at.lo <= k < at.hi :: Read(r, a, ops, k)
    requires BBefore(ops, at.hi) <= |b| && Apply(r, a, ABefore(ops, at.hi), BBefore(ops, at.hi), rest) == Some(b[BBefore(ops, at.hi)..])
    ensures ABefore(ops, p) <= |a| && BBefore(ops, p) <= |b|
    ensures Apply(r, a, ABefore(ops, p), BBefore(ops, p), [HunkOf(ops, at.lo, at.hi, t)] + rest) == Some(b[BBefore(ops, p)..])
  {
    CountsGrow(ops, p, at.lo);
    CountsGrow(ops, at.lo, at.hi);
    UnchangedAgree(a, b, ops, p, at.lo);
    HunkApplies(r, a, b, ops, t, at.lo, at.hi);
    HeaderPlaces(ops, at.lo, at.hi, t);
    var h := HunkOf(ops, at.lo, at.hi, t);
    HunkPlaces(r, a, b, ABefore(ops, p), ABefore(ops, at.lo), ABefore(ops, at.hi),
               BBefore(ops, p), BBefore(ops, at.lo), BBefore(ops, at.hi), h, rest);
  }

  /** The same, on the line numbers alone. */
  lemma HunkPlaces(r: Reader, a: seq<Key>, b: seq<Key>, a1: nat, a2: nat, a3: nat, b1: nat, b2: nat, b3: nat, h: Hunk, rest: seq<Hunk>)
    requires a1 <= a2 <= |a| && a2 <= a3 && b1 <= b2 <= b3 <= |b| && a2 - a1 == b2 - b1 && a[a1..a2] == b[b1..b2]
    requires BeforeRegion(h.aStart, h.aCount) == a2 && BeforeRegion(h.bStart, h.bCount) == b2
    requires h.aCount == a3 - a2 && h.bCount == b3 - b2
    requires ApplyLines(r, a, a2, h.lines) == Some(Produced(b[b2..b3], a3))
    requires Apply(r, a, a3, b3, rest) == Some(b[b3..])
    ensures Apply(r, a, a1, b1, [h] + rest) == Some(b[b1..])
  {
    ApplyFirst(r, a, a1, b1, h, rest, Produced(b[b2..b3], a3), b[b3..]);
    assert b[b1..] == b[b1..b2] + b[b2..b3] + b[b3..];
  }

  /** ... and the standard reader refuses hunks that show an open end. */
  lemma {:induction false} HunksRefused(a: seq<Key>, b: seq<Key>, ops: seq<Op>, t: Totals, pos: nat, done: nat, ranges: seq<Span>, k: nat)
    requires Indexed(a, b, ops) && TotalsOf(a, b, t) && InBounds(ops, ranges)
    requires k < |ops| && Shown(ranges, k) && OpenKeep(a, ops, k)
    ensures Apply(Standard, a, pos, done, AllHunks(ops, ranges, t)) == None
    decreases |ranges|
  {
    ShownInTail(ranges);
    HeaderPlaces(ops, ranges[0].lo, ranges[0].hi, t);
    var h, rest := HunkOf(ops, ranges[0].lo, ranges[0].hi, t), AllHunks(ops, ranges[1..], t);
    if ranges[0].lo <= k < ranges[0].hi {
      HunkRefused(a, b, ops, t, ranges[0].lo, ranges[0].hi, k);
      FirstRefused(a, pos, done, h, rest);
    } else {
      forall pos: nat, done: nat ensures Apply(Standard, a, pos, done, rest) == None {
        HunksRefused(a, b, ops, t, pos, done, ranges[1..], k);
      }
      LaterRefused(a, pos, done, h, rest);
    }
  }

  lemma FirstRefused(a: seq<Key>, pos: nat, done: nat, h: Hunk, rest: seq<Hunk>)
    requires BeforeRegion(h.aStart, h.aCount) >= 0
    requires ApplyLines(Standard, a, BeforeRegion(h.aStart, h.aCount), h.lines) == None
    ensures Apply(Standard, a, pos, done, [h] + rest) == None
  {
  }

  lemma LaterRefused(a: seq<Key>, pos: nat, done: nat, h: Hunk, rest: seq<Hunk>)
    requires forall p: nat, d: nat :: Apply(Standard, a, p, d, rest) == None
    ensures Apply(Standard, a, pos, done, [h] + rest) == None
  {
    assert ([h] + rest)[1..] == rest;
  }

  // --------------------------------------------------------- open ends

  /** Both files end with the same line and no newline. */
  predicate SharesOpenEnd(a: seq<Key>, b: seq<Key>) {
    a != [] && b != [] && a[|a| - 1] == b[|b| - 1] && Strip(a[|a| - 1]) == a[|a| - 1]
  }

  /** How many kept ops follow the last change. */
  function KeptAtEnd(ops: seq<Op>): (n: nat)
    ensures n <= |ops| && (n < |ops| ==> Changed(ops[|ops| - 1 - n])) && Unchanged(ops, |ops| - n, |ops|)
  {
    if ops == [] || Changed(ops[|ops| - 1]) then 0 else 1 + KeptAtEnd(ops[..|ops| - 1])
  }

  /** Only the last op can keep an open end. */
  lemma OpenKeepIsLast(a: seq<Key>, b: seq<Key>, ops: seq<Op>, t: Totals, k: nat)
    requires Indexed(a, b, ops) && TotalsOf(a, b, t) && k < |ops| && OpenKeep(a, ops, k)
    ensures k == |ops| - 1 && SharesOpenEnd(a, b)
  {
    assert OpAt(a, b, ops, k);
    var i, j := ABefore(ops, k), BBefore(ops, k);
    OpenIsLast(a, t.aNewline, i);
    OpenIsLast(b, t.bNewline, j);
    assert ABefore(ops, k + 1) == |a| && BBefore(ops, k + 1) == |b|;
    if k + 1 < |ops| {
      CountsGrow(ops, k + 2, |ops|);
    }
  }

  lemma OpenIsLast(a: seq<Key>, newline: bool, i: nat)
    requires Ended(a, newline) && i < |a| && Strip(a[i]) == a[i]
    ensures i == |a| - 1
  {
    assert a[i] == KeyOf(Strip(a[i]), i == |a| - 1 && !newline);
    assert |Strip(a[i]) + "\n"| == |Strip(a[i])| + 1;
  }

  /** Both files from (i, j) on end with the shared open end. */
  ghost predicate BeforeOpenEnd(a: seq<Key>, b: seq<Key>, aNL: bool, bNL: bool, i: nat, j: nat) {
    Ended(a, aNL) && Ended(b, bNL) && SharesOpenEnd(a, b) && i < |a| && j < |b|
  }

  lemma {:induction false} OpenEndIsCommon(a: seq<Key>, b: seq<Key>, i: nat, j: nat)
    requires SharesOpenEnd(a, b) && i < |a| && j < |b|
    ensures Lcs(a, b, i, j) >= 1
    decreases |a| - i + |b| - j
  {
    if i + 1 < |a| {
      OpenEndIsCommon(a, b, i + 1, j);
    } else if j + 1 < |b| {
      OpenEndIsCommon(a, b, i, j + 1);
    }
  }

  /** Until it reaches the open end, the walk stays inside both files. */
  lemma WalkStaysInside(a: seq<Key>, b: seq<Key>, aNL: bool, bNL: bool, i: nat, j: nat) returns (op: Op, i': nat, j': nat)
    requires BeforeOpenEnd(a, b, aNL, bNL, i, j) && (i < |a| - 1 || j < |b| - 1)
    ensures i <= i' < |a| && j <= j' < |b| && i + j < i' + j'
    ensures Script(a, b, i, j) == [op] + Script(a, b, i', j')
  {
    if a[i] == b[j] {
      if i == |a| - 1 { OnlyLastMatches(b, bNL, a[i], j); }
      if j == |b| - 1 { OnlyLastMatches(a, aNL, b[j], i); }
      return Op(Keep, Strip(a[i])), i + 1, j + 1;
    }
    if i + 1 < |a| { OpenEndIsCommon(a, b, i + 1, j); }
    if j + 1 < |b| { OpenEndIsCommon(a, b, i, j + 1); }
    if Lcs(a, b, i + 1, j) >= Lcs(a, b, i, j + 1) {
      return Op(Delete, Strip(a[i])), i + 1, j;
    }
    return Op(Insert, Strip(b[j])), i, j + 1;
  }

  /** The exact script always keeps a shared open end, in its last op. */
  lemma {:induction false} ScriptKeepsOpenEnd(a: seq<Key>, b: seq<Key>, aNL: bool, bNL: bool, i: nat, j: nat, ops: seq<Op>)
    requires BeforeOpenEnd(a, b, aNL, bNL, i, j) && ops == Script(a, b, i, j)
    ensures ops != [] && ops[|ops| - 1].kind.Keep?
    decreases |a| - i + |b| - j
  {
    if i == |a| - 1 && j == |b| - 1 {
      EndOfScript(a, b);
    } else {
      var op, i', j' := WalkStaysInside(a, b, aNL, bNL, i, j);
      var rest := ops[1..];
      assert ops == [op] + rest;
      ScriptKeepsOpenEnd(a, b, aNL, bNL, i', j', rest);
      LastStays(op, rest);
    }
  }

  lemma EndOfScript(a: seq<Key>, b: seq<Key>)
    requires SharesOpenEnd(a, b)
    ensures Lcs(a, b, |a| - 1, |b| - 1) == 1 && Script(a, b, |a| - 1, |b| - 1) == [Op(Keep, Strip(a[|a| - 1]))]
  {
    assert Script(a, b, |a|, |b|) == [];
  }

  lemma OnlyLastMatches(keys: seq<Key>, newline: bool, key: Key, i: nat)
    requires Ended(keys, newline) && i < |keys| - 1 && Strip(key) == key
    ensures keys[i] != key
  {
    if keys[i] == key { OpenIsLast(keys, newline, i); }
  }

  lemma LastStays(op: Op, ops: seq<Op>)
    ensures ops != [] ==> ([op] + ops)[|[op] + ops| - 1] == ops[|ops| - 1]
  {
  }

  /** The diff shows the files' shared open end as context, which the format
      cannot say: both files end with the same line and no newline, the exact
      script is used, and at most `context` kept ops follow its last change. */
  predicate HidesOpenEnd(a: seq<Key>, b: seq<Key>, context: nat) {
    |a| * |b| <= MaxDPSize && SharesOpenEnd(a, b) && KeptAtEnd(Script(a, b, 0, 0)) <= context
  }

  /** The last op is shown exactly when a change is near enough. */
  lemma LastIsShown(ops: seq<Op>, context: nat, clusters: seq<Span>)
    requires Clustered(ops, |ops|, context, clusters) && KeptAtEnd(ops) < |ops|
    ensures Shown(Ranges(ops, context, clusters), |ops| - 1) <==> KeptAtEnd(ops) <= context
  {
    if KeptAtEnd(ops) <= context {
      NearLastIsShown(ops, context, clusters);
    }
    if Shown(Ranges(ops, context, clusters), |ops| - 1) {
      ShownLastIsNear(ops, context, clusters);
    }
  }

  lemma NearLastIsShown(ops: seq<Op>, context: nat, clusters: seq<Span>)
    requires Clustered(ops, |ops|, context, clusters) && KeptAtEnd(ops) < |ops| && KeptAtEnd(ops) <= context
    ensures Shown(Ranges(ops, context, clusters), |ops| - 1)
  {
    var ranges := Ranges(ops, context, clusters);
    RangesAt(ops, context, clusters);
    var c := ClusterOf(ops, clusters, context, |ops| - 1 - KeptAtEnd(ops));
    ShowsLast(ops, context, clusters[c], ranges[c]);
  }

  lemma ShownLastIsNear(ops: seq<Op>, context: nat, clusters: seq<Span>)
    requires Clustered(ops, |ops|, context, clusters) && ops != [] && Shown(Ranges(ops, context, clusters), |ops| - 1)
    ensures KeptAtEnd(ops) <= context
  {
    var ranges := Ranges(ops, context, clusters);
    RangesAt(ops, context, clusters);
    var c :| 0 <= c < |ranges| && ranges[c].lo <= |ops| - 1 < ranges[c].hi;
    ShowsLast(ops, context, clusters[c], ranges[c]);
    AfterLastChange(ops, clusters[c].hi);
  }

  lemma ClusterOf(ops: seq<Op>, clusters: seq<Span>, context: nat, k: nat) returns (c: nat)
    requires Clustered(ops, |ops|, context, clusters) && k < |ops| && Changed(ops[k])
    ensures c < |clusters| && clusters[c].lo <= k <= clusters[c].hi
  {
    assert InCluster(clusters, k);
    var x :| 0 <= x < |clusters| && clusters[x].lo <= k <= clusters[x].hi;
    c := x;
  }

  lemma ShowsLast(ops: seq<Op>, context: nat, c: Span, r: Span)
    requires c.lo <= c.hi < |ops| && r == Range(ops, context, c)
    ensures r.lo <= |ops| - 1 < r.hi <==> |ops| - 1 - c.hi <= context
  {
  }

  lemma AfterLastChange(ops: seq<Op>, k: nat)
    requires k < |ops| && Changed(ops[k])
    ensures KeptAtEnd(ops) <= |ops| - 1 - k
  {
  }

  /** What the standard reader makes of the hunks of a script between two
      different files. */
  lemma StandardReads(a: seq<Key>, b: seq<Key>, ops: seq<Op>, t: Totals, ranges: seq<Span>, near: bool)
    requires Indexed(a, b, ops) && TotalsOf(a, b, t) && ops != [] && Covers(ops, 0, ranges) && InBounds(ops, ranges)
    requires near <==> Shown(ranges, |ops| - 1)
    ensures Apply(Standard, a, 0, 0, AllHunks(ops, ranges, t)) == if OpenKeep(a, ops, |ops| - 1) && near then None else Some(b)
  {
    if OpenKeep(a, ops, |ops| - 1) && near {
      HunksRefused(a, b, ops, t, 0, 0, ranges, |ops| - 1);
    } else {
      OpenEndNotShown(a, b, ops, t, ranges);
      AllHunksApply(Standard, a, b, ops, t, ranges);
    }
  }

  lemma AllHunksApply(r: Reader, a: seq<Key>, b: seq<Key>, ops: seq<Op>, t: Totals, ranges: seq<Span>)
    requires Indexed(a, b, ops) && TotalsOf(a, b, t) && Covers(ops, 0, ranges) && InBounds(ops, ranges)
    requires forall k: nat | k < |ops| && Shown(ranges, k) :: Read(r, a, ops, k)
    ensures Apply(r, a, 0, 0, AllHunks(ops, ranges, t)) == Some(b)
  {
    HunksApply(r, a, b, ops, t, 0, ranges);
    assert b[0..] == b;
  }

  lemma OpenEndNotShown(a: seq<Key>, b: seq<Key>, ops: seq<Op>, t: Totals, ranges: seq<Span>)
    requires Indexed(a, b, ops) && TotalsOf(a, b, t) && ops != []
    requires OpenKeep(a, ops, |ops| - 1) ==> !Shown(ranges, |ops| - 1)
    ensures forall k: nat | k < |ops| && Shown(ranges, k) :: Read(Standard, a, ops, k)
  {
    forall k: nat | k < |ops| && Shown(ranges, k)
      ensures Read(Standard, a, ops, k)
    {
      if OpenKeep(a, ops, k) { OpenKeepIsLast(a, b, ops, t, k); }
    }
  }

  lemma SomethingChanged(a: seq<Key>, b: seq<Key>, ops: seq<Op>)
    requires Indexed(a, b, ops) && a != b
    ensures ops != [] && KeptAtEnd(ops) < |ops|
  {
    if KeptAtEnd(ops) == |ops| {
      UnchangedAgree(a, b, ops, 0, |ops|);
      WholeSlices(a, b);
      assert false;
    }
  }

  lemma WholeSlices(a: seq<Key>, b: seq<Key>)
    ensures a[0..|a|] == a && b[0..|b|] == b
  {
  }

  // ------------------------------------------------------------- unified

  lemma {:induction false} AllDeletes(a: seq<Key>, b: seq<Key>, i: nat, ops: seq<Op>, rest: seq<Op>)
    requires i <= |a| && |ops| == |a| - i && Edits(a, b, |a|, 0, rest)
    requires forall k | 0 <= k < |ops| :: ops[k] == Op(Delete, Strip(a[i + k]))
    ensures Edits(a, b, i, 0, ops + rest)
    decreases |ops|
  {
    if ops == [] {
      assert ops + rest == rest;
    } else {
      assert (ops + rest)[1..] == ops[1..] + rest;
      AllDeletes(a, b, i + 1, ops[1..], rest);
    }
  }

  lemma {:induction false} AllInserts(a: seq<Key>, b: seq<Key>, j: nat, ops: seq<Op>)
    requires j <= |b| && |ops| == |b| - j
    requires forall k | 0 <= k < |ops| :: ops[k] == Op(Insert, Strip(b[j + k]))
    ensures Edits(a, b, |a|, j, ops)
    decreases |ops|
  {
    if ops != [] {
      AllInserts(a, b, j + 1, ops[1..]);
    }
  }

  /** A script from `a` to `b`, and a shortest one unless the files are too
      large. */
  ghost predicate BestScript(a: seq<Key>, b: seq<Key>, ops: seq<Op>) {
    && Edits(a, b, 0, 0, ops)
    && (|a| * |b| <= MaxDPSize ==> forall other | Edits(a, b, 0, 0, other) :: Kept(other) <= Kept(ops))
  }

  lemma ExactIsBest(a: seq<Key>, b: seq<Key>)
    ensures BestScript(a, b, Script(a, b, 0, 0))
  {
    ScriptEdits(a, b, 0, 0);
    forall other | Edits(a, b, 0, 0, other)
      ensures Kept(other) <= Kept(Script(a, b, 0, 0))
    {
      ScriptIsShortest(a, b, other);
    }
  }

  lemma CoarseIsBest(a: seq<Key>, b: seq<Key>, ops: seq<Op>, n: nat, m: nat)
    requires Edits(a, b, 0, 0, ops) && n == |a| && m == |b| && n * m > MaxDPSize
    ensures BestScript(a, b, ops)
  {
  }

  /** The script of two files' lines, exact or coarse. */
  method EditScript(aLines: seq<string>, aNL: bool, bLines: seq<string>, bNL: bool) returns (ops: seq<Op>)
    requires (forall l | l in aLines :: NoNewline(l)) && (forall l | l in bLines :: NoNewline(l))
    ensures BestScript(Keys(aLines, aNL), Keys(bLines, bNL), ops)
    ensures |aLines| * |bLines| <= MaxDPSize ==> ops == Script(Keys(aLines, aNL), Keys(bLines, bNL), 0, 0)
    ensures |aLines| * |bLines| > MaxDPSize ==> forall k | 0 <= k < |ops| :: !ops[k].kind.Keep?
  {
    var a, b := Keys(aLines, aNL), Keys(bLines, bNL);
    if |aLines| * |bLines| <= MaxDPSize {
      ops := Diff(a, b);
      ExactIsBest(a, b);
    } else {
      ops := Coarse(aLines, bLines);
      StripKeys(aLines, aNL);
      StripKeys(bLines, bNL);
      assert ops == ops[..|a|] + ops[|a|..];
      AllInserts(a, b, 0, ops[|a|..]);
      AllDeletes(a, b, 0, ops[..|a|], ops[|a|..]);
      CoarseIsBest(a, b, ops, |aLines|, |bLines|);
    }
  }

  lemma {:induction false} StripKeys(lines: seq<string>, newline: bool)
    requires forall l | l in lines :: NoNewline(l)
    ensures |Keys(lines, newline)| == |lines|
    ensures forall k | 0 <= k < |lines| :: Strip(Keys(lines, newline)[k]) == lines[k]
  {
    if lines != [] {
      assert lines[0] in lines;
      if |lines| == 1 && !newline {
        assert Strip(lines[0]) == lines[0];
      } else {
        assert (lines[0] + "\n")[..|lines[0]|] == lines[0];
        StripKeys(lines[1..], newline);
      }
    }
  }

  /** When the last op of the script keeps an open end. */
  lemma OpenEndOfScript(a: seq<Key>, b: seq<Key>, ops: seq<Op>, t: Totals)
    requires Indexed(a, b, ops) && TotalsOf(a, b, t) && ops != []
    requires |a| * |b| <= MaxDPSize && SharesOpenEnd(a, b) ==> ops[|ops| - 1].kind.Keep?
    requires |a| * |b| > MaxDPSize ==> !ops[|ops| - 1].kind.Keep?
    ensures OpenKeep(a, ops, |ops| - 1) <==> |a| * |b| <= MaxDPSize && SharesOpenEnd(a, b)
  {
    if OpenKeep(a, ops, |ops| - 1) {
      OpenKeepIsLast(a, b, ops, t, |ops| - 1);
    }
    if |a| * |b| <= MaxDPSize && SharesOpenEnd(a, b) {
      LastKeepIsOpen(a, b, ops);
    }
  }

  lemma LastKeepIsOpen(a: seq<Key>, b: seq<Key>, ops: seq<Op>)
    requires Indexed(a, b, ops) && SharesOpenEnd(a, b) && ops != [] && ops[|ops| - 1].kind.Keep?
    ensures OpenKeep(a, ops, |ops| - 1)
  {
    NextBefore(ops, |ops| - 1);
  }

  /** A hunk shows the ops of its range, in order. */
  ghost predicate ShowsOps(h: Hunk, ops: seq<Op>, r: Span) {
    && r.lo <= r.hi <= |ops| && |h.lines| == r.hi - r.lo
    && forall k | 0 <= k < |h.lines| :: h.lines[k].kind == ops[r.lo + k].kind && h.lines[k].line == ops[r.lo + k].line
  }

  /** The hunks show each change of the script with its context, and nothing
      else. */
  ghost predicate Displays(ops: seq<Op>, context: nat, ranges: seq<Span>, hunks: seq<Hunk>) {
    && HunkContext.Shaped(ops, context, ranges) && |hunks| == |ranges|
    && forall k | 0 <= k < |hunks| :: ShowsOps(hunks[k], ops, ranges[k])
  }

  lemma RenderDisplays(ops: seq<Op>, context: nat, clusters: seq<Span>, t: Totals)
    requires Clustered(ops, |ops|, context, clusters) && Dense(ops, |ops|, context, clusters)
    requires var ranges := Ranges(ops, context, clusters); Covers(ops, 0, ranges) && InBounds(ops, ranges)
    ensures Displays(ops, context, Ranges(ops, context, clusters), AllHunks(ops, Ranges(ops, context, clusters), t))
  {
    HunkContext.RenderShows(ops, context, clusters);
    HunksShowOps(ops, Ranges(ops, context, clusters), t);
  }

  /** What both readers make of the rendered hunks of a script. */
  lemma RenderReads(a: seq<Key>, b: seq<Key>, ops: seq<Op>, t: Totals, context: nat, clusters: seq<Span>)
    requires TotalsOf(a, b, t) && a != b && Edits(a, b, 0, 0, ops) && Clustered(ops, |ops|, context, clusters)
    requires if |a| * |b| <= MaxDPSize then ops == Script(a, b, 0, 0) else forall k | 0 <= k < |ops| :: !ops[k].kind.Keep?
    requires var ranges := Ranges(ops, context, clusters); Covers(ops, 0, ranges) && InBounds(ops, ranges)
    ensures var hunks := AllHunks(ops, Ranges(ops, context, clusters), t);
            && Apply(Lenient, a, 0, 0, hunks) == Some(b)
            && Apply(Standard, a, 0, 0, hunks) == if HidesOpenEnd(a, b, context) then None else Some(b)
  {
    var ranges := Ranges(ops, context, clusters);
    EditsIndexed(a, b, ops);
    SomethingChanged(a, b, ops);
    if |a| * |b| <= MaxDPSize && SharesOpenEnd(a, b) {
      ScriptKeepsOpenEnd(a, b, t.aNewline, t.bNewline, 0, 0, ops);
    }
    LastIsShown(ops, context, clusters);
    AllHunksApply(Lenient, a, b, ops, t, ranges);
    StandardReads(a, b, ops, t, ranges, KeptAtEnd(ops) <= context);
    OpenEndOfScript(a, b, ops, t);
  }

  lemma {:induction false} LinesShowOps(ops: seq<Op>, lo: nat, hi: nat, t: Totals)
    requires lo <= hi <= |ops|
    ensures |HunkLines(ops, lo, hi, t)| == hi - lo
    ensures forall k | 0 <= k < hi - lo ::
              HunkLines(ops, lo, hi, t)[k].kind == ops[lo + k].kind && HunkLines(ops, lo, hi, t)[k].line == ops[lo + k].line
    decreases hi - lo
  {
    if lo < hi {
      LinesShowOps(ops, lo + 1, hi, t);
    }
  }

  lemma {:induction false} HunksShowOps(ops: seq<Op>, ranges: seq<Span>, t: Totals)
    requires InBounds(ops, ranges)
    ensures |AllHunks(ops, ranges, t)| == |ranges|
    ensures forall k | 0 <= k < |ranges| :: ShowsOps(AllHunks(ops, ranges, t)[k], ops, ranges[k])
  {
    if ranges != [] {
      LinesShowOps(ops, ranges[0].lo, ranges[0].hi, t);
      HunksShowOps(ops, ranges[1..], t);
    }
  }

  /** The context that Unified uses. */
  function ContextLines(context: int): nat {
    if context < 0 then 3 else context
  }

  /** Unified. The hunks are ascending and disjoint with correct headers: Apply
      accepts nothing else. They show a best script, each change with its
      context and nothing else. Read as the format says, they turn `a` into `b`,
      final newline included, if and only if they do not show an open end as
      context; a lenient reader always gets `b`. */
  method Unified(a: string, b: string, context: int) returns (hunks: seq<Hunk>, ghost ops: seq<Op>, ghost ranges: seq<Span>)
    ensures a == b ==> hunks == []
    ensures a != b ==> BestScript(KeysOf(a), KeysOf(b), ops) && Displays(ops, ContextLines(context), ranges, hunks)
    ensures a != b ==>
              var aKeys, bKeys := KeysOf(a), KeysOf(b);
              && Join(aKeys) == a && Join(bKeys) == b
              && Apply(Standard, aKeys, 0, 0, hunks) == (if HidesOpenEnd(aKeys, bKeys, ContextLines(context)) then None else Some(bKeys))
              && Apply(Lenient, aKeys, 0, 0, hunks) == Some(bKeys)
  {
    var lines := ContextLines(context);
    if a == b {
      return [], [], [];
    }
    var aText, bText := SplitLines(a), SplitLines(b);
    var aLines, aNL, bLines, bNL := aText.lines, aText.trailing, bText.lines, bText.trailing;
    var script := EditScript(aLines, aNL, bLines, bNL);
    ops := script;
    ghost var aKeys, bKeys := Keys(aLines, aNL), Keys(bLines, bNL);
    var t := Totals(|aLines|, aNL, |bLines|, bNL);
    ghost var clusters;
    hunks, clusters := Render(script, lines, t);
    SplitJoins(a);
    SplitJoins(b);
    KeysAreEnded(aLines, aNL);
    KeysAreEnded(bLines, bNL);
    ranges := Ranges(ops, lines, clusters);
    RenderDisplays(ops, lines, clusters, t);
    RenderReads(aKeys, bKeys, ops, t, lines, clusters);
  }

  /** An input at which the format's reading fails: for "x\ny" against "z\ny"
      the shared open end is within the context ... */
  lemma OpenEndIsRefused()
    ensures var a, b := ["x\n", "y"], ["z\n", "y"];
            && Keys(["x", "y"], false) == a && Keys(["z", "y"], false) == b && HidesOpenEnd(a, b, 3)
            && Script(a, b, 0, 0) == [Op(Delete, "x"), Op(Insert, "z"), Op(Keep, "y")]
  {
    var a, b := ["x\n", "y"], ["z\n", "y"];
    assert ["x", "y"][1..] == ["y"] && ["z", "y"][1..] == ["y"] && "x" + "\n" == "x\n" && "z" + "\n" == "z\n";
    assert Strip("x\n") == "x" && Strip("z\n") == "z";
    assert Lcs(a, b, 2, 1) == 0 && Lcs(a, b, 1, 2) == 0 && Lcs(a, b, 2, 0) == 0 && Lcs(a, b, 0, 2) == 0;
    EndOfScript(a, b);
    assert Lcs(a, b, 1, 0) == 1 && Lcs(a, b, 0, 1) == 1;
    assert Script(a, b, 1, 0) == [Op(Insert, "z")] + Script(a, b, 1, 1);
    var ops := [Op(Delete, "x"), Op(Insert, "z"), Op(Keep, "y")];
    assert ops[..2] == [Op(Delete, "x"), Op(Insert, "z")];
    assert KeptAtEnd(ops[..2]) == 0 && KeptAtEnd(ops) == 1;
  }

  /** ... and the one hunk of its script claims a newline that is not there. */
  lemma RefusedHunk()
    ensures var h := Hunk(1, 2, 1, 2, [HunkLine(Delete, "x", false), HunkLine(Insert, "z", false), HunkLine(Keep, "y", false)]);
            && HunkOf([Op(Delete, "x"), Op(Insert, "z"), Op(Keep, "y")], 0, 3, Totals(2, false, 2, false)) == h
            && Apply(Standard, ["x\n", "y"], 0, 0, [h]) == None
            && Apply(Lenient, ["x\n", "y"], 0, 0, [h]) == Some(["z\n", "y"])
  {
    var ops, t := [Op(Delete, "x"), Op(Insert, "z"), Op(Keep, "y")], Totals(2, false, 2, false);
    NextBefore(ops, 0);
    NextBefore(ops, 1);
    NextBefore(ops, 2);
    var l0, l1, l2 := HunkLine(Delete, "x", false), HunkLine(Insert, "z", false), HunkLine(Keep, "y", false);
    assert HunkLines(ops, 2, 3, t) == [l2] && HunkLines(ops, 1, 3, t) == [l1, l2] && HunkLines(ops, 0, 3, t) == [l0, l1, l2];
    ThreeLines(l0, l1, l2);
    var h := Hunk(1, 2, 1, 2, [l0, l1, l2]);
    assert HunkOf(ops, 0, 3, t) == h;
    assert [h][1..] == [] && ["x\n", "y"][0..0] == [] && ["x\n", "y"][2..] == [];
    assert Apply(Lenient, ["x\n", "y"], 2, 2, []) == Some([]);
    ApplyFirst(Lenient, ["x\n", "y"], 0, 0, h, [], Produced(["z\n", "y"], 2), []);
    FirstRefused(["x\n", "y"], 0, 0, h, []);
    assert [h] + [] == [h];
    var out: seq<Key> := ["z\n", "y"];
    assert ["x\n", "y"][0..0] + out + [] == out;
  }

  lemma ThreeLines(l0: HunkLine, l1: HunkLine, l2: HunkLine)
    requires l0 == HunkLine(Delete, "x", false) && l1 == HunkLine(Insert, "z", false) && l2 == HunkLine(Keep, "y", false)
    ensures ApplyLines(Standard, ["x\n", "y"], 0, [l0, l1, l2]) == None
    ensures ApplyLines(Lenient, ["x\n", "y"], 0, [l0, l1, l2]) == Some(Produced(["z\n", "y"], 2))
  {
    var a := ["x\n", "y"];
    assert "x" + "\n" == "x\n" && "z" + "\n" == "z\n" && "y" + "\n" != "y";
    assert ApplyLines(Lenient, a, 2, []) == Some(Produced([], 2));
    assert [l2] + [] == [l2] && [l1] + [l2] == [l1, l2] && [l0] + [l1, l2] == [l0, l1, l2];
    assert ["y"] + [] == ["y"] && ["z\n"] + ["y"] == ["z\n", "y"];
    KeepFirst(Lenient, a, 1, l2, [], Produced([], 2));
    InsertFirst(Lenient, a, 1, l1, [l2], Produced(["y"], 2));
    DeleteFirst(Lenient, a, 0, l0, [l1, l2], Produced(["z\n", "y"], 2));
    KeepRefused(a, 1, l2, []);
    StillRefused(a, 1, l1, [l2]);
    StillRefused(a, 0, l0, [l1, l2]);
  }
}
