/** Line diffs and their hunks (internal/unidiff/unidiff.go). */
module Unidiff {
  datatype Kind = Keep | Delete | Insert

  /** `line` is the content without its newline. */
  datatype Op = Op(kind: Kind, line: string)

  const MaxDPSize := 4_000_000

  // ---------------------------------------------------------------- lines

  /** The lines of a file, each with its newline unless it is a last line
      without one. */
  type Key = string

  function Strip(key: Key): string {
    if key != "" && key[|key| - 1] == '\n' then key[..|key| - 1] else key
  }

  predicate NoNewline(line: string) {
    '\n' !in line
  }

  function Keys(lines: seq<string>, trailing: bool): seq<Key> {
    if lines == [] then []
    else if |lines| == 1 && !trailing then [lines[0]]
    else [lines[0] + "\n"] + Keys(lines[1..], trailing)
  }

  function Join(keys: seq<Key>): string {
    if keys == [] then "" else keys[0] + Join(keys[1..])
  }

  /** The position of the first newline, or |s|. */
  function LineEnd(s: string): (k: nat)
    ensures k <= |s| && '\n' !in s[..k] && (k < |s| ==> s[k] == '\n')
  {
    if s == "" || s[0] == '\n' then 0
    else
      var k := LineEnd(s[1..]);
      assert s[..k + 1] == [s[0]] + s[1..][..k];
      k + 1
  }

  /** The lines of a file, and whether the last one has a newline. */
  datatype Text = Text(lines: seq<string>, trailing: bool)

  /** splitLines. */
  function SplitLines(s: string): (r: Text)
    ensures forall l | l in r.lines :: NoNewline(l)
    decreases |s|
  {
    if s == "" then Text([], false)
    else
      var k := LineEnd(s);
      if k == |s| then assert s[..k] == s; Text([s], false)
      else if k + 1 == |s| then Text([s[..k]], true)
      else
        var rest := SplitLines(s[k + 1..]);
        rest.(lines := [s[..k]] + rest.lines)
  }

  function KeysOf(s: string): seq<Key> {
    Keys(SplitLines(s).lines, SplitLines(s).trailing)
  }

  lemma JoinFirst(line: string, rest: seq<string>, trailing: bool)
    requires rest != []
    ensures Join(Keys([line] + rest, trailing)) == line + "\n" + Join(Keys(rest, trailing))
  {
    assert ([line] + rest)[1..] == rest;
    var keys := Keys([line] + rest, trailing);
    assert keys[1..] == Keys(rest, trailing);
  }

  lemma JoinOnly(s: string, line: string)
    requires s == line + "\n" || s == line
    ensures Join(Keys([line], s != line)) == s
  {
    assert [line][1..] == [];
    assert [line + "\n"][1..] == [];
    assert [line + "\n"] + [] == [line + "\n"];
  }

  lemma SplitMore(s: string)
    requires LineEnd(s) + 1 < |s|
    ensures var rest := SplitLines(s[LineEnd(s) + 1..]);
            SplitLines(s) == rest.(lines := [s[..LineEnd(s)]] + rest.lines)
  {
  }

  lemma CutAtLine(s: string, k: nat)
    requires k < |s| && s[k] == '\n'
    ensures s == s[..k] + "\n" + s[k + 1..]
  {
  }

  lemma LastLineJoins(s: string)
    requires s != "" && LineEnd(s) + 1 >= |s|
    ensures Join(KeysOf(s)) == s
  {
    var k := LineEnd(s);
    if k == |s| {
      JoinOnly(s, s);
    } else {
      CutAtLine(s, k);
      JoinOnly(s, s[..k]);
    }
  }

  /** A file is its lines and its final-newline state. */
  lemma {:induction false} SplitJoins(s: string)
    ensures Join(KeysOf(s)) == s
    ensures s != "" ==> SplitLines(s).lines != []
    decreases |s|
  {
    if s != "" {
      var k := LineEnd(s);
      if k + 1 >= |s| {
        LastLineJoins(s);
      } else {
        var rest := SplitLines(s[k + 1..]);
        SplitJoins(s[k + 1..]);
        SplitMore(s);
        JoinFirst(s[..k], rest.lines, rest.trailing);
        CutAtLine(s, k);
      }
    }
  }

  // ------------------------------------------------------------------ LCS

  /** The length of a longest common subsequence of a[i..] and b[j..]. */
  function Lcs(a: seq<Key>, b: seq<Key>, i: nat, j: nat): nat
    requires i <= |a| && j <= |b|
    decreases |a| - i + |b| - j
  {
    if i == |a| || j == |b| then 0
    else if a[i] == b[j] then Lcs(a, b, i + 1, j + 1) + 1
    else if Lcs(a, b, i + 1, j) >= Lcs(a, b, i, j + 1) then Lcs(a, b, i + 1, j)
    else Lcs(a, b, i, j + 1)
  }

  /** A common subsequence of a[i..] and b[j..], as the positions it pairs. */
  ghost predicate Common(a: seq<Key>, b: seq<Key>, i: nat, j: nat, pairs: seq<(nat, nat)>) {
    && (forall k | 0 <= k < |pairs| ::
          i <= pairs[k].0 < |a| && j <= pairs[k].1 < |b| && a[pairs[k].0] == b[pairs[k].1])
    && (forall k, l | 0 <= k < l < |pairs| :: pairs[k].0 < pairs[l].0 && pairs[k].1 < pairs[l].1)
  }

  /** No common subsequence is longer. */
  lemma {:induction false} LcsIsLongest(a: seq<Key>, b: seq<Key>, i: nat, j: nat, pairs: seq<(nat, nat)>)
    requires i <= |a| && j <= |b| && Common(a, b, i, j, pairs)
    ensures |pairs| <= Lcs(a, b, i, j)
    decreases |a| - i + |b| - j
  {
    if pairs != [] {
      assert i <= pairs[0].0 < |a| && j <= pairs[0].1 < |b|;
      if a[i] == b[j] {
        forall k | 0 <= k < |pairs[1..]|
          ensures pairs[1..][k].0 > i && pairs[1..][k].1 > j
        {
          assert pairs[1..][k] == pairs[k + 1] && pairs[0].0 < pairs[k + 1].0 && pairs[0].1 < pairs[k + 1].1;
        }
        LcsIsLongest(a, b, i + 1, j + 1, pairs[1..]);
      } else if pairs[0].0 > i {
        LcsIsLongest(a, b, i + 1, j, pairs);
      } else {
        LcsIsLongest(a, b, i, j + 1, pairs);
      }
    }
  }

  // --------------------------------------------------------------- script

  /** The edit script that diff walks from (i, j). */
  function Script(a: seq<Key>, b: seq<Key>, i: nat, j: nat): seq<Op>
    requires i <= |a| && j <= |b|
    decreases |a| - i + |b| - j
  {
    if i < |a| && j < |b| then
      if a[i] == b[j] then [Op(Keep, Strip(a[i]))] + Script(a, b, i + 1, j + 1)
      else if Lcs(a, b, i + 1, j) >= Lcs(a, b, i, j + 1) then [Op(Delete, Strip(a[i]))] + Script(a, b, i + 1, j)
      else [Op(Insert, Strip(b[j]))] + Script(a, b, i, j + 1)
    else if i < |a| then [Op(Delete, Strip(a[i]))] + Script(a, b, i + 1, j)
    else if j < |b| then [Op(Insert, Strip(b[j]))] + Script(a, b, i, j + 1)
    else []
  }

  predicate OnA(op: Op) {
    !op.kind.Insert?
  }

  predicate OnB(op: Op) {
    !op.kind.Delete?
  }

  /** `ops` turns a[i..] into b[j..], line by line. */
  ghost predicate Edits(a: seq<Key>, b: seq<Key>, i: nat, j: nat, ops: seq<Op>)
    requires i <= |a| && j <= |b|
    decreases |ops|
  {
    if ops == [] then i == |a| && j == |b|
    else
      match ops[0].kind
      case Keep => i < |a| && j < |b| && a[i] == b[j] && ops[0].line == Strip(a[i]) && Edits(a, b, i + 1, j + 1, ops[1..])
      case Delete => i < |a| && ops[0].line == Strip(a[i]) && Edits(a, b, i + 1, j, ops[1..])
      case Insert => j < |b| && ops[0].line == Strip(b[j]) && Edits(a, b, i, j + 1, ops[1..])
  }

  function Kept(ops: seq<Op>): nat {
    if ops == [] then 0 else (if ops[0].kind.Keep? then 1 else 0) + Kept(ops[1..])
  }

  /** The script edits a into b, and keeps a longest common subsequence. */
  lemma {:induction false} ScriptEdits(a: seq<Key>, b: seq<Key>, i: nat, j: nat)
    requires i <= |a| && j <= |b|
    ensures Edits(a, b, i, j, Script(a, b, i, j)) && Kept(Script(a, b, i, j)) == Lcs(a, b, i, j)
    decreases |a| - i + |b| - j
  {
    if i < |a| && j < |b| {
      if a[i] == b[j] {
        ScriptEdits(a, b, i + 1, j + 1);
      } else if Lcs(a, b, i + 1, j) >= Lcs(a, b, i, j + 1) {
        ScriptEdits(a, b, i + 1, j);
      } else {
        ScriptEdits(a, b, i, j + 1);
      }
    } else if i < |a| {
      ScriptEdits(a, b, i + 1, j);
    } else if j < |b| {
      ScriptEdits(a, b, i, j + 1);
    }
  }

  /** No script that edits a into b keeps more lines. */
  lemma {:induction false} EditsPair(a: seq<Key>, b: seq<Key>, i: nat, j: nat, ops: seq<Op>) returns (pairs: seq<(nat, nat)>)
    requires i <= |a| && j <= |b| && Edits(a, b, i, j, ops)
    ensures Common(a, b, i, j, pairs) && |pairs| == Kept(ops)
    decreases |ops|
  {
    if ops == [] {
      pairs := [];
    } else {
      match ops[0].kind {
        case Keep =>
          var rest := EditsPair(a, b, i + 1, j + 1, ops[1..]);
          pairs := [(i, j)] + rest;
        case Delete => pairs := EditsPair(a, b, i + 1, j, ops[1..]);
        case Insert => pairs := EditsPair(a, b, i, j + 1, ops[1..]);
      }
    }
  }

  lemma ScriptIsShortest(a: seq<Key>, b: seq<Key>, ops: seq<Op>)
    requires Edits(a, b, 0, 0, ops)
    ensures Kept(ops) <= Kept(Script(a, b, 0, 0))
  {
    var pairs := EditsPair(a, b, 0, 0, ops);
    LcsIsLongest(a, b, 0, 0, pairs);
    ScriptEdits(a, b, 0, 0);
  }

  /** The dynamic-programming table, filled from the end. */
  method FillTable(a: seq<Key>, b: seq<Key>) returns (lcs: array2<nat>)
    ensures fresh(lcs) && lcs.Length0 == |a| + 1 && lcs.Length1 == |b| + 1
    ensures forall x, y | 0 <= x <= |a| && 0 <= y <= |b| :: lcs[x, y] == Lcs(a, b, x, y)
  {
    var n, m := |a|, |b|;
    lcs := new nat[n + 1, m + 1]((x, y) => 0);
    var i := n;
    while i > 0
      invariant 0 <= i <= n
      invariant forall x, y | i <= x <= n && 0 <= y <= m :: lcs[x, y] == Lcs(a, b, x, y)
      invariant forall x | 0 <= x < i :: lcs[x, m] == 0
    {
      i := i - 1;
      FillRow(a, b, i, lcs);
    }
  }

  method FillRow(a: seq<Key>, b: seq<Key>, i: nat, lcs: array2<nat>)
    requires lcs.Length0 == |a| + 1 && lcs.Length1 == |b| + 1 && i < |a| && lcs[i, |b|] == 0
    requires forall x, y | x == i + 1 && 0 <= y <= |b| :: lcs[x, y] == Lcs(a, b, x, y)
    modifies lcs
    ensures forall y | 0 <= y <= |b| :: lcs[i, y] == Lcs(a, b, i, y)
    ensures forall x, y | 0 <= x <= |a| && 0 <= y <= |b| && x != i :: lcs[x, y] == old(lcs[x, y])
  {
    var j := |b|;
    while j > 0
      invariant 0 <= j <= |b|
      invariant forall y | j <= y <= |b| :: lcs[i, y] == Lcs(a, b, i, y)
      invariant forall x, y | 0 <= x <= |a| && 0 <= y <= |b| && x != i :: lcs[x, y] == old(lcs[x, y])
    {
      j := j - 1;
      if a[i] == b[j] {
        lcs[i, j] := lcs[i + 1, j + 1] + 1;
      } else if lcs[i + 1, j] >= lcs[i, j + 1] {
        lcs[i, j] := lcs[i + 1, j];
      } else {
        lcs[i, j] := lcs[i, j + 1];
      }
    }
  }

  lemma Snoc(whole: seq<Op>, ops: seq<Op>, op: Op, later: seq<Op>)
    requires whole == ops + ([op] + later)
    ensures whole == ops + [op] + later
  {
  }

  /** diff: the table, then the walk along it. */
  method Diff(a: seq<Key>, b: seq<Key>) returns (ops: seq<Op>)
    ensures ops == Script(a, b, 0, 0)
  {
    var n, m := |a|, |b|;
    var lcs := FillTable(a, b);
    ops := [];
    var i, j := 0, 0;
    while i < n && j < m
      invariant 0 <= i <= n && 0 <= j <= m
      invariant Script(a, b, 0, 0) == ops + Script(a, b, i, j)
      modifies {}
      decreases n - i + m - j
    {
      assert lcs[i + 1, j] == Lcs(a, b, i + 1, j) && lcs[i, j + 1] == Lcs(a, b, i, j + 1);
      if a[i] == b[j] {
        Snoc(Script(a, b, 0, 0), ops, Op(Keep, Strip(a[i])), Script(a, b, i + 1, j + 1));
        ops := ops + [Op(Keep, Strip(a[i]))];
        i, j := i + 1, j + 1;
      } else if lcs[i + 1, j] >= lcs[i, j + 1] {
        Snoc(Script(a, b, 0, 0), ops, Op(Delete, Strip(a[i])), Script(a, b, i + 1, j));
        ops := ops + [Op(Delete, Strip(a[i]))];
        i := i + 1;
      } else {
        Snoc(Script(a, b, 0, 0), ops, Op(Insert, Strip(b[j])), Script(a, b, i, j + 1));
        ops := ops + [Op(Insert, Strip(b[j]))];
        j := j + 1;
      }
    }
    var rest := WalkEnd(a, b, i, j);
    ops := ops + rest;
  }

  /** The end of the walk, when one file is used up. */
  method WalkEnd(a: seq<Key>, b: seq<Key>, from: nat, to: nat) returns (ops: seq<Op>)
    requires from <= |a| && to <= |b| && (from == |a| || to == |b|)
    ensures ops == Script(a, b, from, to)
  {
    var i, j := from, to;
    ops := [];
    while i < |a|
      invariant from <= i <= |a| && (i == |a| || j == |b|)
      invariant Script(a, b, from, to) == ops + Script(a, b, i, j)
    {
      Snoc(Script(a, b, from, to), ops, Op(Delete, Strip(a[i])), Script(a, b, i + 1, j));
      ops := ops + [Op(Delete, Strip(a[i]))];
      i := i + 1;
    }
    while j < |b|
      invariant i == |a| && to <= j <= |b|
      invariant Script(a, b, from, to) == ops + Script(a, b, i, j)
    {
      Snoc(Script(a, b, from, to), ops, Op(Insert, Strip(b[j])), Script(a, b, i, j + 1));
      ops := ops + [Op(Insert, Strip(b[j]))];
      j := j + 1;
    }
    assert ops + [] == ops;
  }

  /** coarse: everything out, everything in. */
  method Coarse(a: seq<string>, b: seq<string>) returns (ops: seq<Op>)
    ensures ops == seq(|a|, i requires 0 <= i < |a| => Op(Delete, a[i])) + seq(|b|, j requires 0 <= j < |b| => Op(Insert, b[j]))
  {
    ops := [];
    for i := 0 to |a|
      invariant |ops| == i && forall k | 0 <= k < i :: ops[k] == Op(Delete, a[k])
    {
      ops := ops + [Op(Delete, a[i])];
    }
    for j := 0 to |b|
      invariant |ops| == |a| + j && forall k | 0 <= k < |a| :: ops[k] == Op(Delete, a[k])
      invariant forall k | 0 <= k < j :: ops[|a| + k] == Op(Insert, b[k])
    {
      ops := ops + [Op(Insert, b[j])];
    }
  }
}
