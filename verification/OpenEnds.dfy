/** When the format can read a diff, from the two files alone
    (internal/unidiff/unidiff.go). */
module OpenEnds {
  import opened Unidiff
  import opened Hunks
  import opened Patches

  /** The file has a last line without a newline. */
  predicate EndsOpen(s: string) {
    s != "" && s[|s| - 1] != '\n'
  }

  /** What follows the last newline. */
  function LastLine(s: string): string {
    if EndsOpen(s) then LastLine(s[..|s| - 1]) + [s[|s| - 1]] else ""
  }

  lemma {:induction false} LastLineOfOne(s: string)
    requires NoNewline(s)
    ensures LastLine(s) == s
  {
    if s != "" {
      assert s == s[..|s| - 1] + [s[|s| - 1]];
      LastLineOfOne(s[..|s| - 1]);
    }
  }

  lemma {:induction false} LastLineOfRest(s: string, k: nat)
    requires k < |s| && s[k] == '\n'
    ensures LastLine(s) == LastLine(s[k + 1..])
    decreases |s|
  {
    if k + 1 < |s| && EndsOpen(s) {
      assert s[..|s| - 1][k + 1..] == s[k + 1..][..|s[k + 1..]| - 1];
      LastLineOfRest(s[..|s| - 1], k);
    }
  }

  ghost predicate LastKeyOf(keys: seq<Key>, s: string) {
    && keys != []
    && var last := keys[|keys| - 1];
       if EndsOpen(s) then Strip(last) == last == LastLine(s) else Strip(last) != last
  }

  lemma OpenOnlyKey(s: string)
    requires s != "" && LineEnd(s) == |s|
    ensures KeysOf(s) == [s]
  {
    assert s[..|s|] == s;
    assert SplitLines(s) == Text([s], false);
  }

  lemma EndedOnlyLine(s: string, k: nat)
    requires s != "" && k == LineEnd(s) && k + 1 == |s|
    ensures SplitLines(s) == Text([s[..k]], true)
  {
  }

  lemma EndedIsLine(s: string, k: nat)
    requires k + 1 == |s| && s[k] == '\n'
    ensures s == s[..k] + "\n"
  {
  }

  lemma EndedOnlyKey(s: string, line: string)
    requires SplitLines(s) == Text([line], true)
    ensures KeysOf(s) == [line + "\n"]
  {
    OneKey(line);
  }

  lemma OneKey(line: string)
    ensures Keys([line], true) == [line + "\n"]
  {
    assert [line][1..] == [] && Keys([], true) == [];
  }

  lemma OnlyKey(s: string)
    requires s != "" && LineEnd(s) + 1 >= |s|
    ensures LastKeyOf(KeysOf(s), s)
  {
    if LineEnd(s) == |s| {
      assert s[..|s|] == s;
      LastLineOfOne(s);
      OpenOnlyKey(s);
    } else {
      var k := LineEnd(s);
      EndedOnlyLine(s, k);
      EndedIsLine(s, k);
      EndedOnlyKey(s, s[..k]);
    }
  }

  lemma KeysFirst(line: string, rest: seq<string>, trailing: bool)
    requires rest != []
    ensures Keys([line] + rest, trailing) == [line + "\n"] + Keys(rest, trailing)
  {
    assert ([line] + rest)[1..] == rest;
  }

  lemma FirstKey(s: string, k: nat)
    requires k == LineEnd(s) && k + 1 < |s|
    ensures KeysOf(s) == [s[..k] + "\n"] + KeysOf(s[k + 1..])
  {
    SplitMore(s);
    SplitJoins(s[k + 1..]);
    var rest := SplitLines(s[k + 1..]);
    KeysFirst(s[..k], rest.lines, rest.trailing);
  }

  lemma LastKeyStays(s: string, rest: string, key: Key, keys: seq<Key>)
    requires LastKeyOf(keys, rest) && LastLine(s) == LastLine(rest) && EndsOpen(s) == EndsOpen(rest)
    ensures LastKeyOf([key] + keys, s)
  {
  }

  /** The last key of a file is open exactly when the file ends open. */
  lemma {:induction false} LastKey(s: string)
    requires s != ""
    ensures LastKeyOf(KeysOf(s), s)
    decreases |s|
  {
    var k := LineEnd(s);
    if k + 1 >= |s| {
      OnlyKey(s);
    } else {
      var rest := s[k + 1..];
      LastKey(rest);
      FirstKey(s, k);
      LastLineOfRest(s, k);
      LastKeyStays(s, rest, s[..k] + "\n", KeysOf(rest));
    }
  }

  /** Both files end with the same open line. */
  predicate EndAlikeOpen(a: string, b: string) {
    EndsOpen(a) && EndsOpen(b) && LastLine(a) == LastLine(b)
  }

  lemma OpenEndOfFiles(a: string, b: string)
    ensures SharesOpenEnd(KeysOf(a), KeysOf(b)) <==> EndAlikeOpen(a, b)
  {
    if a != "" { LastKey(a); }
    if b != "" { LastKey(b); }
  }

  /** The lines that both files end with. */
  function CommonTail(a: seq<Key>, b: seq<Key>): nat {
    if a == [] || b == [] || a[|a| - 1] != b[|b| - 1] then 0 else 1 + CommonTail(a[..|a| - 1], b[..|b| - 1])
  }

  lemma {:induction false} TailAtLeast(a: seq<Key>, b: seq<Key>, n: nat)
    requires n <= |a| && n <= |b| && a[|a| - n..] == b[|b| - n..]
    ensures n <= CommonTail(a, b)
  {
    if n > 0 {
      var x, y := a[..|a| - 1], b[..|b| - 1];
      assert a[|a| - 1] == a[|a| - n..][n - 1] == b[|b| - n..][n - 1] == b[|b| - 1];
      assert x[|x| - (n - 1)..] == a[|a| - n..][..n - 1] == b[|b| - n..][..n - 1] == y[|y| - (n - 1)..];
      TailAtLeast(x, y, n - 1);
    }
  }

  /** The lines kept after the last change end both files. */
  lemma KeptIsCommon(a: seq<Key>, b: seq<Key>)
    ensures KeptAtEnd(Script(a, b, 0, 0)) <= CommonTail(a, b)
  {
    var ops := Script(a, b, 0, 0);
    ScriptEdits(a, b, 0, 0);
    EditsIndexed(a, b, ops);
    KeptAgree(a, b, ops, KeptAtEnd(ops));
  }

  lemma KeptAgree(a: seq<Key>, b: seq<Key>, ops: seq<Op>, n: nat)
    requires Indexed(a, b, ops) && n <= |ops| && Unchanged(ops, |ops| - n, |ops|)
    ensures n <= CommonTail(a, b)
  {
    var p := |ops| - n;
    UnchangedAgree(a, b, ops, p, |ops|);
    assert a[|a| - n..] == a[ABefore(ops, p)..ABefore(ops, |ops|)] == b[|b| - n..];
    TailAtLeast(a, b, n);
  }

  /** What a caller knows from the files alone: the standard reader takes the
      diff if a file ends with a newline, the last lines differ or the table is
      too large; it refuses it if they share an open end, the table is small
      enough and no more than the context lines before it are common. */
  lemma ReadFromFiles(a: string, b: string, context: nat)
    ensures !EndAlikeOpen(a, b) || |KeysOf(a)| * |KeysOf(b)| > MaxDPSize ==> !HidesOpenEnd(KeysOf(a), KeysOf(b), context)
    ensures EndAlikeOpen(a, b) && |KeysOf(a)| * |KeysOf(b)| <= MaxDPSize && CommonTail(KeysOf(a), KeysOf(b)) <= context ==>
              HidesOpenEnd(KeysOf(a), KeysOf(b), context)
  {
    OpenEndOfFiles(a, b);
    KeptIsCommon(KeysOf(a), KeysOf(b));
  }
}
