/** Splitting and joining text at newlines, as strings.Split and strings.Join
    do with the separator "\n". */
module TextLines {

  /** One line, without newlines. */
  predicate IsLine(s: string) {
    '\n' !in s
  }

  predicate AllLines(lines: seq<string>) {
    forall l | l in lines :: IsLine(l)
  }

  /** The character in front of the first line. */
  function Prepend(c: char, lines: seq<string>): (r: seq<string>)
    requires lines != [] && c != '\n' && AllLines(lines)
    ensures r != [] && AllLines(r) && r[1..] == lines[1..] && |r| == |lines|
  {
    assert IsLine(lines[0]) && forall l | l in lines[1..] :: IsLine(l);
    [[c] + lines[0]] + lines[1..]
  }

  function Split(s: string): (lines: seq<string>)
    ensures lines != [] && AllLines(lines)
    decreases |s|
  {
    if s == "" then [""]
    else if s[0] == '\n' then [""] + Split(s[1..])
    else Prepend(s[0], Split(s[1..]))
  }

  function Join(lines: seq<string>): string {
    if lines == [] then "" else if |lines| == 1 then lines[0] else lines[0] + "\n" + Join(lines[1..])
  }

  lemma {:induction false} JoinSplit(s: string)
    ensures Join(Split(s)) == s
    decreases |s|
  {
    if s != "" {
      JoinSplit(s[1..]);
      assert s == [s[0]] + s[1..];
      var rest := Split(s[1..]);
      if s[0] == '\n' {
        assert ([""] + rest)[1..] == rest;
      } else {
        assert Prepend(s[0], rest)[1..] == rest[1..];
      }
    }
  }

  lemma PrependConcat(c: char, xs: seq<string>, ys: seq<string>)
    requires xs != [] && c != '\n' && AllLines(xs) && AllLines(ys)
    ensures AllLines(xs + ys) && Prepend(c, xs + ys) == Prepend(c, xs) + ys
  {
    assert (xs + ys)[1..] == xs[1..] + ys;
  }

  lemma {:induction false} SplitAtNewline(a: string, b: string)
    ensures Split(a + "\n" + b) == Split(a) + Split(b)
    decreases |a|
  {
    var s := a + "\n" + b;
    if a == "" {
      assert s[1..] == b;
    } else {
      SplitAtNewline(a[1..], b);
      assert s[1..] == a[1..] + "\n" + b;
      if a[0] == '\n' {
        assert Split(s) == [""] + (Split(a[1..]) + Split(b));
      } else {
        PrependConcat(a[0], Split(a[1..]), Split(b));
      }
    }
  }

  lemma {:induction false} SplitLine(l: string)
    requires IsLine(l)
    ensures Split(l) == [l]
    decreases |l|
  {
    if l != "" {
      SplitLine(l[1..]);
      assert l == [l[0]] + l[1..];
      assert l[0] in l;
    }
  }

  lemma {:induction false} SplitJoin(lines: seq<string>)
    requires lines != [] && AllLines(lines)
    ensures Split(Join(lines)) == lines
    decreases |lines|
  {
    SplitLine(lines[0]);
    if |lines| > 1 {
      SplitJoin(lines[1..]);
      SplitAtNewline(lines[0], Join(lines[1..]));
    }
  }

  /** Each line with its newline, as a builder collects them. */
  function Terminated(lines: seq<string>): string {
    if lines == [] then "" else lines[0] + "\n" + Terminated(lines[1..])
  }

  lemma {:induction false} TerminatedSnoc(lines: seq<string>, l: string)
    ensures Terminated(lines + [l]) == Terminated(lines) + l + "\n"
  {
    if lines != [] {
      TerminatedSnoc(lines[1..], l);
      assert (lines + [l])[1..] == lines[1..] + [l];
    }
  }

  /** strings.TrimSuffix(s, "\n"). */
  function TrimNewline(s: string): string {
    if s != "" && s[|s| - 1] == '\n' then s[..|s| - 1] else s
  }

  lemma {:induction false} TrimTerminated(lines: seq<string>)
    ensures TrimNewline(Terminated(lines)) == Join(lines)
    ensures lines != [] ==> Terminated(lines) == Join(lines) + "\n"
  {
    if |lines| > 1 {
      TrimTerminated(lines[1..]);
    } else if |lines| == 1 {
      assert Terminated(lines[1..]) == "";
    }
  }

  /** strings.TrimRight(s, " \t"). */
  function TrimRight(s: string): string {
    if s != "" && (s[|s| - 1] == ' ' || s[|s| - 1] == '\t') then TrimRight(s[..|s| - 1]) else s
  }
}
