/** What the edit_file tool reports, and what it takes for the same text
    (plugins/edit/edit.go): which block fails and why, how often a text
    occurs, and which lines read alike. */
module EditMeaning {
  import opened Wrappers
  import opened TextLines
  import opened EditPatch
  import opened EditApply
  import opened EditFile

  // ------------------------------------------------------ lines read alike

  predicate SpaceOrTab(c: char) {
    c == ' ' || c == '\t'
  }

  /** A line loses its spaces and tabs at the end, and nothing else. */
  lemma {:induction false} TrimRightMeans(s: string) returns (k: nat)
    ensures k <= |s| && TrimRight(s) == s[..k]
    ensures (forall i | k <= i < |s| :: SpaceOrTab(s[i])) && (k == 0 || !SpaceOrTab(s[k - 1]))
    decreases |s|
  {
    k := |s|;
    if s != "" && SpaceOrTab(s[|s| - 1]) {
      k := TrimRightMeans(s[..|s| - 1]);
      assert s[..|s| - 1][..k] == s[..k];
      assert forall i | k <= i < |s| - 1 :: s[..|s| - 1][i] == s[i];
    }
  }

  /** Quotes, dashes and dots that are not plain. */
  predicate Typographic(c: char) {
    c in "\U{201C}\U{201D}\U{201E}\U{2018}\U{2019}\U{2013}\U{2014}\U{2212}\U{2026}"
  }

  predicate HasNone(s: string) {
    forall i | 0 <= i < |s| :: !Typographic(s[i])
  }

  lemma AsciiMeans(c: char)
    ensures HasNone(Ascii(c)) && Ascii(c) != "" && (!Typographic(c) ==> Ascii(c) == [c])
    ensures Typographic(c) ==> Ascii(c) in {"\"", "'", "-", "..."}
  {
    var all := "\U{201C}\U{201D}\U{201E}\U{2018}\U{2019}\U{2013}\U{2014}\U{2212}\U{2026}";
    assert all[0] == '\U{201C}' && all[1] == '\U{201D}' && all[2] == '\U{201E}' && all[3] == '\U{2018}' && all[4] == '\U{2019}';
    assert all[5] == '\U{2013}' && all[6] == '\U{2014}' && all[7] == '\U{2212}' && all[8] == '\U{2026}';
  }

  lemma {:induction false} ReplaceEachMeans(s: string)
    ensures HasNone(ReplaceEach(s)) && (HasNone(s) ==> ReplaceEach(s) == s)
  {
    if s != "" {
      AsciiMeans(s[0]);
      ReplaceEachMeans(s[1..]);
      assert s == [s[0]] + s[1..];
      if HasNone(s) {
        assert forall i | 0 <= i < |s[1..]| :: s[1..][i] == s[i + 1];
      }
    }
  }

  /** A line without such characters reads as itself without its trailing
      space, and every line reads as one without such characters. */
  lemma PlainLineIsItself(s: string)
    ensures HasNone(NormalizeLine(s)) && (HasNone(s) ==> NormalizeLine(s) == TrimRight(s))
  {
    var k := TrimRightMeans(s);
    ReplaceEachMeans(TrimRight(s));
  }

  // ------------------------------------------------------------ how often

  /** Matches of the text, none of which overlaps another. */
  ghost predicate Disjoint(s: string, sub: string, at: seq<nat>) {
    && (forall k | 0 <= k < |at| :: OccursAt(s, sub, at[k]))
    && (forall k, m | 0 <= k < m < |at| :: at[k] + |sub| <= at[m])
  }

  lemma OccursLater(s: string, sub: string, k: nat, j: nat)
    requires k <= j && k <= |s|
    ensures OccursAt(s, sub, j) <==> OccursAt(s[k..], sub, j - k)
  {
    if j + |sub| <= |s| { SliceOfTail(s, k, j, |sub|); }
  }

  /** The first match may stand for the first of the others. */
  lemma DisjointRest(s: string, sub: string, at: seq<nat>, i: nat) returns (rest: seq<nat>)
    requires sub != "" && Disjoint(s, sub, at) && at != [] && i <= at[0] && OccursAt(s, sub, i)
    ensures |rest| == |at| - 1 && Disjoint(s[i + |sub|..], sub, rest)
  {
    var lo := i + |sub|;
    rest := seq(|at| - 1, k requires 0 <= k < |at| - 1 => if at[k + 1] >= lo then at[k + 1] - lo else 0);
    forall k | 0 <= k < |rest|
      ensures rest[k] == at[k + 1] - lo && OccursAt(s[lo..], sub, rest[k])
    {
      assert at[0] + |sub| <= at[k + 1];
      OccursLater(s, sub, lo, at[k + 1]);
    }
    forall k, m | 0 <= k < m < |rest|
      ensures rest[k] + |sub| <= rest[m]
    {
      assert at[k + 1] + |sub| <= at[m + 1];
    }
  }

  lemma {:induction false} CountIsMost(s: string, sub: string, at: seq<nat>)
    requires sub != "" && Disjoint(s, sub, at)
    ensures |at| <= Count(s, sub)
    decreases |s|
  {
    if at != [] {
      var i := Index(s, sub);
      assert OccursAt(s, sub, at[0]);
      var rest := DisjointRest(s, sub, at, i);
      CountIsMost(s[i + |sub|..], sub, rest);
    }
  }

  lemma FirstAndLater(s: string, sub: string, i: nat, rest: seq<nat>) returns (at: seq<nat>)
    requires sub != "" && OccursAt(s, sub, i) && Disjoint(s[i + |sub|..], sub, rest)
    ensures Disjoint(s, sub, at) && |at| == |rest| + 1
  {
    var lo := i + |sub|;
    var later := seq(|rest|, k requires 0 <= k < |rest| => rest[k] + lo);
    at := [i] + later;
    forall k | 0 <= k < |at|
      ensures OccursAt(s, sub, at[k])
    {
      if k > 0 {
        assert OccursAt(s[lo..], sub, rest[k - 1]);
        OccursLater(s, sub, lo, rest[k - 1] + lo);
      }
    }
    forall k, m | 0 <= k < m < |at|
      ensures at[k] + |sub| <= at[m]
    {
      if k > 0 {
        assert rest[k - 1] + |sub| <= rest[m - 1];
      }
    }
  }

  lemma {:induction false} CountIsReached(s: string, sub: string) returns (at: seq<nat>)
    requires sub != ""
    ensures Disjoint(s, sub, at) && |at| == Count(s, sub)
    decreases |s|
  {
    at := [];
    var i := Index(s, sub);
    if i != -1 {
      var rest := CountIsReached(s[i + |sub|..], sub);
      at := FirstAndLater(s, sub, i, rest);
    }
  }

  /** strings.Count is the largest number of matches without overlap. */
  lemma CountIsLargest(s: string, sub: string)
    requires sub != ""
    ensures forall at: seq<nat> | Disjoint(s, sub, at) :: |at| <= Count(s, sub)
    ensures exists at: seq<nat> :: Disjoint(s, sub, at) && |at| == Count(s, sub)
  {
    forall at: seq<nat> | Disjoint(s, sub, at)
      ensures |at| <= Count(s, sub)
    {
      CountIsMost(s, sub, at);
    }
    var most := CountIsReached(s, sub);
  }

  // ------------------------------------------------------ why a block fails

  ghost predicate Occurs(content: string, search: string) {
    exists i :: OccursAt(content, search, i)
  }

  /** The number of matches that the error gives. */
  ghost predicate Duplicates(content: string, search: string, n: nat) {
    if Occurs(content, search) then (exists at: seq<nat> :: Disjoint(content, search, at) && |at| == n)
    else exists hits: seq<nat> ::
      && |hits| == n && (forall x, y | 0 <= x < y < |hits| :: hits[x] < hits[y])
      && forall h: nat :: h in hits <==> ReadsAlike(Split(content), Needle(search), h)
  }

  /** applyOne fails for an empty text, for one that is nowhere, exactly or
      alike, and for one that is there more than once. */
  lemma FailureMeans(content: string, b: Block, e: EditError)
    requires ApplyBlock(content, b) == Err(e)
    ensures match e
            case EmptyText => b.search == ""
            case NotFound => b.search != "" && !Occurs(content, b.search) && !SomeAlike(Split(content), Needle(b.search))
            case Duplicate(n) => b.search != "" && n >= 2 && Duplicates(content, b.search, n)
  {
    if b.search != "" {
      CountsNone(content, b.search);
      FirstHit(Split(content), Needle(b.search));
      if Count(content, b.search) > 1 {
        var at := CountIsReached(content, b.search);
        assert OccursAt(content, b.search, at[0]);
      } else {
        ManyAlike(content, b.search);
      }
    }
  }

  lemma ManyAlike(content: string, search: string)
    requires search != "" && !Occurs(content, search)
    ensures Duplicates(content, search, |Hits(Split(content), Needle(search))|)
  {
    var lines, needle := Split(content), Needle(search);
    var hits := Hits(lines, needle);
    HitsAre(lines, needle);
    forall h: nat
      ensures h in hits <==> ReadsAlike(lines, needle, h)
    {
      HitReadsAlike(lines, needle, h);
    }
  }

  // ------------------------------------------------------------ which block

  lemma {:induction false} FirstBadBlock(content: string, blocks: seq<Block>, k: nat, e: FileError) returns (i: nat)
    requires ApplyBlocks(content, blocks, k) == Err(e)
    ensures i < |blocks| && ApplyBlocks(content, blocks[..i], k).Ok?
    ensures ApplyBlock(ApplyBlocks(content, blocks[..i], k).value, blocks[i]).Err?
    ensures e == BadBlock(k + i, ApplyBlock(ApplyBlocks(content, blocks[..i], k).value, blocks[i]).error)
    decreases |blocks|
  {
    match ApplyBlock(content, blocks[0]) {
      case Err(_) =>
        i := 0;
        assert blocks[..0] == [];
      case Ok(next) =>
        var j := FirstBadBlock(next, blocks[1..], k + 1, e);
        i := j + 1;
        assert blocks[..i][0] == blocks[0] && blocks[..i][1..] == blocks[1..][..j];
    }
  }

  /** The block that a failed patch names is the first that cannot be applied,
      to what the blocks before it left; and its error is given. */
  lemma FailedBlockIsNamed(raw: string, patch: string, index: nat, e: EditError)
    requires Edited(raw, patch) == Err(BadBlock(index, e))
    ensures Parse(patch).Ok? && index < |Parse(patch).value|
    ensures var before := ApplyBlocks(ToLf(WithoutBom(raw)), Parse(patch).value[..index], 0);
            before.Ok? && ApplyBlock(before.value, Parse(patch).value[index]) == Err(e)
  {
    var i := FirstBadBlock(ToLf(WithoutBom(raw)), Parse(patch).value, 0, BadBlock(index, e));
  }

  // ------------------------------------------------------- malformed patches

  lemma {:induction false} ReadDone(done: seq<Block>, blocks: seq<Block>, rest: seq<string>)
    requires forall b | b in blocks :: Plain(b)
    ensures Blocks(Between(done), AllLinesOf(blocks) + rest) == Blocks(Between(done + blocks), rest)
    decreases |blocks|
  {
    if blocks == [] {
      assert AllLinesOf(blocks) + rest == rest && done + blocks == done;
    } else {
      var b, later := blocks[0], blocks[1..];
      assert blocks == [b] + later;
      BlockBefore(b, AllLinesOf(later));
      BlockBefore(b, AllLinesOf(later) + rest);
      Assoc(BlockLines(b, []), AllLinesOf(later), rest);
      ReadBlock(done, b, AllLinesOf(later) + rest);
      ReadDone(done + [b], later, rest);
      assert done + [b] + later == done + blocks;
    }
  }

  predicate EachPlain(blocks: seq<Block>) {
    forall b | b in blocks :: Plain(b)
  }

  predicate EachOfSearch(lines: seq<string>) {
    forall l | l in lines :: PlainSearchLine(l)
  }

  predicate EachOfReplace(lines: seq<string>) {
    forall l | l in lines :: PlainReplaceLine(l)
  }

  // The same and the layouts below, as lemmas pass them on: the one-point
  // quantifier keeps blocks and lines out of their proofs.

  ghost predicate AllPlain(blocks: seq<Block>) {
    forall x | x == blocks :: EachPlain(x)
  }

  ghost predicate SearchLines(lines: seq<string>) {
    forall x | x == lines :: EachOfSearch(x)
  }

  ghost predicate OfReplace(lines: seq<string>) {
    forall x | x == lines :: EachOfReplace(x)
  }

  ghost predicate BeginsSearch(last: seq<string>, search: seq<string>, rest: seq<string>) {
    last == [SearchMarker] + (search + rest)
  }

  ghost predicate BeginsReplace(last: seq<string>, replace: seq<string>, rest: seq<string>) {
    last == [SearchMarker] + ([] + ([SplitMarker] + (replace + rest)))
  }

  /** The lines of a block up to `rest`, in its search text ... */
  ghost predicate Searching(last: seq<string>, search: seq<string>, rest: seq<string>) {
    forall x | x == last :: BeginsSearch(x, search, rest)
  }

  /** ... and in its replacement, when it has no search text. */
  ghost predicate Searchless(last: seq<string>, replace: seq<string>, rest: seq<string>) {
    forall x | x == last :: BeginsReplace(x, replace, rest)
  }

  predicate IsOutcome(p: Parser, lines: seq<string>, r: Result<seq<Block>, ParseError>) {
    Blocks(p, lines) == r
  }

  /** The parser reads the lines to `r`. */
  ghost predicate Reads(p: Parser, lines: seq<string>, r: Result<seq<Block>, ParseError>) {
    forall x | x == r :: IsOutcome(p, lines, x)
  }

  lemma SearchRead(done: seq<Block>, search: seq<string>, rest: seq<string>, last: seq<string>, r: Result<seq<Block>, ParseError>)
    requires SearchLines(search) && Searching(last, search, rest) && Reads(Parser(InSearch, search, [], done), rest, r)
    ensures Reads(Between(done), last, r)
  {
    assert EachOfSearch(search) && BeginsSearch(last, search, rest) && IsOutcome(Parser(InSearch, search, [], done), rest, r);
    ReachSearch(done, search, rest);
  }

  lemma ReplaceRead(done: seq<Block>, replace: seq<string>, rest: seq<string>, last: seq<string>, r: Result<seq<Block>, ParseError>)
    requires OfReplace(replace) && Searchless(last, replace, rest) && Reads(Parser(InReplace, [], replace, done), rest, r)
    ensures Reads(Between(done), last, r)
  {
    assert EachOfReplace(replace) && BeginsReplace(last, replace, rest) && IsOutcome(Parser(InReplace, [], replace, done), rest, r);
    ReachReplace(done, [], replace, rest);
  }

  /** Complete blocks in front change nothing. */
  lemma DoneRead(blocks: seq<Block>, last: seq<string>, r: Result<seq<Block>, ParseError>)
    requires AllPlain(blocks) && Reads(Between(blocks), last, r)
    ensures Reads(Start, AllLinesOf(blocks) + last, r)
  {
    assert EachPlain(blocks) && IsOutcome(Between(blocks), last, r);
    ReadDone([], blocks, last);
    assert [] + blocks == blocks;
  }

  lemma EndInSearch(p: Parser)
    requires p.mode.InSearch?
    ensures Reads(p, [], Err(MissingSeparator(|p.blocks| + 1)))
  {
  }

  lemma MarkerInSearch(p: Parser, rest: seq<string>)
    requires p.mode.InSearch?
    ensures Reads(p, [SearchMarker] + rest, Err(MissingSeparator(|p.blocks| + 1)))
  {
    MarkersAreTrimmed();
    assert ([SearchMarker] + rest)[0] == SearchMarker;
  }

  lemma MarkerInReplace(p: Parser, rest: seq<string>)
    requires p.mode.InReplace? && p.search == []
    ensures Reads(p, [ReplaceMarker] + rest, Err(EmptySearch(|p.blocks| + 1)))
  {
    MarkersAreTrimmed();
    assert ([ReplaceMarker] + rest)[0] == ReplaceMarker;
  }

  /** A block whose search text never ends is named by its place ... */
  lemma UnendedSearch(blocks: seq<Block>, search: seq<string>, last: seq<string>)
    requires AllPlain(blocks) && SearchLines(search) && Searching(last, search, [])
    ensures Reads(Start, AllLinesOf(blocks) + last, Err(MissingSeparator(|blocks| + 1)))
  {
    EndInSearch(Parser(InSearch, search, [], blocks));
    SearchRead(blocks, search, [], last, Err(MissingSeparator(|blocks| + 1)));
    DoneRead(blocks, last, Err(MissingSeparator(|blocks| + 1)));
  }

  /** ... and so is one that another block cuts off. */
  lemma CutOffSearch(blocks: seq<Block>, search: seq<string>, rest: seq<string>, last: seq<string>)
    requires AllPlain(blocks) && SearchLines(search) && Searching(last, search, [SearchMarker] + rest)
    ensures Reads(Start, AllLinesOf(blocks) + last, Err(MissingSeparator(|blocks| + 1)))
  {
    MarkerInSearch(Parser(InSearch, search, [], blocks), rest);
    SearchRead(blocks, search, [SearchMarker] + rest, last, Err(MissingSeparator(|blocks| + 1)));
    DoneRead(blocks, last, Err(MissingSeparator(|blocks| + 1)));
  }

  /** A block without search text is named by its place. */
  lemma NoSearchText(blocks: seq<Block>, replace: seq<string>, rest: seq<string>, last: seq<string>)
    requires AllPlain(blocks) && OfReplace(replace) && Searchless(last, replace, [ReplaceMarker] + rest)
    ensures Reads(Start, AllLinesOf(blocks) + last, Err(EmptySearch(|blocks| + 1)))
  {
    MarkerInReplace(Parser(InReplace, [], replace, blocks), rest);
    ReplaceRead(blocks, replace, [ReplaceMarker] + rest, last, Err(EmptySearch(|blocks| + 1)));
    DoneRead(blocks, last, Err(EmptySearch(|blocks| + 1)));
  }

  // ----------------------------------------------------- marks and endings

  lemma {:induction false} CrlfThroughout(s: string)
    ensures EveryNewlineIsCrlf(ToCrlf(s))
    decreases |s|
  {
    if s != "" {
      CrlfThroughout(s[1..]);
      var rest := ToCrlf(s[1..]);
      var all := ToCrlf(s);
      var n := |all| - |rest|;
      assert all[n..] == rest;
      forall i | 0 <= i < |all| && all[i] == '\n'
        ensures CrlfAt(all, i - 1)
      {
        if i >= n {
          assert rest[i - n] == '\n' && CrlfAt(rest, i - n - 1);
          CrlfInTail(all, n, i - n - 1);
        }
      }
    }
  }

  /** A changed file keeps its mark, and a file with CR LF endings has no
      others afterwards. */
  lemma KeepsMarkAndEndings(raw: string, patch: string, out: string)
    requires Edited(raw, patch) == Ok(out) && out != raw
    ensures BOM <= raw ==> BOM <= out
    ensures HasCrlf(WithoutBom(raw)) ==> EveryNewlineIsCrlf(if BOM <= raw then out[|BOM|..] else out)
  {
    var content := WithoutBom(raw);
    var current := ApplyBlocks(ToLf(content), Parse(patch).value, 0).value;
    CrlfThroughout(current);
    assert "" + Restored(current, HasCrlf(content)) == Restored(current, HasCrlf(content));
    BomStripped(Restored(current, HasCrlf(content)));
    assert out == (if BOM <= raw then BOM else "") + Restored(current, HasCrlf(content));
    assert BOM <= raw ==> out[..|BOM|] == BOM && out[|BOM|..] == Restored(current, HasCrlf(content));
  }
}
