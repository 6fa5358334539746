/** Reading SEARCH/REPLACE blocks (plugins/edit/edit.go, parsePatch). */
module EditPatch {
  import opened Wrappers
  import opened TextLines

  const SearchMarker := "<<<<<<< SEARCH"
  const SplitMarker := "======="
  const ReplacePrefix := ">>>>>>>"
  const ReplaceMarker := ">>>>>>> REPLACE"

  datatype Block = Block(search: string, replace: string)

  datatype ParseError = MissingSeparator(block: nat) | EmptySearch(block: nat)

  datatype Mode = Outside | InSearch | InReplace

  /** The parser between two lines; `search` and `replace` are the lines read
      into the two builders. */
  datatype Parser = Parser(mode: Mode, search: seq<string>, replace: seq<string>, blocks: seq<Block>)

  const Start := Parser(Outside, [], [], [])

  predicate StartsReplace(line: string) {
    ReplacePrefix <= TrimRight(line)
  }

  function Flush(p: Parser): Result<Parser, ParseError> {
    match p.mode
    case Outside => Ok(p)
    case InSearch => Err(MissingSeparator(|p.blocks| + 1))
    case InReplace =>
      if p.search == [] then Err(EmptySearch(|p.blocks| + 1))
      else Ok(Parser(Outside, [], [], p.blocks + [Block(Join(p.search), Join(p.replace))]))
  }

  function ReadLine(p: Parser, line: string): Result<Parser, ParseError> {
    var t := TrimRight(line);
    if t == SearchMarker then
      var flushed :- Flush(p);
      Ok(flushed.(mode := InSearch))
    else if t == SplitMarker && p.mode.InSearch? then Ok(p.(mode := InReplace))
    else if StartsReplace(line) && p.mode.InReplace? then Flush(p)
    else match p.mode
      case Outside => Ok(p)
      case InSearch => Ok(p.(search := p.search + [line]))
      case InReplace => Ok(p.(replace := p.replace + [line]))
  }

  function ReadLines(p: Parser, lines: seq<string>): Result<Parser, ParseError>
    decreases |lines|
  {
    if lines == [] then Ok(p)
    else
      var next :- ReadLine(p, lines[0]);
      ReadLines(next, lines[1..])
  }

  /** The blocks that the parser ends with. */
  function Blocks(p: Parser, lines: seq<string>): Result<seq<Block>, ParseError> {
    var last :- ReadLines(p, lines);
    var flushed :- Flush(last);
    Ok(flushed.blocks)
  }

  function Parse(patch: string): Result<seq<Block>, ParseError> {
    Blocks(Start, Split(patch))
  }

  // ----------------------------------------------------------- round trip

  /** A block in the documented format. */
  function BlockText(b: Block): string {
    SearchMarker + "\n" + (b.search + "\n" + (SplitMarker + "\n" + (b.replace + "\n" + ReplaceMarker)))
  }

  function Format(blocks: seq<Block>): string {
    if blocks == [] then ""
    else if |blocks| == 1 then BlockText(blocks[0])
    else BlockText(blocks[0]) + "\n" + Format(blocks[1..])
  }

  predicate PlainSearchLine(line: string) {
    TrimRight(line) != SearchMarker && TrimRight(line) != SplitMarker
  }

  predicate PlainReplaceLine(line: string) {
    TrimRight(line) != SearchMarker && !StartsReplace(line)
  }

  /** No line of the block reads as the marker that ends its part. A bare
      "=======" in the replacement is no obstacle, although the package comment says so. */
  predicate Plain(b: Block) {
    && (forall l | l in Split(b.search) :: PlainSearchLine(l))
    && (forall l | l in Split(b.replace) :: PlainReplaceLine(l))
  }

  /** The lines of a block in front of other lines. */
  function BlockLines(b: Block, rest: seq<string>): seq<string> {
    [SearchMarker] + (Split(b.search) + ([SplitMarker] + (Split(b.replace) + ([ReplaceMarker] + rest))))
  }

  lemma LineFirst(l: string, rest: string)
    requires IsLine(l)
    ensures Split(l + "\n" + rest) == [l] + Split(rest)
  {
    SplitAtNewline(l, rest);
    SplitLine(l);
  }

  lemma SplitPart(marker: string, text: string, last: string)
    requires IsLine(marker) && IsLine(last)
    ensures Split(marker + "\n" + (text + "\n" + last)) == [marker] + (Split(text) + ([last] + []))
  {
    LineFirst(marker, text + "\n" + last);
    SplitAtNewline(text, last);
    SplitLine(last);
    assert [last] + [] == [last];
  }

  lemma SplitBlockText(b: Block)
    ensures Split(BlockText(b)) == BlockLines(b, [])
  {
    var middle := SplitMarker + "\n" + (b.replace + "\n" + ReplaceMarker);
    LineFirst(SearchMarker, b.search + "\n" + middle);
    SplitAtNewline(b.search, middle);
    SplitPart(SplitMarker, b.replace, ReplaceMarker);
  }

  lemma Assoc(a: seq<string>, b: seq<string>, c: seq<string>)
    ensures a + b + c == a + (b + c)
  {
  }

  lemma BlockBefore(b: Block, rest: seq<string>)
    ensures BlockLines(b, []) + rest == BlockLines(b, rest)
  {
    var l0 := [ReplaceMarker] + [];
    var l1 := Split(b.replace) + l0;
    var l2 := [SplitMarker] + l1;
    Assoc([ReplaceMarker], [], rest);
    assert [] + rest == rest;
    Assoc(Split(b.replace), l0, rest);
    Assoc([SplitMarker], l1, rest);
    Assoc(Split(b.search), l2, rest);
    Assoc([SearchMarker], Split(b.search) + l2, rest);
  }

  lemma SplitAt(xs: seq<string>, i: nat, rest: seq<string>)
    requires i < |xs|
    ensures xs + rest == xs[..i] + ([xs[i]] + (xs[i + 1..] + rest))
  {
    assert xs == xs[..i] + ([xs[i]] + xs[i + 1..]);
    Assoc(xs[..i], [xs[i]] + xs[i + 1..], rest);
    Assoc([xs[i]], xs[i + 1..], rest);
  }

  lemma {:induction false} ReadAppend(p: Parser, xs: seq<string>, ys: seq<string>)
    ensures ReadLines(p, xs + ys) == if ReadLines(p, xs).Ok? then ReadLines(ReadLines(p, xs).value, ys) else ReadLines(p, xs)
    decreases |xs|
  {
    if xs == [] {
      assert xs + ys == ys;
    } else {
      assert (xs + ys)[0] == xs[0] && (xs + ys)[1..] == xs[1..] + ys;
      if ReadLine(p, xs[0]).Ok? {
        ReadAppend(ReadLine(p, xs[0]).value, xs[1..], ys);
      }
    }
  }

  lemma ReadsFrom(p: Parser, xs: seq<string>, ys: seq<string>, mid: Parser)
    requires ReadLines(p, xs) == Ok(mid)
    ensures ReadLines(p, xs + ys) == ReadLines(mid, ys) && Blocks(p, xs + ys) == Blocks(mid, ys)
  {
    ReadAppend(p, xs, ys);
  }

  lemma {:induction false} ReadSearch(p: Parser, lines: seq<string>)
    requires p.mode.InSearch? && forall l | l in lines :: PlainSearchLine(l)
    ensures ReadLines(p, lines) == Ok(p.(search := p.search + lines))
    decreases |lines|
  {
    if lines == [] {
      assert p.search + lines == p.search;
    } else {
      assert PlainSearchLine(lines[0]);
      ReadSearch(p.(search := p.search + [lines[0]]), lines[1..]);
      assert p.search + [lines[0]] + lines[1..] == p.search + lines;
    }
  }

  lemma {:induction false} ReadReplace(p: Parser, lines: seq<string>)
    requires p.mode.InReplace? && forall l | l in lines :: PlainReplaceLine(l)
    ensures ReadLines(p, lines) == Ok(p.(replace := p.replace + lines))
    decreases |lines|
  {
    if lines == [] {
      assert p.replace + lines == p.replace;
    } else {
      assert PlainReplaceLine(lines[0]);
      ReadReplace(p.(replace := p.replace + [lines[0]]), lines[1..]);
      assert p.replace + [lines[0]] + lines[1..] == p.replace + lines;
    }
  }

  lemma MarkersAreTrimmed()
    ensures TrimRight(SearchMarker) == SearchMarker && TrimRight(SplitMarker) == SplitMarker && StartsReplace(ReplaceMarker)
    ensures TrimRight(ReplaceMarker) == ReplaceMarker && SearchMarker != SplitMarker
    ensures ReplaceMarker != SearchMarker && ReplaceMarker != SplitMarker
  {
    assert ReplacePrefix == ReplaceMarker[..7];
    assert SearchMarker[0] != SplitMarker[0] && ReplaceMarker[0] != SearchMarker[0] && ReplaceMarker[0] != SplitMarker[0];
  }

  /** Inside a block, after its search text was read. */
  function AtReplace(done: seq<Block>, search: seq<string>): Parser {
    Parser(InReplace, search, [], done)
  }

  function Between(done: seq<Block>): Parser {
    Parser(Outside, [], [], done)
  }

  lemma ReadsLine(p: Parser, line: string, rest: seq<string>)
    ensures ReadLine(p, line).Ok? ==> Blocks(p, [line] + rest) == Blocks(ReadLine(p, line).value, rest)
    ensures ReadLine(p, line).Err? ==> Blocks(p, [line] + rest).Err?
  {
    assert ([line] + rest)[1..] == rest;
  }

  lemma ReachSearch(done: seq<Block>, search: seq<string>, rest: seq<string>)
    requires forall l | l in search :: PlainSearchLine(l)
    ensures Blocks(Between(done), [SearchMarker] + (search + rest)) == Blocks(Parser(InSearch, search, [], done), rest)
  {
    MarkersAreTrimmed();
    ReadsLine(Between(done), SearchMarker, search + rest);
    var p := Parser(InSearch, [], [], done);
    assert [] + search == search;
    ReadSearch(p, search);
    ReadsFrom(p, search, rest, Parser(InSearch, search, [], done));
  }

  lemma ReachReplace(done: seq<Block>, search: seq<string>, replace: seq<string>, rest: seq<string>)
    requires forall l | l in search :: PlainSearchLine(l)
    requires forall l | l in replace :: PlainReplaceLine(l)
    ensures Blocks(Between(done), [SearchMarker] + (search + ([SplitMarker] + (replace + rest))))
         == Blocks(Parser(InReplace, search, replace, done), rest)
  {
    MarkersAreTrimmed();
    ReachSearch(done, search, [SplitMarker] + (replace + rest));
    ReadsLine(Parser(InSearch, search, [], done), SplitMarker, replace + rest);
    var p := AtReplace(done, search);
    assert [] + replace == replace;
    ReadReplace(p, replace);
    ReadsFrom(p, replace, rest, Parser(InReplace, search, replace, done));
  }

  lemma ReadBlock(done: seq<Block>, b: Block, rest: seq<string>)
    requires Plain(b)
    ensures Blocks(Between(done), BlockLines(b, rest)) == Blocks(Between(done + [b]), rest)
  {
    MarkersAreTrimmed();
    ReachReplace(done, Split(b.search), Split(b.replace), [ReplaceMarker] + rest);
    JoinSplit(b.search);
    JoinSplit(b.replace);
    ReadsLine(Parser(InReplace, Split(b.search), Split(b.replace), done), ReplaceMarker, rest);
  }

  // ------------------------------------------------------ when it goes wrong

  /** Blocks once read stay, and so does the search text of the block being read. */
  lemma {:induction false} BlocksExtend(p: Parser, lines: seq<string>)
    ensures Blocks(p, lines).Ok? ==>
              && p.blocks <= Blocks(p, lines).value
              && (p.mode.InReplace? ==>
                    |p.blocks| < |Blocks(p, lines).value|
                    && Blocks(p, lines).value[|p.blocks|].search == Join(p.search) && p.search != [])
    decreases |lines|
  {
    if lines != [] && ReadLine(p, lines[0]).Ok? {
      BlocksExtend(ReadLine(p, lines[0]).value, lines[1..]);
    }
  }

  lemma JoinIsInjective(xs: seq<string>, ys: seq<string>)
    requires xs != [] && ys != [] && AllLines(xs) && AllLines(ys)
    ensures Join(xs) == Join(ys) ==> xs == ys
  {
    SplitJoin(xs);
    SplitJoin(ys);
  }

  lemma {:induction false} FirstBad(lines: seq<string>, plain: string -> bool) returns (i: nat)
    requires exists l :: l in lines && !plain(l)
    ensures i < |lines| && !plain(lines[i]) && forall l | l in lines[..i] :: plain(l)
    decreases |lines|
  {
    if !plain(lines[0]) {
      i := 0;
    } else {
      var l :| l in lines && !plain(l);
      assert lines == [lines[0]] + lines[1..];
      var j := FirstBad(lines[1..], plain);
      i := j + 1;
      assert lines[..i] == [lines[0]] + lines[1..][..j];
    }
  }

  /** The block was not read back as it was written. */
  predicate Misread(r: Result<seq<Block>, ParseError>, k: nat, b: Block) {
    r.Ok? ==> |r.value| > k && r.value[k] != b
  }

  lemma BadSearchIsMisread(done: seq<Block>, b: Block, rest: seq<string>)
    requires exists l :: l in Split(b.search) && !PlainSearchLine(l)
    ensures Misread(Blocks(Between(done), BlockLines(b, rest)), |done|, b)
  {
    var search := Split(b.search);
    var i := FirstBad(search, PlainSearchLine);
    var tail := [SplitMarker] + (Split(b.replace) + ([ReplaceMarker] + rest));
    SplitAt(search, i, tail);
    ReachSearch(done, search[..i], [search[i]] + (search[i + 1..] + tail));
    BadSearchLine(done, b, i, search[i + 1..] + tail);
  }

  lemma BadSearchLine(done: seq<Block>, b: Block, i: nat, rest: seq<string>)
    requires i < |Split(b.search)| && !PlainSearchLine(Split(b.search)[i])
    ensures var search := Split(b.search);
            Misread(Blocks(Parser(InSearch, search[..i], [], done), [search[i]] + rest), |done|, b)
  {
    var search := Split(b.search);
    ReadsLine(Parser(InSearch, search[..i], [], done), search[i], rest);
    if TrimRight(search[i]) != SearchMarker {
      BlocksExtend(AtReplace(done, search[..i]), rest);
      JoinSplit(b.search);
      if i > 0 {
        JoinIsInjective(search[..i], search);
      }
    }
  }

  lemma BadReplaceIsMisread(done: seq<Block>, b: Block, rest: seq<string>)
    requires forall l | l in Split(b.search) :: PlainSearchLine(l)
    requires exists l :: l in Split(b.replace) && !PlainReplaceLine(l)
    ensures Misread(Blocks(Between(done), BlockLines(b, rest)), |done|, b)
  {
    var search, replace := Split(b.search), Split(b.replace);
    var i := FirstBad(replace, PlainReplaceLine);
    var tail := [ReplaceMarker] + rest;
    SplitAt(replace, i, tail);
    ReachReplace(done, search, replace[..i], [replace[i]] + (replace[i + 1..] + tail));
    BadReplaceLine(done, b, i, replace[i + 1..] + tail);
  }

  lemma BadReplaceLine(done: seq<Block>, b: Block, i: nat, rest: seq<string>)
    requires i < |Split(b.replace)| && !PlainReplaceLine(Split(b.replace)[i])
    ensures var replace := Split(b.replace);
            Misread(Blocks(Parser(InReplace, Split(b.search), replace[..i], done), [replace[i]] + rest), |done|, b)
  {
    MarkersAreTrimmed();
    var replace := Split(b.replace);
    var p := Parser(InReplace, Split(b.search), replace[..i], done);
    ReadsLine(p, replace[i], rest);
    CutReplaceDiffers(b, i);
    BlocksExtend(ReadLine(p, replace[i]).value, rest);
  }

  lemma CutReplaceDiffers(b: Block, i: nat)
    requires i < |Split(b.replace)| && !PlainReplaceLine(Split(b.replace)[i])
    ensures Join(Split(b.replace)[..i]) != b.replace
  {
    var replace := Split(b.replace);
    JoinSplit(b.replace);
    if i > 0 {
      JoinIsInjective(replace[..i], replace);
    } else {
      assert TrimRight("") == "";
      assert replace[0] != "";
    }
  }

  // ------------------------------------------------------------- the theorem

  lemma NotPlainIsMisread(done: seq<Block>, b: Block, rest: seq<string>)
    requires !Plain(b)
    ensures Misread(Blocks(Between(done), BlockLines(b, rest)), |done|, b)
  {
    if !(forall l | l in Split(b.search) :: PlainSearchLine(l)) {
      BadSearchIsMisread(done, b, rest);
    } else {
      BadReplaceIsMisread(done, b, rest);
    }
  }

  function AllLinesOf(blocks: seq<Block>): seq<string> {
    if blocks == [] then [] else BlockLines(blocks[0], AllLinesOf(blocks[1..]))
  }

  lemma {:induction false} SplitFormat(blocks: seq<Block>)
    requires blocks != []
    ensures Split(Format(blocks)) == AllLinesOf(blocks)
    decreases |blocks|
  {
    SplitBlockText(blocks[0]);
    if |blocks| > 1 {
      SplitFormat(blocks[1..]);
      SplitAtNewline(BlockText(blocks[0]), Format(blocks[1..]));
      BlockBefore(blocks[0], AllLinesOf(blocks[1..]));
    }
  }

  lemma {:induction false} BlocksOfLines(done: seq<Block>, blocks: seq<Block>)
    ensures Blocks(Between(done), AllLinesOf(blocks)) == Ok(done + blocks) <==> forall b | b in blocks :: Plain(b)
    decreases |blocks|
  {
    if blocks == [] {
      assert done + blocks == done;
    } else {
      var b, later := blocks[0], blocks[1..];
      assert blocks == [b] + later && (done + blocks)[|done|] == b;
      if Plain(b) {
        ReadBlock(done, b, AllLinesOf(later));
        BlocksOfLines(done + [b], later);
        assert done + [b] + later == done + blocks;
      } else {
        NotPlainIsMisread(done, b, AllLinesOf(later));
      }
    }
  }

  /** parsePatch inverts the documented format exactly on the lists of plain
      blocks: any other list comes back as an error or as other blocks. */
  lemma ParseInvertsFormat(blocks: seq<Block>)
    ensures Parse(Format(blocks)) == Ok(blocks) <==> forall b | b in blocks :: Plain(b)
  {
    if blocks != [] {
      SplitFormat(blocks);
      BlocksOfLines([], blocks);
      assert [] + blocks == blocks;
    } else {
      assert TrimRight("") == "";
      assert [""][1..] == [];
      assert ReadLine(Start, "") == Ok(Start);
    }
  }

  // ------------------------------------------------------------- the parser

  function ModeNumber(m: Mode): int {
    match m case Outside => 0 case InSearch => 1 case InReplace => 2
  }

  /** parsePatch with its two builders. */
  method ParsePatch(patch: string) returns (r: Result<seq<Block>, ParseError>)
    ensures r == Parse(patch)
  {
    var blocks, search, replace, mode := [], "", "", 0;
    var lines := Split(patch);
    ghost var p := Start;
    for i := 0 to |lines|
      invariant Blocks(p, lines[i..]) == Parse(patch)
      invariant mode == ModeNumber(p.mode) && blocks == p.blocks
      invariant search == Terminated(p.search) && replace == Terminated(p.replace)
      invariant p.mode.Outside? ==> p.search == [] && p.replace == []
      invariant p.mode.InSearch? ==> p.replace == []
    {
      var line := lines[i];
      var t := TrimRight(line);
      assert lines[i..] == [line] + lines[i + 1..];
      TerminatedSnoc(p.search, line);
      TerminatedSnoc(p.replace, line);
      if t == SearchMarker || (ReplacePrefix <= t && mode == 2) {
        TrimTerminated(p.search);
        TrimTerminated(p.replace);
        if mode == 1 {
          return Err(MissingSeparator(|blocks| + 1));
        }
        if mode == 2 {
          if search == "" {
            return Err(EmptySearch(|blocks| + 1));
          }
          blocks, search, replace := blocks + [Block(TrimNewline(search), TrimNewline(replace))], "", "";
        }
        mode := if t == SearchMarker then 1 else 0;
      } else if t == SplitMarker && mode == 1 {
        mode := 2;
      } else if mode == 1 {
        search := search + line + "\n";
      } else if mode == 2 {
        replace := replace + line + "\n";
      }
      p := ReadLine(p, line).value;
    }
    assert lines[|lines|..] == [];
    TrimTerminated(p.search);
    TrimTerminated(p.replace);
    if mode == 1 {
      return Err(MissingSeparator(|blocks| + 1));
    }
    if mode == 2 {
      if search == "" {
        return Err(EmptySearch(|blocks| + 1));
      }
      blocks := blocks + [Block(TrimNewline(search), TrimNewline(replace))];
    }
    return Ok(blocks);
  }
}
