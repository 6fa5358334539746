/** Applying SEARCH/REPLACE blocks to a text (plugins/edit/edit.go, applyOne,
    fuzzyFind, replaceLineRange and the text part of apply). */
module EditApply {
  import opened Wrappers
  import opened TextLines
  import opened EditPatch

  /** A block's error, with the number of matches when there are too many. */
  datatype EditError = EmptyText | Duplicate(occurrences: nat) | NotFound

  datatype FileError = BadPatch(error: ParseError) | NoBlocks | BadBlock(index: nat, reason: EditError)

  // -------------------------------------------------------------- substrings

  predicate OccursAt(s: string, sub: string, i: int) {
    0 <= i && i + |sub| <= |s| && s[i..i + |sub|] == sub
  }

  lemma InTheTail(s: string, sub: string)
    requires s != ""
    ensures forall i | i > 0 :: OccursAt(s, sub, i) <==> OccursAt(s[1..], sub, i - 1)
    ensures forall i :: OccursAt(s[1..], sub, i) ==> OccursAt(s, sub, i + 1)
  {
    forall i | i > 0 ensures OccursAt(s, sub, i) <==> OccursAt(s[1..], sub, i - 1) {
      if i + |sub| <= |s| { SliceOfTail(s, 1, i, |sub|); }
    }
    forall i | OccursAt(s[1..], sub, i) ensures OccursAt(s, sub, i + 1) {
      SliceOfTail(s, 1, i + 1, |sub|);
    }
  }

  lemma SliceOfTail(s: string, k: nat, i: nat, n: nat)
    requires k <= i && i + n <= |s|
    ensures s[i..i + n] == s[k..][i - k..i - k + n]
  {
  }

  /** strings.Index. */
  function Index(s: string, sub: string): (r: int)
    requires sub != ""
    ensures r == -1 ==> forall i :: !OccursAt(s, sub, i)
    ensures r != -1 ==> OccursAt(s, sub, r) && forall i :: OccursAt(s, sub, i) ==> r <= i
    decreases |s|
  {
    if s == "" then -1
    else if OccursAt(s, sub, 0) then 0
    else
      var r := Index(s[1..], sub);
      InTheTail(s, sub);
      if r == -1 then -1 else r + 1
  }

  /** strings.Count: matches are counted from the left without overlap. */
  function Count(s: string, sub: string): nat
    requires sub != ""
    decreases |s|
  {
    var i := Index(s, sub);
    if i == -1 then 0 else 1 + Count(s[i + |sub|..], sub)
  }

  /** The only matches are this one and those that overlap it. */
  predicate OnlyAt(s: string, sub: string, i: int) {
    OccursAt(s, sub, i) && forall j | i + |sub| <= j <= |s| - |sub| :: !OccursAt(s, sub, j)
  }

  lemma LaterOccurrences(s: string, sub: string, k: nat)
    requires sub != "" && k <= |s|
    ensures Index(s[k..], sub) == -1 <==> forall j | k <= j <= |s| - |sub| :: !OccursAt(s, sub, j)
  {
    var r := Index(s[k..], sub);
    forall j | k <= j <= |s| - |sub|
      ensures OccursAt(s, sub, j) <==> OccursAt(s[k..], sub, j - k)
    {
      SliceOfTail(s, k, j, |sub|);
    }
    if r != -1 {
      assert k <= r + k <= |s| - |sub| && OccursAt(s, sub, r + k);
    }
  }

  lemma CountStarts(s: string, sub: string)
    requires sub != ""
    ensures Count(s, sub) == 0 <==> Index(s, sub) == -1
  {
  }

  lemma CountNext(s: string, sub: string, i: nat, rest: string)
    requires sub != "" && i == Index(s, sub) && rest == s[i + |sub|..]
    ensures Count(s, sub) == 1 + Count(rest, sub)
    ensures OccursAt(s, sub, i)
  {
  }

  lemma OnlyThere(s: string, sub: string, i: nat, rest: string)
    requires sub != "" && OccursAt(s, sub, i) && rest == s[i + |sub|..]
    ensures OnlyAt(s, sub, i) <==> Index(rest, sub) == -1
  {
    LaterOccurrences(s, sub, i + |sub|);
  }

  lemma CountsOne(s: string, sub: string)
    requires sub != ""
    ensures Count(s, sub) == 1 <==> Index(s, sub) != -1 && OnlyAt(s, sub, Index(s, sub))
  {
    CountStarts(s, sub);
    if Index(s, sub) != -1 {
      CountsOneAt(s, sub, Index(s, sub), s[Index(s, sub) + |sub|..]);
    }
  }

  lemma CountsOneAt(s: string, sub: string, i: nat, rest: string)
    requires sub != "" && i == Index(s, sub) && rest == s[i + |sub|..]
    ensures Count(s, sub) == 1 <==> OnlyAt(s, sub, i)
  {
    CountNext(s, sub, i, rest);
    CountStarts(rest, sub);
    OnlyThere(s, sub, i, rest);
  }

  lemma CountsNone(s: string, sub: string)
    requires sub != ""
    ensures Count(s, sub) == 0 <==> forall i :: !OccursAt(s, sub, i)
  {
    CountStarts(s, sub);
  }

  ghost predicate Unique(s: string, sub: string) {
    forall i, j :: OccursAt(s, sub, i) && OccursAt(s, sub, j) ==> i == j
  }

  /** No end of the text is also its beginning. */
  predicate Unbordered(sub: string) {
    forall k | 0 < k < |sub| :: sub[k..] != sub[..|sub| - k]
  }

  /** Two matches that overlap give the text a border. */
  lemma OverlapIsBorder(s: string, sub: string, i: int, j: int)
    requires OccursAt(s, sub, i) && OccursAt(s, sub, j) && i < j < i + |sub|
    ensures !Unbordered(sub)
  {
    var k := j - i;
    assert sub[k..] == s[j..i + |sub|] == sub[..|sub| - k];
  }

  /** A text that overlaps itself occurs twice here and is counted once. */
  function Overlapping(sub: string, k: nat): string
    requires 0 < k < |sub|
  {
    sub[..k] + sub
  }

  lemma OverlapCountsOnce(sub: string, k: nat)
    requires 0 < k < |sub| && sub[k..] == sub[..|sub| - k]
    ensures Count(Overlapping(sub, k), sub) == 1 && !Unique(Overlapping(sub, k), sub)
  {
    OverlapsTwice(sub, k);
    TwiceCountsOnce(Overlapping(sub, k), sub, k);
  }

  lemma TwiceCountsOnce(s: string, sub: string, k: nat)
    requires 0 < k < |sub| && |s| == |sub| + k && OccursAt(s, sub, 0) && OccursAt(s, sub, k)
    ensures Count(s, sub) == 1 && !Unique(s, sub)
  {
    FirstOccurrence(s, sub);
    CountsOneAt(s, sub, 0, s[|sub|..]);
  }

  lemma FirstOccurrence(s: string, sub: string)
    requires sub != "" && OccursAt(s, sub, 0)
    ensures Index(s, sub) == 0
  {
  }

  lemma OverlapsTwice(sub: string, k: nat)
    requires 0 < k < |sub| && sub[k..] == sub[..|sub| - k]
    ensures OccursAt(Overlapping(sub, k), sub, 0) && OccursAt(Overlapping(sub, k), sub, k)
  {
    var s := Overlapping(sub, k);
    FirstPart(sub, k);
    assert s[0..|sub|] == sub[..k] + sub[..|sub| - k];
    assert s[k..k + |sub|] == sub;
  }

  lemma FirstPart(sub: string, k: nat)
    requires 0 < k < |sub| && sub[k..] == sub[..|sub| - k]
    ensures sub[..k] + sub[..|sub| - k] == sub
  {
    assert sub[..k] + sub[k..] == sub;
  }

  /** The package promises that an exact match is unique. That holds for every
      file exactly when the search text does not overlap itself. */
  lemma ExactMatchIsUnique(sub: string)
    requires sub != ""
    ensures Unbordered(sub) <==> forall s :: Count(s, sub) == 1 ==> Unique(s, sub)
  {
    if Unbordered(sub) {
      forall s | Count(s, sub) == 1 ensures Unique(s, sub) {
        CountsOne(s, sub);
        var first := Index(s, sub);
        forall i | OccursAt(s, sub, i) ensures i == first {
          if first < i < first + |sub| { OverlapIsBorder(s, sub, first, i); }
        }
      }
    } else {
      var k :| 0 < k < |sub| && sub[k..] == sub[..|sub| - k];
      OverlapCountsOnce(sub, k);
    }
  }

  // ----------------------------------------------------------- line windows

  /** asciiNormalize: typographic quotes, dashes and dots. */
  function Ascii(c: char): string {
    if c in {'\U{201C}', '\U{201D}', '\U{201E}'} then "\""
    else if c in {'\U{2018}', '\U{2019}'} then "'"
    else if c in {'\U{2013}', '\U{2014}', '\U{2212}'} then "-"
    else if c == '\U{2026}' then "..."
    else [c]
  }

  function ReplaceEach(s: string): string {
    if s == "" then "" else Ascii(s[0]) + ReplaceEach(s[1..])
  }

  function NormalizeLine(s: string): string {
    ReplaceEach(TrimRight(s))
  }

  function NormalizedLines(lines: seq<string>): (norm: seq<string>)
    ensures |norm| == |lines|
  {
    seq(|lines|, i requires 0 <= i < |lines| => NormalizeLine(lines[i]))
  }

  predicate WindowAt(norm: seq<string>, wanted: seq<string>, i: nat) {
    i + |wanted| <= |norm| && norm[i..i + |wanted|] == wanted
  }

  /** The window of lines from `i` on reads like the needle. */
  predicate HitAt(lines: seq<string>, needle: seq<string>, i: nat) {
    WindowAt(NormalizedLines(lines), NormalizedLines(needle), i)
  }

  /** Line by line, but for trailing space and typographic characters, the
      lines from `i` on are those of the needle. */
  predicate ReadsAlike(lines: seq<string>, needle: seq<string>, i: nat) {
    && i + |needle| <= |lines|
    && forall k | 0 <= k < |needle| :: NormalizeLine(lines[i + k]) == NormalizeLine(needle[k])
  }

  lemma HitReadsAlike(lines: seq<string>, needle: seq<string>, i: nat)
    ensures HitAt(lines, needle, i) <==> ReadsAlike(lines, needle, i)
  {
    var norm, wanted := NormalizedLines(lines), NormalizedLines(needle);
    if i + |needle| <= |lines| {
      forall k | 0 <= k < |needle|
        ensures norm[i..i + |needle|][k] == NormalizeLine(lines[i + k]) && wanted[k] == NormalizeLine(needle[k])
      {
      }
    }
  }

  function WindowsBelow(norm: seq<string>, wanted: seq<string>, n: nat): seq<nat> {
    if n == 0 then []
    else WindowsBelow(norm, wanted, n - 1) + if WindowAt(norm, wanted, n - 1) then [n - 1] else []
  }

  lemma {:induction false} InWindows(norm: seq<string>, wanted: seq<string>, n: nat, i: nat)
    ensures i in WindowsBelow(norm, wanted, n) <==> i < n && WindowAt(norm, wanted, i)
  {
    if n > 0 {
      InWindows(norm, wanted, n - 1, i);
    }
  }

  lemma {:induction false} WindowsAscend(norm: seq<string>, wanted: seq<string>, n: nat, x: nat, y: nat)
    requires x < y < |WindowsBelow(norm, wanted, n)|
    ensures WindowsBelow(norm, wanted, n)[x] < WindowsBelow(norm, wanted, n)[y]
  {
    var below := WindowsBelow(norm, wanted, n - 1);
    if y < |below| {
      WindowsAscend(norm, wanted, n - 1, x, y);
    } else {
      InWindows(norm, wanted, n - 1, below[x]);
    }
  }

  /** All the windows below n, in ascending order. */
  lemma WindowsAre(norm: seq<string>, wanted: seq<string>, n: nat)
    ensures var hits := WindowsBelow(norm, wanted, n);
            && (forall i: nat :: i in hits <==> i < n && WindowAt(norm, wanted, i))
            && (forall x, y | 0 <= x < y < |hits| :: hits[x] < hits[y])
  {
    forall i: nat
      ensures i in WindowsBelow(norm, wanted, n) <==> i < n && WindowAt(norm, wanted, i)
    {
      InWindows(norm, wanted, n, i);
    }
    forall x, y | 0 <= x < y < |WindowsBelow(norm, wanted, n)|
      ensures WindowsBelow(norm, wanted, n)[x] < WindowsBelow(norm, wanted, n)[y]
    {
      WindowsAscend(norm, wanted, n, x, y);
    }
  }

  /** The windows of the file that read like the needle. */
  function Hits(lines: seq<string>, needle: seq<string>): seq<nat> {
    WindowsBelow(NormalizedLines(lines), NormalizedLines(needle), |lines| + 1)
  }

  lemma HitsAre(lines: seq<string>, needle: seq<string>)
    requires needle != []
    ensures var hits := Hits(lines, needle);
            && (forall i: nat :: i in hits <==> HitAt(lines, needle, i))
            && (forall x, y | 0 <= x < y < |hits| :: hits[x] < hits[y])
  {
    WindowsAre(NormalizedLines(lines), NormalizedLines(needle), |lines| + 1);
  }

  function Needle(search: string): seq<string> {
    Split(TrimNewline(search))
  }

  method WindowMatches(norm: seq<string>, wanted: seq<string>, i: nat) returns (same: bool)
    requires i + |wanted| <= |norm|
    ensures same == WindowAt(norm, wanted, i)
  {
    for k := 0 to |wanted|
      invariant norm[i..i + k] == wanted[..k]
    {
      if norm[i + k] != wanted[k] {
        assert norm[i..i + |wanted|][k] != wanted[k];
        return false;
      }
      assert norm[i..i + k + 1] == norm[i..i + k] + [norm[i + k]];
      assert wanted[..k + 1] == wanted[..k] + [wanted[k]];
    }
    return true;
  }

  method FindWindows(norm: seq<string>, wanted: seq<string>) returns (hits: seq<nat>)
    requires wanted != []
    ensures hits == WindowsBelow(norm, wanted, |norm| + 1)
  {
    hits := [];
    var i := 0;
    while i + |wanted| <= |norm|
      invariant 0 <= i <= |norm| + 1 && hits == WindowsBelow(norm, wanted, i)
    {
      var same := WindowMatches(norm, wanted, i);
      if same {
        hits := hits + [i];
      }
      i := i + 1;
    }
    NoLaterWindows(norm, wanted, i);
  }

  lemma {:induction false} NoLaterWindows(norm: seq<string>, wanted: seq<string>, i: nat)
    requires i <= |norm| + 1 < i + |wanted| + 1
    ensures WindowsBelow(norm, wanted, i) == WindowsBelow(norm, wanted, |norm| + 1)
    decreases |norm| + 1 - i
  {
    if i <= |norm| {
      NoLaterWindows(norm, wanted, i + 1);
    }
  }

  ghost predicate SomeAlike(lines: seq<string>, needle: seq<string>) {
    exists i: nat :: ReadsAlike(lines, needle, i)
  }

  /** The first place where the lines read like the needle. */
  ghost predicate FirstAlike(lines: seq<string>, needle: seq<string>, i: nat) {
    ReadsAlike(lines, needle, i) && forall j: nat | ReadsAlike(lines, needle, j) :: i <= j
  }

  lemma FirstHit(lines: seq<string>, needle: seq<string>)
    requires needle != []
    ensures var hits := Hits(lines, needle);
            && (hits != [] <==> SomeAlike(lines, needle))
            && (hits != [] ==> FirstAlike(lines, needle, hits[0]))
  {
    var hits := Hits(lines, needle);
    HitsAre(lines, needle);
    forall i: nat
      ensures ReadsAlike(lines, needle, i) <==> i in hits
    {
      HitReadsAlike(lines, needle, i);
    }
    if hits != [] {
      assert hits[0] in hits;
      assert ReadsAlike(lines, needle, hits[0]);
    }
  }

  /** fuzzyFind: where the lines first read like the search text, and how often
      they do. */
  method FuzzyFind(content: string, search: string) returns (start: int, occurrences: nat, ok: bool)
    ensures ok <==> SomeAlike(Split(content), Needle(search))
    ensures ok ==> start >= 0 && FirstAlike(Split(content), Needle(search), start)
    ensures var hits := Hits(Split(content), Needle(search));
            && occurrences == |hits|
            && ok == (hits != [])
            && start == if hits == [] then -1 else hits[0]
  {
    var hits := FindWindows(NormalizedLines(Split(content)), NormalizedLines(Split(TrimNewline(search))));
    FirstHit(Split(content), Needle(search));
    if hits == [] {
      return -1, 0, false;
    }
    return hits[0], |hits|, true;
  }

  // -------------------------------------------------------------- one block

  /** `n` lines from `start` on give way to those of the replacement; an empty
      replacement has none. */
  function Spliced(lines: seq<string>, start: nat, n: nat, replacement: string): (r: seq<string>)
    requires start + n <= |lines| && AllLines(lines)
    ensures AllLines(r)
  {
    lines[..start] + (if replacement != "" then Split(replacement) else []) + lines[start + n..]
  }

  /** replaceLineRange. */
  function ReplaceLines(content: string, start: nat, n: nat, replacement: string): string
    requires start + n <= |Split(content)|
  {
    Join(Spliced(Split(content), start, n, replacement))
  }

  function ReplaceAt(content: string, i: nat, n: nat, replacement: string): string
    requires i + n <= |content|
  {
    content[..i] + replacement + content[i + n..]
  }

  function ApplyBlock(content: string, b: Block): Result<string, EditError> {
    if b.search == "" then Err(EmptyText)
    else
      var n := Count(content, b.search);
      if n == 1 then Ok(ReplaceAt(content, Index(content, b.search), |b.search|, b.replace))
      else if n > 1 then Err(Duplicate(n))
      else
        var hits := Hits(Split(content), Needle(b.search));
        if hits == [] then Err(NotFound)
        else if |hits| > 1 then Err(Duplicate(|hits|))
        else HitsAre(Split(content), Needle(b.search)); assert hits[0] in hits; Ok(ReplaceLines(content, hits[0], |Needle(b.search)|, b.replace))
  }

  method ApplyOne(content: string, b: Block) returns (r: Result<string, EditError>)
    ensures r == ApplyBlock(content, b)
  {
    if b.search == "" {
      return Err(EmptyText);
    }
    var n := Count(content, b.search);
    if n == 1 {
      var i := Index(content, b.search);
      return Ok(content[..i] + b.replace + content[i + |b.search|..]);
    }
    if n > 1 {
      return Err(Duplicate(n));
    }
    var start, occurrences, ok := FuzzyFind(content, b.search);
    if !ok {
      return Err(NotFound);
    }
    if occurrences > 1 {
      return Err(Duplicate(occurrences));
    }
    OneHit(Split(content), Needle(b.search));
    return Ok(ReplaceLines(content, start, |Split(TrimNewline(b.search))|, b.replace));
  }

  /** The text changed at one match of the search text and nowhere else. */
  ghost predicate ExactEdit(content: string, b: Block, r: string) {
    exists i: nat ::
      && OnlyAt(content, b.search, i)
      && (forall j | OccursAt(content, b.search, j) :: i <= j)
      && r == ReplaceAt(content, i, |b.search|, b.replace)
  }

  /** One window of whole lines changed, the only one that reads like the
      search text; every other line is as before. */
  ghost predicate LineEdit(content: string, b: Block, r: string) {
    exists h: nat ::
      && HitAt(Split(content), Needle(b.search), h)
      && (forall i: nat | HitAt(Split(content), Needle(b.search), i) :: i == h)
      && var lines, n := Split(content), |Needle(b.search)|;
         var after := Spliced(lines, h, n, b.replace);
         if after == [] then r == "" else Split(r) == after
  }

  /** applyOne succeeds exactly when the search text is not empty and has one
      match, or no match and one window of lines; then it changes that region
      and nothing else. */
  lemma OneRegionChanges(content: string, b: Block)
    ensures ApplyBlock(content, b).Ok? <==>
              && b.search != ""
              && (|| (exists i :: OnlyAt(content, b.search, i) && forall j | OccursAt(content, b.search, j) :: i <= j)
                  || ((forall i :: !OccursAt(content, b.search, i))
                      && exists h: nat :: HitAt(Split(content), Needle(b.search), h)
                                   && forall i: nat | HitAt(Split(content), Needle(b.search), i) :: i == h))
    ensures ApplyBlock(content, b).Ok? ==>
              var r := ApplyBlock(content, b).value;
              if exists i :: OccursAt(content, b.search, i) then ExactEdit(content, b, r) else LineEdit(content, b, r)
  {
    if b.search != "" {
      CountsOne(content, b.search);
      CountsNone(content, b.search);
      OneHit(Split(content), Needle(b.search));
      if Count(content, b.search) == 1 {
        assert ExactEdit(content, b, ApplyBlock(content, b).value);
      } else if Count(content, b.search) == 0 && |Hits(Split(content), Needle(b.search))| == 1 {
        LinesReplaced(content, b);
      }
    }
  }

  lemma OneHit(lines: seq<string>, needle: seq<string>)
    requires needle != []
    ensures var hits := Hits(lines, needle);
            |hits| == 1 <==> exists h: nat :: HitAt(lines, needle, h) && forall i: nat | HitAt(lines, needle, i) :: i == h
    ensures var hits := Hits(lines, needle);
            |hits| == 1 ==> HitAt(lines, needle, hits[0]) && forall i: nat | HitAt(lines, needle, i) :: i == hits[0]
  {
    var hits := Hits(lines, needle);
    HitsAre(lines, needle);
    assert forall i: nat :: HitAt(lines, needle, i) <==> i in hits;
    if |hits| == 1 {
      assert HitAt(lines, needle, hits[0]);
    } else if |hits| > 1 {
      assert HitAt(lines, needle, hits[0]) && HitAt(lines, needle, hits[1]) && hits[0] != hits[1];
    }
  }

  lemma LinesReplaced(content: string, b: Block)
    requires b.search != "" && |Hits(Split(content), Needle(b.search))| == 1
    ensures HitAt(Split(content), Needle(b.search), Hits(Split(content), Needle(b.search))[0])
    ensures LineEdit(content, b, ReplaceLines(content, Hits(Split(content), Needle(b.search))[0], |Needle(b.search)|, b.replace))
  {
    var lines, needle := Split(content), Needle(b.search);
    OneHit(lines, needle);
    var after := Spliced(lines, Hits(lines, needle)[0], |needle|, b.replace);
    if after != [] {
      SplitJoin(after);
    }
  }
}
