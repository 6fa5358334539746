/** Truncating a command's output for the model (plugins/bash/bash.go, format
    and alignTail). */
module OutputFormat {
  import opened OutputTail

  /** utf8.RuneStart: not a continuation byte. */
  predicate RuneStart(b: Byte) {
    !(128 <= b < 192)
  }

  /** The position of the first newline, or |s|. */
  function FirstNewline(s: seq<Byte>): (k: nat)
    ensures k <= |s| && (k < |s| ==> s[k] == Newline) && forall i | 0 <= i < k :: s[i] != Newline
  {
    if s == [] || s[0] == Newline then 0 else 1 + FirstNewline(s[1..])
  }

  function SkipContinuation(s: seq<Byte>): seq<Byte> {
    if s != [] && !RuneStart(s[0]) then SkipContinuation(s[1..]) else s
  }

  /** alignTail: from the first line start, or the first rune start. */
  function AlignTail(s: seq<Byte>): seq<Byte> {
    var k := FirstNewline(s);
    if k < |s| then s[k + 1..] else SkipContinuation(s)
  }

  ghost predicate SuffixOf(t: seq<Byte>, s: seq<Byte>) {
    |t| <= |s| && t == s[|s| - |t|..]
  }

  lemma SuffixTrans(t: seq<Byte>, u: seq<Byte>, s: seq<Byte>)
    requires SuffixOf(t, u) && SuffixOf(u, s)
    ensures SuffixOf(t, s)
  {
  }

  lemma {:induction false} SkipIsSuffix(s: seq<Byte>)
    ensures SuffixOf(SkipContinuation(s), s)
    ensures var cut := |s| - |SkipContinuation(s)|;
            (forall i | 0 <= i < cut :: !RuneStart(s[i])) && (cut < |s| ==> RuneStart(s[cut]))
  {
    if s != [] && !RuneStart(s[0]) {
      SkipIsSuffix(s[1..]);
      var cut := |s| - |SkipContinuation(s)|;
      forall i | 0 < i <= cut && i < |s| ensures s[i] == s[1..][i - 1] {
      }
    }
  }

  /** alignTail drops exactly up to and with the first newline; without one,
      exactly the bytes before the first rune start. */
  lemma AlignIsSuffix(s: seq<Byte>)
    ensures SuffixOf(AlignTail(s), s)
    ensures var cut := |s| - |AlignTail(s)|;
            if Newline in s then cut > 0 && s[cut - 1] == Newline && Newline !in s[..cut - 1]
            else (forall i | 0 <= i < cut :: !RuneStart(s[i])) && (cut < |s| ==> RuneStart(s[cut]))
  {
    var k := FirstNewline(s);
    if k == |s| {
      SkipIsSuffix(s);
    } else {
      assert s[k] == Newline;
    }
  }

  /** A last line without a newline is a line too. */
  function LineCount(s: seq<Byte>): nat {
    Count(s) + (if s != [] && s[|s| - 1] != Newline then 1 else 0)
  }

  /** The newlines of a suffix and of what precedes it. */
  lemma CountSplit(s: seq<Byte>, k: nat)
    requires k <= |s|
    ensures Count(s) == Count(s[..k]) + Count(s[k..])
  {
    assert s == s[..k] + s[k..];
    CountAppend(s[..k], s[k..]);
  }

  lemma SuffixLines(t: seq<Byte>, s: seq<Byte>)
    requires SuffixOf(t, s)
    ensures LineCount(t) <= LineCount(s)
  {
    CountSplit(s, |s| - |t|);
  }

  lemma OneLess(s: seq<Byte>, k: nat, cut: nat)
    requires k < cut <= |s| && s[k] != Newline
    ensures Count(s[k..cut]) == Count(s[k + 1..cut])
  {
    assert s[k..cut][1..] == s[k + 1..cut];
  }

  /** The position of the last newline before `cut`, or -1. */
  method LastNewline(s: seq<Byte>, cut: nat) returns (k: int)
    requires cut <= |s|
    ensures -1 <= k < cut
    ensures k >= 0 ==> s[k] == Newline && Count(s[k + 1..cut]) == 0
    ensures k < 0 ==> Count(s[..cut]) == 0
  {
    var m: nat := cut;
    assert s[cut..cut] == [];
    while m > 0 && s[m - 1] != Newline
      invariant m <= cut && Count(s[m..cut]) == 0
    {
      OneLess(s, m - 1, cut);
      m := m - 1;
    }
    assert s[0..cut] == s[..cut];
    return m - 1;
  }

  /** What format keeps of `stream`: a suffix, within the line and byte limits,
      with exact counts of the newlines and bytes that are gone. */
  ghost predicate Kept(stream: seq<Byte>, result: seq<Byte>, droppedLines: nat, droppedBytes: nat) {
    && SuffixOf(result, stream)
    && droppedBytes == |stream| - |result|
    && droppedLines == Count(stream[..|stream| - |result|])
  }

  /** Cutting more off a kept suffix. */
  lemma CutMore(stream: seq<Byte>, s: seq<Byte>, t: seq<Byte>, lines: nat, bytes: nat)
    requires Kept(stream, s, lines, bytes) && SuffixOf(t, s)
    ensures Kept(stream, t, lines + Count(s[..|s| - |t|]), bytes + |s| - |t|)
  {
    var k, m := |stream| - |s|, |stream| - |t|;
    assert stream[..m] == stream[..k] + s[..|s| - |t|];
    CountAppend(stream[..k], s[..|s| - |t|]);
  }

  /** At most the last `maxLines` lines, whole. */
  ghost predicate LastWholeLines(s: seq<Byte>, maxLines: nat, t: seq<Byte>) {
    && SuffixOf(t, s)
    && (LineCount(s) <= maxLines ==> t == s)
    && (LineCount(s) > maxLines ==> |t| < |s| && s[|s| - |t| - 1] == Newline && LineCount(t) == maxLines)
  }

  /** There is only one such text. */
  lemma OneLastLines(s: seq<Byte>, maxLines: nat, t: seq<Byte>, u: seq<Byte>)
    requires LastWholeLines(s, maxLines, t) && LastWholeLines(s, maxLines, u) && maxLines > 0
    ensures t == u
  {
    if LineCount(s) > maxLines && |t| != |u| {
      var (short, long) := if |t| < |u| then (t, u) else (u, t);
      LongerHasMore(s, short, long);
    }
  }

  lemma LongerHasMore(s: seq<Byte>, short: seq<Byte>, long: seq<Byte>)
    requires SuffixOf(short, s) && SuffixOf(long, s) && 0 < |short| < |long| && s[|s| - |short| - 1] == Newline
    ensures LineCount(short) < LineCount(long)
  {
    var k := |long| - |short|;
    CountSplit(long, k);
    CountSplit(long[..k], k - 1);
    assert long[k..] == short && long[k - 1] == s[|s| - |short| - 1];
    assert long[..k][k - 1..] == [Newline] && [Newline][1..] == [];
  }

  /** The last `maxLines` lines of a text that has more. */
  method LastLines(s: seq<Byte>, maxLines: nat) returns (result: seq<Byte>)
    requires 0 < maxLines < LineCount(s)
    ensures LastWholeLines(s, maxLines, result)
    ensures Count(s[..|s| - |result|]) == LineCount(s) - maxLines
  {
    var cut: int := |s|;
    if s[|s| - 1] == Newline {
      cut := cut - 1;
    }
    ghost var lines := LineCount(s);
    CountSplit(s, cut);
    EndOfText(s, cut);
    for i := 0 to maxLines
      invariant 0 <= cut <= |s| && Count(s[..cut]) == lines - 1 - i
      invariant i > 0 ==> cut < |s| && s[cut] == Newline
    {
      var k := LastNewline(s, cut);
      assert k >= 0;
      CountSplit(s[..cut], k + 1);
      assert s[..cut][..k + 1] == s[..k + 1] && s[..cut][k + 1..] == s[k + 1..cut];
      CountSplit(s[..k + 1], k);
      assert s[..k + 1][..k] == s[..k] && s[..k + 1][k..] == [Newline];
      assert [Newline][1..] == [];
      cut := k;
    }
    result := s[cut + 1..];
    CountSplit(s, cut + 1);
    CountSplit(s[..cut + 1], cut);
    assert s[..cut + 1][..cut] == s[..cut] && s[..cut + 1][cut..] == [Newline];
    assert [Newline][1..] == [];
    assert s[..|s| - |result|] == s[..cut + 1];
  }

  lemma EndOfText(s: seq<Byte>, cut: nat)
    requires s != [] && cut == if s[|s| - 1] == Newline then |s| - 1 else |s|
    ensures Count(s[..cut]) == LineCount(s) - 1
  {
    CountSplit(s, cut);
    if cut < |s| {
      assert s[cut..] == [Newline];
      assert [Newline][1..] == [];
    } else {
      assert s[..cut] == s;
    }
  }

  /** A tail that lost bytes starts at a line or a rune. */
  method Align(ghost stream: seq<Byte>, s: seq<Byte>, lines: nat, bytes: nat) returns (aligned: seq<Byte>, lines': nat, bytes': nat)
    requires Kept(stream, s, lines, bytes)
    ensures Kept(stream, aligned, lines', bytes')
    ensures aligned == if bytes > 0 then AlignTail(s) else s
  {
    aligned, lines', bytes' := s, lines, bytes;
    if bytes > 0 {
      aligned := AlignTail(s);
      AlignIsSuffix(s);
      CutMore(stream, s, aligned, lines, bytes);
      lines' := lines + Count(s[..|s| - |aligned|]);
      bytes' := bytes + |s| - |aligned|;
    }
  }

  method LimitLines(ghost stream: seq<Byte>, s: seq<Byte>, maxLines: nat, lines: nat, bytes: nat)
    returns (result: seq<Byte>, lines': nat, bytes': nat)
    requires Kept(stream, s, lines, bytes) && maxLines > 0
    ensures Kept(stream, result, lines', bytes') && LastWholeLines(s, maxLines, result)
  {
    result, lines', bytes' := s, lines, bytes;
    var lineCount := Count(s);
    if s != [] && s[|s| - 1] != Newline {
      lineCount := lineCount + 1;
    }
    if lineCount > maxLines {
      result := LastLines(s, maxLines);
      CutMore(stream, s, result, lines, bytes);
      lines' := lines + lineCount - maxLines;
      bytes' := bytes + |s| - |result|;
    }
  }

  /** At most the last `maxBytes` bytes, from a line or rune start on. */
  function LastBytes(s: seq<Byte>, maxBytes: nat): seq<Byte> {
    if |s| > maxBytes then AlignTail(s[|s| - maxBytes..]) else s
  }

  lemma LastBytesFit(s: seq<Byte>, maxBytes: nat)
    requires |s| > maxBytes
    ensures var t := AlignTail(s[|s| - maxBytes..]);
            SuffixOf(t, s) && |t| <= maxBytes && LineCount(t) <= LineCount(s)
  {
    var last := s[|s| - maxBytes..];
    AlignIsSuffix(last);
    SuffixTrans(AlignTail(last), last, s);
    SuffixLines(AlignTail(last), s);
  }

  predicate StartsLine(s: seq<Byte>, k: nat) {
    0 < k <= |s| && s[k - 1] == Newline
  }

  predicate StartsRune(s: seq<Byte>, k: nat) {
    k < |s| && RuneStart(s[k])
  }

  /** `t` begins at the first line of s[lo..] but for one at `lo` itself. */
  ghost predicate FromFirstLine(s: seq<Byte>, lo: nat, t: seq<Byte>) {
    && SuffixOf(t, s) && lo < |s| - |t| && StartsLine(s, |s| - |t|)
    && forall k: nat | lo < k < |s| - |t| :: !StartsLine(s, k)
  }

  /** `t` begins at the first rune of s[lo..], or is empty. */
  ghost predicate FromFirstRune(s: seq<Byte>, lo: nat, t: seq<Byte>) {
    && SuffixOf(t, s) && lo <= |s| - |t| && (t == [] || StartsRune(s, |s| - |t|))
    && forall k: nat | lo <= k < |s| - |t| :: !StartsRune(s, k)
  }

  lemma AlignsToLine(s: seq<Byte>, lo: nat, last: seq<Byte>, t: seq<Byte>)
    requires lo <= |s| && last == s[lo..] && t == AlignTail(last) && Newline in last
    ensures FromFirstLine(s, lo, t)
  {
    AlignIsSuffix(last);
    SuffixTrans(t, last, s);
    var cut := |last| - |t|;
    assert s[|s| - |t| - 1] == last[cut - 1];
    forall k: nat | lo < k < |s| - |t|
      ensures !StartsLine(s, k)
    {
      assert s[k - 1] == last[..cut - 1][k - 1 - lo];
    }
  }

  lemma AlignsToRune(s: seq<Byte>, lo: nat, last: seq<Byte>, t: seq<Byte>)
    requires lo <= |s| && last == s[lo..] && t == AlignTail(last) && Newline !in last
    ensures FromFirstRune(s, lo, t)
  {
    AlignIsSuffix(last);
    SuffixTrans(t, last, s);
    var cut := |last| - |t|;
    forall k: nat | lo <= k < |s| - |t|
      ensures !StartsRune(s, k)
    {
      assert s[k] == last[k - lo];
    }
    assert cut < |last| ==> s[|s| - |t|] == last[cut];
  }

  /** Cutting keeps as much as the byte limit allows: everything if it fits;
      else from the first line that starts within the last `maxBytes` bytes;
      and if none does, from the first rune. */
  lemma LastBytesKeepsMost(s: seq<Byte>, maxBytes: nat)
    ensures |s| <= maxBytes ==> LastBytes(s, maxBytes) == s
    ensures |s| > maxBytes ==>
              if Newline in s[|s| - maxBytes..] then FromFirstLine(s, |s| - maxBytes, LastBytes(s, maxBytes))
              else FromFirstRune(s, |s| - maxBytes, LastBytes(s, maxBytes))
  {
    if |s| > maxBytes {
      var lo := |s| - maxBytes;
      if Newline in s[lo..] {
        AlignsToLine(s, lo, s[lo..], LastBytes(s, maxBytes));
      } else {
        AlignsToRune(s, lo, s[lo..], LastBytes(s, maxBytes));
      }
    }
  }

  method LimitBytes(ghost stream: seq<Byte>, pre: seq<Byte>, maxBytes: nat, lines: nat, bytes: nat)
    returns (result: seq<Byte>, lines': nat, bytes': nat)
    requires Kept(stream, pre, lines, bytes)
    ensures Kept(stream, result, lines', bytes') && LineCount(result) <= LineCount(pre)
    ensures result == LastBytes(pre, maxBytes) && |result| <= maxBytes
  {
    result, lines', bytes' := pre, lines, bytes;
    if |pre| > maxBytes {
      LastBytesFit(pre, maxBytes);
      result := AlignTail(pre[|pre| - maxBytes..]);
      CutMore(stream, pre, result, lines, bytes);
      var cut := |pre| - |result|;
      lines' := lines + Count(pre[..cut]);
      bytes' := bytes + cut;
    }
  }

  lemma StartsKept(stream: seq<Byte>, limit: nat)
    ensures Kept(stream, Tail(stream, limit), Count(Lost(stream, limit)), |Lost(stream, limit)|)
  {
    var t := Tail(stream, limit);
    assert stream[..|stream| - |t|] == Lost(stream, limit);
  }

  /** The buffer's tail, aligned if it is not the whole stream. */
  function AlignedTail(stream: seq<Byte>, limit: nat): seq<Byte> {
    if |stream| > limit then AlignTail(Tail(stream, limit)) else stream
  }

  /** That tail, cut to the last lines and then to the last bytes. */
  ghost predicate Formatted(stream: seq<Byte>, limit: nat, maxLines: nat, maxBytes: nat, result: seq<Byte>) {
    exists limited :: LastWholeLines(AlignedTail(stream, limit), maxLines, limited) && result == LastBytes(limited, maxBytes)
  }

  lemma FormattedBy(stream: seq<Byte>, limit: nat, maxLines: nat, maxBytes: nat, aligned: seq<Byte>, limited: seq<Byte>)
    requires aligned == if |Lost(stream, limit)| > 0 then AlignTail(Tail(stream, limit)) else Tail(stream, limit)
    requires LastWholeLines(aligned, maxLines, limited)
    ensures Formatted(stream, limit, maxLines, maxBytes, LastBytes(limited, maxBytes))
  {
    assert aligned == AlignedTail(stream, limit);
  }

  /** The text that format keeps of a buffer, before it adds its note: a suffix
      of the stream within both limits, with exact counts of what is gone.
      `truncated` says whether anything is. */
  method Format(buffer: Buffer, maxLines: nat, maxBytes: nat)
    returns (result: seq<Byte>, truncated: bool, droppedLines: nat, droppedBytes: nat)
    requires buffer.Valid() && maxLines > 0
    ensures Kept(buffer.stream, result, droppedLines, droppedBytes)
    ensures truncated <==> |result| < |buffer.stream|
    ensures |result| <= maxBytes && LineCount(result) <= maxLines
    ensures Formatted(buffer.stream, buffer.limit, maxLines, maxBytes, result)
  {
    ghost var stream := buffer.stream;
    StartsKept(stream, buffer.limit);
    assert OutputTail.IsTail(buffer.data[..buffer.size], buffer.start, buffer.limit, stream,
                             buffer.droppedLines, buffer.droppedBytes);
    var s := buffer.String();
    var aligned, limited;
    aligned, droppedLines, droppedBytes := Align(stream, s, buffer.droppedLines, buffer.droppedBytes);
    limited, droppedLines, droppedBytes := LimitLines(stream, aligned, maxLines, droppedLines, droppedBytes);
    result, droppedLines, droppedBytes := LimitBytes(stream, limited, maxBytes, droppedLines, droppedBytes);
    truncated := droppedBytes > 0;
    FormattedBy(stream, buffer.limit, maxLines, maxBytes, aligned, limited);
  }
}
