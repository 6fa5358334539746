/** The bounded tail of a command's output (plugins/bash/output.go): a ring
    buffer that keeps the last `limit` bytes of everything written. */
module OutputTail {

  type Byte = b: nat | b < 256

  const Newline: Byte := 10

  function Count(s: seq<Byte>): nat {
    if s == [] then 0 else (if s[0] == Newline then 1 else 0) + Count(s[1..])
  }

  lemma {:induction false} CountAppend(xs: seq<Byte>, ys: seq<Byte>)
    ensures Count(xs + ys) == Count(xs) + Count(ys)
  {
    if xs == [] {
      assert xs + ys == ys;
    } else {
      assert (xs + ys)[1..] == xs[1..] + ys;
      CountAppend(xs[1..], ys);
    }
  }

  function Min(a: nat, b: nat): nat {
    if a < b then a else b
  }

  /** The last `limit` bytes of a stream. */
  function Tail(stream: seq<Byte>, limit: nat): (t: seq<Byte>)
    ensures |t| == Min(|stream|, limit)
  {
    if |stream| <= limit then stream else stream[|stream| - limit..]
  }

  /** What the tail leaves out. */
  function Lost(stream: seq<Byte>, limit: nat): (l: seq<Byte>)
    ensures l + Tail(stream, limit) == stream
  {
    if |stream| <= limit then [] else stream[..|stream| - limit]
  }

  /** The stream order of a ring whose oldest byte is at `start`. */
  function Unrolled(ring: seq<Byte>, start: nat): seq<Byte>
    requires start <= |ring|
  {
    ring[start..] + ring[..start]
  }

  /** Writing bytes over the oldest ones of a full ring. */
  function Overwritten(ring: seq<Byte>, start: nat, data: seq<Byte>): seq<Byte>
    requires start < |ring| && |data| < |ring|
  {
    var first := Min(|data|, |ring| - start);
    data[first..] + ring[|data| - first..start] + data[..first] + ring[start + first..]
  }

  /** The next position of `start`, n bytes on around the ring. */
  function Advanced(start: nat, n: nat, limit: nat): (r: nat)
    requires start < limit && n < limit
    ensures r < limit
  {
    if start + n < limit then start + n else start + n - limit
  }

  /** The ring is a + b + c with b the oldest bytes, and d replaces b. */
  lemma Straight(a: seq<Byte>, b: seq<Byte>, c: seq<Byte>, d: seq<Byte>)
    requires |b| == |d|
    ensures Unrolled(a + b + c, |a|) == b + (c + a)
    ensures Unrolled(a + d + c, |a| + |d|) == (c + a) + d
  {
    assert (a + b + c)[|a|..] == b + c && (a + b + c)[..|a|] == a;
    assert b + c + a == b + (c + a);
    assert (a + d + c)[|a| + |d|..] == c && (a + d + c)[..|a| + |d|] == a + d;
    assert c + (a + d) == (c + a) + d;
  }

  /** The ring is a + m + e with e + a the oldest bytes, and d1 + d2 replaces
      them. */
  lemma Around(a: seq<Byte>, m: seq<Byte>, e: seq<Byte>, d1: seq<Byte>, d2: seq<Byte>)
    requires |d1| == |e| && |d2| == |a|
    ensures Unrolled(a + m + e, |a| + |m|) == (e + a) + m
    ensures Unrolled(d2 + m + d1, |a|) == m + (d1 + d2)
  {
    assert (a + m + e)[|a| + |m|..] == e && (a + m + e)[..|a| + |m|] == a + m;
    assert e + (a + m) == (e + a) + m;
    assert (d2 + m + d1)[|a|..] == m + d1 && (d2 + m + d1)[..|a|] == d2;
    assert m + d1 + d2 == m + (d1 + d2);
  }

  lemma CutAt(x: seq<Byte>, y: seq<Byte>, k: nat)
    requires k == |x|
    ensures (x + y)[..k] == x && (x + y)[k..] == y
  {
  }

  /** The bytes that are overwritten are the oldest, and the ring then unrolls
      to the rest followed by the data. */
  lemma OverwriteUnrolls(ring: seq<Byte>, start: nat, data: seq<Byte>)
    requires start < |ring| && |data| < |ring|
    ensures var first := Min(|data|, |ring| - start);
            && |Overwritten(ring, start, data)| == |ring|
            && Unrolled(ring, start)[..|data|] == ring[start..start + first] + ring[..|data| - first]
    ensures Unrolled(Overwritten(ring, start, data), Advanced(start, |data|, |ring|)) == Unrolled(ring, start)[|data|..] + data
  {
    var first := Min(|data|, |ring| - start);
    if start + |data| < |ring| {
      OverwriteStraight(ring, start, data);
    } else {
      OverwriteAround(ring, start, data);
    }
  }

  lemma OverwriteStraight(ring: seq<Byte>, start: nat, data: seq<Byte>)
    requires start + |data| < |ring|
    ensures |Overwritten(ring, start, data)| == |ring|
    ensures Unrolled(ring, start)[..|data|] == ring[start..start + |data|] + ring[..0]
    ensures Unrolled(Overwritten(ring, start, data), Advanced(start, |data|, |ring|)) == Unrolled(ring, start)[|data|..] + data
  {
    var a, b, c := ring[..start], ring[start..start + |data|], ring[start + |data|..];
    ThreePieces(ring, start, start + |data|);
    StraightShape(ring, start, data);
    Straight(a, b, c, data);
    CutAt(b, c + a, |data|);
  }

  lemma ThreePieces(ring: seq<Byte>, i: nat, j: nat)
    requires i <= j <= |ring|
    ensures ring == ring[..i] + ring[i..j] + ring[j..]
  {
  }

  lemma StraightShape(ring: seq<Byte>, start: nat, data: seq<Byte>)
    requires start + |data| < |ring|
    ensures Overwritten(ring, start, data) == ring[..start] + data + ring[start + |data|..]
    ensures ring[start..start + |data|] + ring[..0] == ring[start..start + |data|]
  {
    assert data[..|data|] == data && data[|data|..] == [];
  }

  lemma OverwriteAround(ring: seq<Byte>, start: nat, data: seq<Byte>)
    requires start < |ring| && |data| < |ring| <= start + |data|
    ensures |Overwritten(ring, start, data)| == |ring|
    ensures Unrolled(ring, start)[..|data|] == ring[start..] + ring[..|data| - (|ring| - start)]
    ensures Unrolled(Overwritten(ring, start, data), Advanced(start, |data|, |ring|)) == Unrolled(ring, start)[|data|..] + data
  {
    var first := |ring| - start;
    var wrapped := |data| - first;
    var a, m, e := ring[..wrapped], ring[wrapped..start], ring[start..];
    var d1, d2 := data[..first], data[first..];
    ThreePieces(ring, wrapped, start);
    ThreePieces(data, first, first);
    AroundShape(ring, start, data);
    Around(a, m, e, d1, d2);
    CutAt(e + a, m, |data|);
    assert Unrolled(ring, start) == (e + a) + m;
    assert d1 + d2 == data;
  }

  lemma AroundShape(ring: seq<Byte>, start: nat, data: seq<Byte>)
    requires start < |ring| && |data| < |ring| <= start + |data|
    ensures var first := |ring| - start;
            Overwritten(ring, start, data) == data[first..] + ring[|data| - first..start] + data[..first]
  {
    assert ring[|ring|..] == [];
  }

  /** The ring, unrolled, is the tail of the stream, and the counts are those
      of what the tail leaves out. */
  ghost predicate IsTail(ring: seq<Byte>, start: nat, limit: nat, stream: seq<Byte>, lines: nat, bytes: nat) {
    && start <= |ring|
    && Unrolled(ring, start) == Tail(stream, limit)
    && bytes == |Lost(stream, limit)|
    && lines == Count(Lost(stream, limit))
  }

  /** IsTail, kept folded. */
  ghost predicate Shows(ring: seq<Byte>, start: nat, limit: nat, stream: seq<Byte>, lines: nat, bytes: nat) {
    forall r | r == ring :: IsTail(r, start, limit, stream, lines, bytes)
  }

  lemma AppendShows(ring: seq<Byte>, limit: nat, stream: seq<Byte>, lines: nat, dropped: nat, more: seq<Byte>)
    requires Shows(ring, 0, limit, stream, lines, dropped) && |ring| + |more| <= limit
    ensures Shows(ring + more, 0, limit, stream + more, lines, dropped)
  {
    assert IsTail(ring, 0, limit, stream, lines, dropped);
    RoomMeansWhole(ring, stream, limit, more);
  }

  lemma ReplaceShows(ring: seq<Byte>, start: nat, limit: nat, stream: seq<Byte>, lines: nat, dropped: nat, bytes: seq<Byte>)
    requires Shows(ring, start, limit, stream, lines, dropped) && |ring| == limit <= |bytes|
    ensures var skip := |bytes| - limit;
            Shows(bytes[skip..], 0, limit, stream + bytes, lines + Count(ring) + Count(bytes[..skip]), dropped + |bytes|)
  {
    assert IsTail(ring, start, limit, stream, lines, dropped);
    UnrolledCount(ring, start);
    ReplaceLoses(stream, limit, bytes);
    var kept := bytes[|bytes| - limit..];
    assert Unrolled(kept, 0) == kept;
  }

  ghost predicate OverwrittenBy(ring: seq<Byte>, start: nat, bytes: seq<Byte>, ring': seq<Byte>) {
    start < |ring| && |bytes| < |ring| && ring' == Overwritten(ring, start, bytes)
  }

  /** OverwrittenBy, kept folded. */
  ghost predicate IsOverwritten(ring: seq<Byte>, start: nat, bytes: seq<Byte>, ring': seq<Byte>) {
    forall r | r == ring :: OverwrittenBy(r, start, bytes, ring')
  }

  /** The newlines in the part that is overwritten. */
  ghost predicate OldestHave(ring: seq<Byte>, start: nat, n: nat, lines: nat) {
    && start < |ring| && n < |ring|
    && var first := Min(n, |ring| - start);
       lines == Count(ring[start..start + first]) + Count(ring[..n - first])
  }

  /** OldestHave, kept folded. */
  ghost predicate OldestLines(ring: seq<Byte>, start: nat, n: nat, lines: nat) {
    forall r | r == ring :: OldestHave(r, start, n, lines)
  }

  lemma OverwriteShows(ring: seq<Byte>, start: nat, limit: nat, stream: seq<Byte>, lines: nat, dropped: nat, bytes: seq<Byte>,
                       ring': seq<Byte>, oldest: nat)
    requires Shows(ring, start, limit, stream, lines, dropped) && |ring| == limit && start < limit && |bytes| < limit
    requires IsOverwritten(ring, start, bytes, ring') && OldestLines(ring, start, |bytes|, oldest)
    ensures Shows(ring', Advanced(start, |bytes|, limit), limit, stream + bytes, lines + oldest, dropped + |bytes|)
  {
    assert IsTail(ring, start, limit, stream, lines, dropped);
    assert OverwrittenBy(ring, start, bytes, ring') && OldestHave(ring, start, |bytes|, oldest);
    OverwriteKeeps(ring, start, stream, limit, bytes);
  }

  class Buffer {
    const limit: nat
    var data: array<Byte>     // capacity
    var size: nat             // length
    var start: nat
    var droppedLines: nat
    var droppedBytes: nat
    ghost var stream: seq<Byte>

    ghost predicate Valid()
      reads this, data
    {
      && size <= data.Length && size <= limit
      && (start == 0 || start < size) && (size < limit ==> start == 0)
      && Shows(data[..size], start, limit, stream, droppedLines, droppedBytes)
    }

    constructor (bound: nat)
      ensures Valid() && limit == bound && stream == [] && fresh(data)
    {
      limit := bound;
      data := new Byte[0];
      size, start, droppedLines, droppedBytes := 0, 0, 0, 0;
      stream := [];
    }

    /** String: the kept bytes, oldest first. */
    method String() returns (s: seq<Byte>)
      requires Valid()
      ensures s == Tail(stream, limit)
    {
      assert IsTail(data[..size], start, limit, stream, droppedLines, droppedBytes);
      if start == 0 {
        return data[..size];
      }
      return data[start..size] + data[..start];
    }

    /** Room for `needed` bytes, at least doubling the capacity. */
    method Grow(needed: nat)
      requires Valid() && start == 0 && size <= needed <= limit
      modifies this`data
      ensures Valid() && data.Length >= needed && data[..size] == old(data[..size])
      ensures data == old(data) || fresh(data)
    {
      if needed > data.Length {
        var capacity := Min(limit, if needed > 2 * data.Length then needed else 2 * data.Length);
        var grown := new Byte[capacity];
        forall i | 0 <= i < size {
          grown[i] := data[i];
        }
        assert grown[..size] == data[..size];
        data := grown;
      }
    }

    /** The first part of Write: while there is room, the buffer grows. */
    method Append(bytes: seq<Byte>)
      requires Valid() && start == 0 && size + |bytes| <= limit
      modifies this, data
      ensures Valid() && stream == old(stream) + bytes && start == 0 && size == old(size) + |bytes|
      ensures data == old(data) || fresh(data)
    {
      AppendShows(data[..size], limit, stream, droppedLines, droppedBytes, bytes);
      Grow(size + |bytes|);
      var at := size;
      ghost var before := data[..at];
      forall i | 0 <= i < |bytes| {
        data[at + i] := bytes[i];
      }
      size := at + |bytes|;
      stream := stream + bytes;
      assert data[..size] == before + bytes;
    }

    /** More than a whole buffer: only its end stays. */
    method Replace(bytes: seq<Byte>)
      requires Valid() && size == limit && |bytes| >= limit
      modifies this, data
      ensures Valid() && stream == old(stream) + bytes && data == old(data)
    {
      var skip := |bytes| - limit;
      ReplaceShows(data[..size], start, limit, stream, droppedLines, droppedBytes, bytes);
      droppedLines := droppedLines + Count(data[..size]) + Count(bytes[..skip]);
      droppedBytes := droppedBytes + |bytes|;
      forall i | 0 <= i < limit {
        data[i] := bytes[skip + i];
      }
      start := 0;
      stream := stream + bytes;
      assert data[..size] == bytes[skip..];
    }

    /** The ring: the oldest bytes make room for the new ones. */
    method Overwrite(bytes: seq<Byte>)
      requires Valid() && size == limit && 0 < |bytes| < limit
      modifies this, data
      ensures Valid() && stream == old(stream) + bytes && data == old(data)
    {
      var n := |bytes|;
      var first := Min(n, limit - start);
      ghost var ring := data[..size];
      var oldest := CountOldest(n, first);
      CopyOver(bytes, first);
      ghost var ring' := data[..size];
      OverwriteShows(ring, start, limit, stream, droppedLines, droppedBytes, bytes, ring', oldest);
      droppedLines := droppedLines + oldest;
      droppedBytes := droppedBytes + n;
      start := Advance(n);
      stream := stream + bytes;
      assert data[..size] == ring';
    }

    method Advance(n: nat) returns (next: nat)
      requires start < limit && n < limit
      ensures next == Advanced(start, n, limit)
    {
      return (start + n) % limit;
    }

    /** The newlines among the n oldest bytes. */
    method CountOldest(n: nat, first: nat) returns (lines: nat)
      requires start < size <= data.Length && n < size && first == Min(n, size - start)
      ensures OldestLines(data[..size], start, n, lines)
    {
      assert data[..size][start..start + first] == data[start..start + first];
      assert data[..size][..n - first] == data[..n - first];
      return Count(data[start..start + first]) + Count(data[..n - first]);
    }

    method CopyOver(bytes: seq<Byte>, first: nat)
      requires size == limit <= data.Length && start < limit && |bytes| < limit && first == Min(|bytes|, limit - start)
      modifies data
      ensures IsOverwritten(old(data[..size]), start, bytes, data[..size])
    {
      forall i | 0 <= i < first {
        data[start + i] := bytes[i];
      }
      forall i | 0 <= i < |bytes| - first {
        data[i] := bytes[first + i];
      }
    }

    /** Write: afterwards the buffer holds the last `limit` bytes of the whole
        stream, with exact counts of the bytes and newlines dropped. */
    method Write(bytes: seq<Byte>) returns (n: nat)
      requires Valid()
      modifies this, data
      ensures Valid() && stream == old(stream) + bytes && n == |bytes|
      ensures data == old(data) || fresh(data)
    {
      n := |bytes|;
      var rest := bytes;
      ghost var before := stream;
      assert before + bytes[..0] == before;
      if size < limit {
        var keep := Min(limit - size, |rest|);
        Append(rest[..keep]);
        rest := rest[keep..];
        assert before + bytes[..keep] + rest == before + bytes;
      }
      if |rest| == 0 {
        return;
      }
      if |rest| >= limit {
        Replace(rest);
      } else {
        Overwrite(rest);
      }
    }
  }

  /** A buffer with room holds the whole stream, and still does with the bytes
      that fit. */
  lemma RoomMeansWhole(kept: seq<Byte>, stream: seq<Byte>, limit: nat, bytes: seq<Byte>)
    requires Unrolled(kept, 0) == Tail(stream, limit) && |kept| + |bytes| <= limit
    ensures bytes != [] ==> Tail(stream + bytes, limit) == kept + bytes && Lost(stream + bytes, limit) == Lost(stream, limit)
    ensures bytes == [] ==> stream + bytes == stream && kept + bytes == kept
    ensures Unrolled(kept + bytes, 0) == kept + bytes
  {
    assert Unrolled(kept, 0) == kept;
    assert Unrolled(kept + bytes, 0) == kept + bytes;
  }

  /** One overwrite, seen from the stream. */
  lemma OverwriteKeeps(ring: seq<Byte>, start: nat, stream: seq<Byte>, limit: nat, bytes: seq<Byte>)
    requires |ring| == limit && start < limit && |bytes| < limit && Unrolled(ring, start) == Tail(stream, limit)
    ensures var first := Min(|bytes|, limit - start);
            && Unrolled(Overwritten(ring, start, bytes), Advanced(start, |bytes|, limit)) == Tail(stream + bytes, limit)
            && |Lost(stream + bytes, limit)| == |Lost(stream, limit)| + |bytes|
            && Count(Lost(stream + bytes, limit))
               == Count(Lost(stream, limit)) + Count(ring[start..start + first]) + Count(ring[..|bytes| - first])
  {
    var first := Min(|bytes|, limit - start);
    OverwriteUnrolls(ring, start, bytes);
    OverwriteLoses(stream, limit, bytes);
    CountAppend(ring[start..start + first], ring[..|bytes| - first]);
  }

  lemma TwoPieces(ring: seq<Byte>, start: nat)
    requires start <= |ring|
    ensures ring[..start] + ring[start..] == ring
  {
  }

  lemma CountSwaps(xs: seq<Byte>, ys: seq<Byte>)
    ensures Count(ys + xs) == Count(xs + ys)
  {
    CountAppend(xs, ys);
    CountAppend(ys, xs);
  }

  lemma UnrolledCount(ring: seq<Byte>, start: nat)
    requires start <= |ring|
    ensures Count(Unrolled(ring, start)) == Count(ring)
  {
    TwoPieces(ring, start);
    CountSwaps(ring[..start], ring[start..]);
  }

  lemma ReplaceLoses(stream: seq<Byte>, limit: nat, bytes: seq<Byte>)
    requires |bytes| >= limit && |stream| >= limit
    ensures var skip := |bytes| - limit;
            && Tail(stream + bytes, limit) == bytes[skip..]
            && Lost(stream + bytes, limit) == Lost(stream, limit) + Tail(stream, limit) + bytes[..skip]
            && Count(Lost(stream + bytes, limit)) == Count(Lost(stream, limit)) + Count(Tail(stream, limit)) + Count(bytes[..skip])
  {
    var skip := |bytes| - limit;
    assert Tail(stream + bytes, limit) == bytes[skip..];
    assert Lost(stream + bytes, limit) == stream + bytes[..skip];
    CountAppend(Lost(stream, limit) + Tail(stream, limit), bytes[..skip]);
    CountAppend(Lost(stream, limit), Tail(stream, limit));
  }

  lemma OverwriteLoses(stream: seq<Byte>, limit: nat, bytes: seq<Byte>)
    requires |bytes| < limit && |stream| >= limit
    ensures var kept := Tail(stream, limit);
            && Tail(stream + bytes, limit) == kept[|bytes|..] + bytes
            && Lost(stream + bytes, limit) == Lost(stream, limit) + kept[..|bytes|]
            && Count(Lost(stream + bytes, limit)) == Count(Lost(stream, limit)) + Count(kept[..|bytes|])
  {
    var kept := Tail(stream, limit);
    assert stream == Lost(stream, limit) + kept;
    assert Tail(stream + bytes, limit) == kept[|bytes|..] + bytes;
    assert Lost(stream + bytes, limit) == Lost(stream, limit) + kept[..|bytes|];
    CountAppend(Lost(stream, limit), kept[..|bytes|]);
  }
}
