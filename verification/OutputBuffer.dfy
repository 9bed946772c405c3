/**
 The session output ring (internal/terminal/buffer.go).

 The reference object is the unbounded byte stream of everything appended since the
 last Clear; every read is specified on that stream. The class keeps only the bounded
 window and the offset of its first byte, and is proved to answer every read as the
 stream would.
 */
module OutputRing {
  import opened Common

  const DEFAULT_MAX_SIZE: nat := 1024 * 1024
  const DEFAULT_READ_LIMIT: nat := 4000
  const ESC: Byte := 0x1b

  datatype ReadResult = ReadResult(data: seq<Byte>, offset: int, hasMore: bool)
  datatype FromResult = FromResult(data: seq<Byte>, offset: int, reset: bool)

  /** Offset of the oldest byte a ring of size `max` still holds after `n` bytes. */
  function Floor(n: nat, max: nat): (lo: nat)
    ensures lo <= n && n - lo <= max && (lo > 0 ==> n - lo == max)
  {
    if n <= max then 0 else n - max
  }

  /** `text` is the piece of `stream` that ends exactly at offset `end`. */
  ghost predicate EndsAt(text: seq<Byte>, stream: seq<Byte>, end: int) {
    && |text| <= end <= |stream|
    && text == stream[end - |text|..end]
  }

  /**
   The delta after `after`, as the stream defines it: everything from `after` on when the
   ring still covers it, otherwise everything retained, marked as a reset.
   */
  function DeltaOf(stream: seq<Byte>, max: nat, after: Option<int>): (r: FromResult)
    ensures r.offset == |stream| && EndsAt(r.data, stream, r.offset)
    ensures after.Some? ==> (r.reset <==> !(Floor(|stream|, max) <= after.value <= |stream|))
    ensures after.Some? && !r.reset ==> after.value + |r.data| == r.offset
    ensures after.None? || r.reset ==> |r.data| == |stream| - Floor(|stream|, max)
    ensures after.None? ==> !r.reset
  {
    var cur := |stream|;
    var lo := Floor(cur, max);
    match after
    case None => FromResult(stream[lo..], cur, false)
    case Some(off) =>
      if lo <= off <= cur then FromResult(stream[off..], cur, false)
      else FromResult(stream[lo..], cur, true)
  }

  /** The position a bounded read starts from: `after` clamped into what the ring covers. */
  function ReadStart(stream: seq<Byte>, max: nat, after: int): (start: int)
    ensures Floor(|stream|, max) <= start <= |stream|
    ensures Floor(|stream|, max) <= after <= |stream| ==> start == after
    ensures after < Floor(|stream|, max) ==> start == Floor(|stream|, max)
    ensures after > |stream| ==> start == |stream|
  {
    var lo := Floor(|stream|, max);
    if after < lo then lo else if after > |stream| then |stream| else after
  }

  function EffectiveLimit(limit: int): (l: nat)
    ensures l == if limit > 0 then limit else 4000
  {
    if limit <= 0 then DEFAULT_READ_LIMIT else limit
  }

  /** Position of the first ESC in `s`, or -1. */
  function FirstEsc(s: seq<Byte>): (i: int)
    ensures -1 <= i < |s|
    ensures i >= 0 ==> s[i] == ESC && ESC !in s[..i]
    ensures i < 0 ==> ESC !in s
  {
    if s == [] then -1
    else if s[0] == ESC then 0
    else
      var rest := FirstEsc(s[1..]);
      assert s == [s[0]] + s[1..];
      if rest < 0 then -1
      else assert s[..rest + 1] == [s[0]] + s[1..][..rest]; rest + 1
  }

  class OutputBuffer {
    var buf: seq<Byte>
    var baseOffset: int
    const maxSize: nat
    /** Everything appended since construction or the last Clear. */
    ghost var stream: seq<Byte>

    ghost predicate Valid()
      reads this
    {
      && maxSize > 0
      && baseOffset == Floor(|stream|, maxSize)
      && buf == stream[baseOffset..]
    }

    constructor (max: int)
      ensures Valid() && stream == []
      ensures maxSize == if max <= 0 then DEFAULT_MAX_SIZE else max
    {
      maxSize := if max <= 0 then DEFAULT_MAX_SIZE else max;
      buf, baseOffset, stream := [], 0, [];
    }

    /** Adds bytes; the window always holds exactly the newest `maxSize` of the stream. */
    method Append(data: seq<Byte>)
      requires Valid()
      modifies this
      ensures Valid() && stream == old(stream) + data
    {
      buf := buf + data;
      stream := stream + data;
      if |buf| > maxSize {
        var excess := |buf| - maxSize;
        buf := buf[excess..];
        baseOffset := baseOffset + excess;
      }
    }

    /** Up to `limit` bytes after `afterOffset`. */
    method Read(afterOffset: int, limit: int) returns (r: ReadResult)
      requires Valid()
      ensures r == PageOf(stream, maxSize, afterOffset, limit)
    {
      var lim := if limit <= 0 then DEFAULT_READ_LIMIT else limit;
      var relStart := afterOffset - baseOffset;
      if relStart < 0 { relStart := 0; }
      if relStart > |buf| { relStart := |buf|; }
      var end := relStart + lim;
      if end > |buf| { end := |buf|; }
      var data := buf[relStart..end];
      r := ReadResult(data, baseOffset + relStart + |data|, relStart + lim < |buf|);
    }

    /** The tail from `afterOffset` (all retained bytes when none is given). */
    method ReadFrom(afterOffset: Option<int>) returns (r: FromResult)
      requires Valid()
      ensures r == DeltaOf(stream, maxSize, afterOffset)
    {
      var cur := baseOffset + |buf|;
      if afterOffset.None? { return FromResult(buf, cur, false); }
      var off := afterOffset.value;
      if off == cur { return FromResult([], cur, false); }
      if off > cur || off < baseOffset { return FromResult(buf, cur, true); }
      return FromResult(buf[off - baseOffset..], cur, false);
    }

    method CurrentOffset() returns (off: int)
      requires Valid()
      ensures off == |stream|
    {
      off := baseOffset + |buf|;
    }

    /**
     The newest bytes, at most `limit`. When bytes of the window were cut off, the result
     starts at the first ESC of the cut piece, so no escape sequence is entered half way;
     a piece without ESC is returned whole.
     */
    method Tail(limit: int) returns (data: seq<Byte>)
      requires Valid()
      ensures EndsAt(data, stream, |stream|)
      ensures limit <= 0 ==> data == []
      ensures limit > 0 ==> |data| <= limit
      ensures 0 < |buf| <= limit ==> data == buf
      ensures 0 < limit < |buf| ==>
        var piece := stream[|stream| - limit..];
        if ESC in piece
        then data != [] && data[0] == ESC && ESC !in piece[..limit - |data|]
        else data == piece
    {
      if limit <= 0 { return []; }
      if |buf| <= limit { return buf; }
      var slice := buf[|buf| - limit..];
      assert slice == stream[|stream| - limit..];
      var escIdx := FirstEsc(slice);
      if escIdx <= 0 { return slice; }
      return slice[escIdx..];
    }

    method Clear()
      requires Valid()
      modifies this
      ensures Valid() && stream == []
    {
      buf, baseOffset, stream := [], 0, [];
    }
  }

  /** One bounded page as the stream defines it. */
  function PageOf(stream: seq<Byte>, max: nat, after: int, limit: int): (r: ReadResult)
    ensures r.offset == ReadStart(stream, max, after) + |r.data| <= |stream|
    ensures r.data == stream[ReadStart(stream, max, after)..r.offset] && |r.data| <= EffectiveLimit(limit)
    ensures r.hasMore <==> r.offset < |stream|
    ensures r.hasMore ==> |r.data| == EffectiveLimit(limit)
  {
    var start := ReadStart(stream, max, after);
    var end := if start + EffectiveLimit(limit) > |stream| then |stream| else start + EffectiveLimit(limit);
    ReadResult(stream[start..end], end, end < |stream|)
  }

  /** The bytes a reader collects by following `offset` through pages of the given limits. */
  function Collect(stream: seq<Byte>, max: nat, from: int, limits: seq<int>): seq<Byte>
    decreases |limits|
  {
    if limits == [] then []
    else
      var r := PageOf(stream, max, from, limits[0]);
      r.data + (if r.hasMore then Collect(stream, max, r.offset, limits[1..]) else [])
  }

  /**
   Whatever the page limits, the pages join up to an unbroken piece of the stream that
   starts where the reader started, and enough pages reach its end.
   */
  lemma {:induction false} PagesJoin(stream: seq<Byte>, max: nat, from: int, limits: seq<int>)
    requires Floor(|stream|, max) <= from <= |stream|
    ensures
      var text := Collect(stream, max, from, limits);
      && from + |text| <= |stream|
      && text == stream[from..from + |text|]
      && (|limits| >= |stream| - from && limits != [] ==> text == stream[from..])
    decreases |limits|
  {
    if limits != [] {
      var r := PageOf(stream, max, from, limits[0]);
      if r.hasMore {
        PagesJoin(stream, max, r.offset, limits[1..]);
        var rest := Collect(stream, max, r.offset, limits[1..]);
        assert stream[from..r.offset] + stream[r.offset..r.offset + |rest|] == stream[from..r.offset + |rest|];
      }
    }
  }
}
