/** UTF-8 text (section 3 of RFC 3629) and the byte-level cutting helpers of the bridge.

    A Rust `String` is modelled twice: as a `string` of Unicode scalar values, which is what the
    rest of the model works on, and as its encoded bytes, which is what the helpers cut.  The
    byte-level loops below are proved to compute the scalar-level functions. */
module Utf8 {

  type Byte = b: int | 0 <= b < 256

  /** Continuation bytes are 10xxxxxx. */
  predicate IsContinuation(b: Byte) {
    0x80 <= b < 0xC0
  }

  function Width(c: char): (w: nat)
    ensures 1 <= w <= 4
  {
    var n := c as int;
    if n < 0x80 then 1 else if n < 0x800 then 2 else if n < 0x1_0000 then 3 else 4
  }

  function EncodeChar(c: char): (r: seq<Byte>)
    ensures |r| == Width(c)
    ensures !IsContinuation(r[0])
    ensures forall i :: 1 <= i < |r| ==> IsContinuation(r[i])
  {
    var n := c as int;
    if n < 0x80 then [n]
    else if n < 0x800 then [0xC0 + n / 0x40, 0x80 + n % 0x40]
    else if n < 0x1_0000 then [0xE0 + n / 0x1000, 0x80 + n / 0x40 % 0x40, 0x80 + n % 0x40]
    else [0xF0 + n / 0x4_0000, 0x80 + n / 0x1000 % 0x40, 0x80 + n / 0x40 % 0x40, 0x80 + n % 0x40]
  }

  function Encode(s: string): seq<Byte> {
    if s == [] then [] else EncodeChar(s[0]) + Encode(s[1..])
  }

  /** Length in bytes, Rust's `str::len`. */
  function Size(s: string): nat {
    if s == [] then 0 else Width(s[0]) + Size(s[1..])
  }

  /** Rust's `str::is_char_boundary` on the encoded bytes. */
  predicate IsCharBoundary(bytes: seq<Byte>, i: nat) {
    i == 0 || i == |bytes| || (i < |bytes| && !IsContinuation(bytes[i]))
  }

  lemma {:induction false} EncodeSize(s: string)
    ensures |Encode(s)| == Size(s)
  {
    if s == [] {
    } else {
      EncodeSize(s[1..]);
    }
  }

  lemma {:induction false} SizeConcat(a: string, b: string)
    ensures Size(a + b) == Size(a) + Size(b)
  {
    if a == [] {
      assert a + b == b;
    } else {
      assert (a + b)[1..] == a[1..] + b;
      SizeConcat(a[1..], b);
    }
  }

  lemma {:induction false} EncodeConcat(a: string, b: string)
    ensures Encode(a + b) == Encode(a) + Encode(b)
  {
    if a == [] {
      assert a + b == b;
    } else {
      assert (a + b)[1..] == a[1..] + b;
      EncodeConcat(a[1..], b);
    }
  }

  lemma SizePrefixMonotone(s: string, m: nat, n: nat)
    requires m <= n <= |s|
    ensures Size(s[..m]) <= Size(s[..n])
    ensures m < n ==> Size(s[..m]) < Size(s[..n])
  {
    assert s[..n] == s[..m] + s[m..n];
    SizeConcat(s[..m], s[m..n]);
  }

  /** Byte offset i is a character boundary exactly when it is the size of a scalar prefix. */
  lemma {:induction false} BoundaryIff(s: string, i: nat)
    requires i <= Size(s)
    ensures IsCharBoundary(Encode(s), i) <==> exists n :: 0 <= n <= |s| && Size(s[..n]) == i
  {
    EncodeSize(s);
    if s == [] {
      assert Size(s[..0]) == 0;
    } else if i < Width(s[0]) {
      assert Size(s[..0]) == 0;
      forall n | 1 <= n <= |s|
        ensures Size(s[..n]) > i
      {
        assert s[..n][0] == s[0];
      }
    } else {
      var w, rest := Width(s[0]), s[1..];
      EncodeSize(rest);
      BoundaryIff(rest, i - w);
      assert IsCharBoundary(Encode(s), i) <==> IsCharBoundary(Encode(rest), i - w);
      forall n | 0 <= n <= |rest|
        ensures Size(s[..n + 1]) == w + Size(rest[..n])
      {
        assert s[..n + 1][1..] == rest[..n];
      }
      if n :| 0 <= n <= |rest| && Size(rest[..n]) == i - w {
        assert Size(s[..n + 1]) == i;
      }
      if n :| 0 <= n <= |s| && Size(s[..n]) == i {
        assert n > 0;
        assert Size(rest[..n - 1]) == i - w;
      }
    }
  }

  // ----- bounded -----

  /** How many scalars of s fit in max bytes. */
  function Fit(s: string, max: nat): (n: nat)
    ensures n <= |s|
  {
    if s == [] || Width(s[0]) > max then 0 else 1 + Fit(s[1..], max - Width(s[0]))
  }

  /** What Rust's `bounded(value, max)` returns. */
  function Bounded(s: string, max: nat): string {
    s[..Fit(s, max)]
  }

  /** `bounded` keeps the longest prefix that fits, and everything when everything fits. */
  lemma {:induction false} BoundedIsLongestPrefix(s: string, max: nat)
    ensures Size(Bounded(s, max)) <= max
    ensures forall n :: 0 <= n <= |s| && Size(s[..n]) <= max ==> n <= Fit(s, max)
    ensures Bounded(s, max) == s <==> Size(s) <= max
  {
    if s == [] {
    } else if Width(s[0]) > max {
      forall n | 1 <= n <= |s|
        ensures Size(s[..n]) > max
      {
        assert s[..n][0] == s[0];
      }
      assert s[..|s|] == s;
    } else {
      var w, rest := Width(s[0]), s[1..];
      BoundedIsLongestPrefix(rest, max - w);
      forall n | 0 <= n <= |rest|
        ensures Size(s[..n + 1]) == w + Size(rest[..n])
      {
        assert s[..n + 1][1..] == rest[..n];
      }
      assert Size(Bounded(s, max)) == w + Size(Bounded(rest, max - w));
      forall n | 1 <= n <= |s| && Size(s[..n]) <= max
        ensures n <= Fit(s, max)
      {
        assert Size(s[..n - 1 + 1]) == w + Size(rest[..n - 1]);
      }
      assert s[..|s|] == s;
    }
  }

  lemma BoundedAll(s: string, max: nat)
    requires Size(s) <= max
    ensures Bounded(s, max) == s
  {
    BoundedIsLongestPrefix(s, max);
  }

  lemma BoundedSize(s: string, max: nat)
    ensures Size(Bounded(s, max)) <= max
    ensures Size(Bounded(s, max)) <= Size(s)
    ensures Size(Bounded(s, max)) < Size(s) <==> Bounded(s, max) != s
  {
    BoundedIsLongestPrefix(s, max);
    SizePrefixMonotone(s, Fit(s, max), |s|);
    assert s[..|s|] == s;
  }

  /** The byte-level loop: cut at max and back up to a boundary.  `text` is what the bytes encode. */
  method BoundedBytes(value: seq<Byte>, maxBytes: nat, text: string) returns (r: seq<Byte>)
    requires value == Encode(text)
    ensures r == Encode(Bounded(text, maxBytes))
  {
    EncodeSize(text);
    r := value;
    if |value| > maxBytes {
      var end := maxBytes;
      while !IsCharBoundary(value, end)
        invariant 0 <= end <= maxBytes
        invariant forall k :: end < k <= maxBytes ==> !IsCharBoundary(value, k)
        decreases end
      {
        end := end - 1;
      }
      r := value[..end];
      CutIsBounded(text, maxBytes, end);
    } else {
      BoundedAll(text, maxBytes);
    }
  }

  /** The last boundary at or below max is where `Bounded` cuts. */
  lemma CutIsBounded(s: string, max: nat, end: nat)
    requires end <= max <= Size(s)
    requires IsCharBoundary(Encode(s), end)
    requires forall k :: end < k <= max ==> !IsCharBoundary(Encode(s), k)
    ensures |Encode(s)| == Size(s) && Encode(s)[..end] == Encode(Bounded(s, max))
  {
    var f := Fit(s, max);
    EncodeSize(s);
    BoundedIsLongestPrefix(s, max);
    BoundaryIff(s, end);
    var n :| 0 <= n <= |s| && Size(s[..n]) == end;
    SizePrefixMonotone(s, n, f);
    BoundaryIff(s, Size(s[..f]));
    assert Size(s[..f]) == end;
    assert s == s[..f] + s[f..];
    EncodeConcat(s[..f], s[f..]);
    EncodeSize(s[..f]);
  }

  // ----- utf8_chunks -----

  /** The effective limit of a chunk: `max_bytes.max(1)`. */
  function Limit(max: nat): nat {
    if max == 0 then 1 else max
  }

  predicate EveryCharFits(s: string, max: nat) {
    forall c :: c in s ==> Width(c) <= Limit(max)
  }

  /** What is left after the iterator has produced n chunks. */
  function Remaining(s: string, max: nat, n: nat): string
    decreases n
  {
    if n == 0 then s else Remaining(s[Fit(s, Limit(max))..], max, n - 1)
  }

  /** The iterator stops on s exactly when no single character exceeds the limit; for a smaller
      limit it yields empty chunks for ever. */
  lemma ChunkingStopsIff(s: string, max: nat)
    ensures (exists n: nat :: Remaining(s, max, n) == []) <==> EveryCharFits(s, max)
  {
    if EveryCharFits(s, max) {
      ChunkingStops(s, max);
    } else {
      forall n: nat
        ensures Remaining(s, max, n) != []
      {
        ChunkingSticks(s, max, n);
      }
    }
  }

  lemma {:induction false} ChunkingStops(s: string, max: nat)
    requires EveryCharFits(s, max)
    ensures exists n: nat :: Remaining(s, max, n) == []
    decreases |s|
  {
    if s == [] {
      assert Remaining(s, max, 0) == [];
    } else {
      assert s[0] in s;
      var rest := s[Fit(s, Limit(max))..];
      ChunkingStops(rest, max);
      var n: nat :| Remaining(rest, max, n) == [];
      assert Remaining(s, max, n + 1) == [];
    }
  }

  lemma {:induction false} ChunkingSticks(s: string, max: nat, n: nat)
    requires !EveryCharFits(s, max)
    ensures Remaining(s, max, n) != []
    decreases n
  {
    hide Fit, Width;
    if n == 0 {
    } else {
      FitFits(s, Limit(max));
      var c :| c in s && Width(c) > Limit(max);
      var f := Fit(s, Limit(max));
      assert s == s[..f] + s[f..];
      assert c in s[f..];
      ChunkingSticks(s[f..], max, n - 1);
    }
  }

  lemma {:induction false} FitFits(s: string, max: nat)
    ensures forall c :: c in s[..Fit(s, max)] ==> Width(c) <= max
  {
    if s == [] || Width(s[0]) > max {
    } else {
      FitFits(s[1..], max - Width(s[0]));
      assert s[..Fit(s, max)] == [s[0]] + s[1..][..Fit(s[1..], max - Width(s[0]))];
    }
  }

  function Chunks(s: string, max: nat): (r: seq<string>)
    requires EveryCharFits(s, max)
  {
    if s == [] then []
    else
      assert s[0] in s;
      var f := Fit(s, Limit(max));
      [s[..f]] + Chunks(s[f..], max)
  }

  function Concat(parts: seq<string>): string {
    if parts == [] then [] else parts[0] + Concat(parts[1..])
  }

  /** Round trip: the chunks rebuild the text, and each is non-empty and within the limit. */
  lemma {:induction false} ChunksRoundTrip(s: string, max: nat)
    requires EveryCharFits(s, max)
    ensures Concat(Chunks(s, max)) == s
    ensures forall p :: p in Chunks(s, max) ==> p != [] && Size(p) <= Limit(max)
    ensures s != [] ==> Chunks(s, max) != []
    decreases |s|
  {
    if s == [] {
    } else {
      assert s[0] in s;
      var f := Fit(s, Limit(max));
      BoundedIsLongestPrefix(s, Limit(max));
      ChunksRoundTrip(s[f..], max);
      assert s == s[..f] + s[f..];
    }
  }

  lemma FourBytesFitEverything(s: string, max: nat)
    requires max >= 4
    ensures EveryCharFits(s, max)
  {
  }

  /** One step of the iterator: cut at the limit and back up to a boundary. */
  method ChunkEnd(remaining: seq<Byte>, maxBytes: nat, rest: string) returns (end: nat)
    requires remaining == Encode(rest)
    ensures end <= |remaining|
    ensures remaining[..end] == Encode(rest[..Fit(rest, Limit(maxBytes))])
    ensures remaining[end..] == Encode(rest[Fit(rest, Limit(maxBytes))..])
  {
    EncodeSize(rest);
    var limit := if maxBytes == 0 then 1 else maxBytes;
    end := if |remaining| < limit then |remaining| else limit;
    ghost var start := end;
    while !IsCharBoundary(remaining, end)
      invariant 0 <= end <= start
      invariant forall k :: end < k <= start ==> !IsCharBoundary(remaining, k)
      decreases end
    {
      end := end - 1;
    }
    CutIsBounded(rest, start, end);
    FitAtLeastSize(rest, limit, start);
    ChunkTail(rest, Fit(rest, limit));
  }

  /** The byte-level iterator, drained. */
  method Utf8Chunks(value: seq<Byte>, maxBytes: nat, text: string) returns (chunks: seq<seq<Byte>>)
    requires value == Encode(text)
    requires EveryCharFits(text, maxBytes)
    ensures |chunks| == |Chunks(text, maxBytes)|
    ensures forall i :: 0 <= i < |chunks| ==> chunks[i] == Encode(Chunks(text, maxBytes)[i])
  {
    chunks := [];
    var remaining := value;
    var rest := text;
    while remaining != []
      invariant remaining == Encode(rest) && EveryCharFits(rest, maxBytes)
      invariant |chunks| + |Chunks(rest, maxBytes)| == |Chunks(text, maxBytes)|
      invariant Chunks(text, maxBytes)[|chunks|..] == Chunks(rest, maxBytes)
      invariant forall i :: 0 <= i < |chunks| ==> chunks[i] == Encode(Chunks(text, maxBytes)[i])
      decreases |rest|
    {
      assert rest[0] in rest;
      var end := ChunkEnd(remaining, maxBytes, rest);
      chunks := chunks + [remaining[..end]];
      remaining := remaining[end..];
      rest := rest[Fit(rest, Limit(maxBytes))..];
    }
  }

  /** Cutting at the whole size is the same as cutting at a larger limit. */
  lemma FitAtLeastSize(s: string, limit: nat, start: nat)
    requires start == if Size(s) < limit then Size(s) else limit
    ensures Fit(s, start) == Fit(s, limit)
  {
    if Size(s) < limit {
      BoundedAll(s, limit);
      BoundedAll(s, Size(s));
      assert |s[..Fit(s, limit)]| == |s[..Fit(s, Size(s))]|;
    }
  }

  lemma ChunkTail(s: string, f: nat)
    requires f <= |s|
    ensures |Encode(s[..f])| <= |Encode(s)| && Encode(s)[|Encode(s[..f])|..] == Encode(s[f..])
  {
    assert s == s[..f] + s[f..];
    EncodeConcat(s[..f], s[f..]);
  }
}
