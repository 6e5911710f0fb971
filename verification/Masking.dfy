/** The datagram masking layer under QUIC: each segment travels as a random IV followed by
    the payload XORed with a keystream.  The keystream is any function of the IV and the
    position (the shared secret is fixed for a session). */
module Masking {
  import opened Wrappers

  const IV_LEN: nat := 12

  type Octets = seq<bv8>
  type Iv = s: Octets | |s| == 12 witness [0, 0, 0, 0, 0, 0, 0, 0, 0, 0, 0, 0]
  type Keystream = (Octets, nat) -> bv8

  /** Length of what was received and the stride its segments are cut at (`RecvMeta`). */
  datatype Meta = Meta(len: nat, stride: nat)

  function Min(a: nat, b: nat): nat { if a <= b then a else b }

  function Xor(ks: Keystream, iv: Octets, data: Octets): (r: Octets)
    ensures |r| == |data|
  {
    seq(|data|, i requires 0 <= i < |data| => data[i] ^ ks(iv, i))
  }

  lemma XorSelf(a: bv8, b: bv8)
    ensures (a ^ b) ^ b == a
  {}

  lemma XorTwice(ks: Keystream, iv: Octets, data: Octets)
    ensures Xor(ks, iv, Xor(ks, iv, data)) == data
  {
    forall i | 0 <= i < |data|
      ensures Xor(ks, iv, Xor(ks, iv, data))[i] == data[i]
    {
      XorSelf(data[i], ks(iv, i));
    }
  }

  // ----- Sending -----

  /** `effective_segment_size`: a usable size below the payload length, else the whole. */
  function EffectiveSegment(len: nat, size: Option<nat>): (r: nat)
    ensures r >= 1
    ensures len > 0 ==> r <= len
  {
    if size.Some? && 0 < size.value < len then size.value else if len == 0 then 1 else len
  }

  /** The wire image of a payload cut at `seg`; `ivs` supplies the random IVs in order. */
  function Masked(ks: Keystream, data: Octets, seg: nat, ivs: nat -> Iv, k: nat): Octets
    requires seg >= 1
    decreases |data|
  {
    if data == [] then []
    else
      var n := Min(seg, |data|);
      ivs(k) + Xor(ks, ivs(k), data[..n]) + Masked(ks, data[n..], seg, ivs, k + 1)
  }

  lemma MaskedStep(ks: Keystream, contents: Octets, pos: nat, seg: nat, ivs: nat -> Iv, k: nat, out: Octets)
    requires seg >= 1 && pos < |contents|
    ensures var n := Min(seg, |contents| - pos);
      out + Masked(ks, contents[pos..], seg, ivs, k)
      == (out + ivs(k) + Xor(ks, ivs(k), contents[pos..pos + n])) + Masked(ks, contents[pos + n..], seg, ivs, k + 1)
  {
    hide Xor;
    var n, rest := Min(seg, |contents| - pos), contents[pos..];
    assert rest[..n] == contents[pos..pos + n] && rest[n..] == contents[pos + n..];
  }

  /** The `n` bytes of `b` at `y` are those of `a` at `x`, each under its keystream byte. */
  ghost predicate Under(ks: Keystream, iv: Octets, a: Octets, x: nat, b: Octets, y: nat, n: nat) {
    x + n <= |a| && y + n <= |b| && forall j :: 0 <= j < n ==> b[y + j] == a[x + j] ^ ks(iv, j)
  }

  lemma UnderShifts(ks: Keystream, iv: Octets, a: Octets, x: nat, b: Octets, y: nat, n: nat, u: nat, v: nat)
    requires u <= |a| && v <= |b| && Under(ks, iv, a[u..], x, b[v..], y, n)
    ensures Under(ks, iv, a, x + u, b, y + v, n)
  {
    forall j | 0 <= j < n ensures b[y + v + j] == a[x + u + j] ^ ks(iv, j) {
      assert b[v..][y + j] == a[u..][x + j] ^ ks(iv, j);
    }
  }

  lemma XorIsUnder(ks: Keystream, iv: Octets, a: Octets, x: nat, b: Octets, y: nat, n: nat)
    requires x + n <= |a| && y + n <= |b| && b[y..y + n] == Xor(ks, iv, a[x..x + n])
    ensures Under(ks, iv, a, x, b, y, n)
  {
    forall j | 0 <= j < n ensures b[y + j] == a[x + j] ^ ks(iv, j) {
      assert b[y..y + n][j] == a[x..x + n][j] ^ ks(iv, j);
    }
  }

  /** Segment `k` of the payload on the wire, byte for byte: the IV in the clear, then each
      payload byte under its keystream byte. */
  ghost predicate SegmentOnWire(ks: Keystream, data: Octets, seg: nat, iv: Octets, wire: Octets, k: nat) {
    k * seg < |data| ==> OnWireAt(ks, data, k * seg, iv, wire, k * (seg + 12), Min(seg, |data| - k * seg))
  }

  ghost predicate OnWireAt(ks: Keystream, data: Octets, x: nat, iv: Octets, wire: Octets, y: nat, n: nat) {
    y + 12 <= |wire| && wire[y..y + 12] == iv && Under(ks, iv, data, x, wire, y + 12, n)
  }

  /** How many segments of `seg` bytes hold `len`. */
  function Pieces(len: nat, seg: nat): nat
    requires seg >= 1
  {
    (len + seg - 1) / seg
  }

  lemma PiecesStep(len: nat, seg: nat)
    requires seg >= 1 && len > 0
    ensures Pieces(len, seg) == 1 + Pieces(len - Min(seg, len), seg)
  {
    var rest := len - Min(seg, len);
    var q := Pieces(rest, seg);
    assert q * seg <= rest + seg - 1 < q * seg + seg;
    if len >= seg {
      NextMultiple(q * seg, seg, q);
      DivUnique(len + seg - 1, seg, q + 1);
    } else {
      DivUnique(seg - 1, seg, 0);
      DivUnique(len + seg - 1, seg, 1);
    }
  }

  lemma {:induction false} MaskedLen(ks: Keystream, data: Octets, seg: nat, ivs: nat -> Iv, k: nat)
    requires seg >= 1
    ensures |Masked(ks, data, seg, ivs, k)| == |data| + 12 * Pieces(|data|, seg)
    decreases |data|
  {
    hide Xor;
    if data == [] {
      DivUnique(seg - 1, seg, 0);
    } else {
      PiecesStep(|data|, seg);
      MaskedShape(ks, data, seg, ivs, k);
      MaskedLen(ks, data[Min(seg, |data|)..], seg, ivs, k + 1);
    }
  }

  lemma MaskedFirst(ks: Keystream, data: Octets, seg: nat, ivs: nat -> Iv, k0: nat)
    requires seg >= 1
    ensures SegmentOnWire(ks, data, seg, ivs(k0), Masked(ks, data, seg, ivs, k0), 0)
  {
    if data != [] {
      MaskedShape(ks, data, seg, ivs, k0);
      hide Masked, Xor, Under;
      var n, wire := Min(seg, |data|), Masked(ks, data, seg, ivs, k0);
      assert wire[0..12] == wire[..12] && data[0..n] == data[..n];
      XorIsUnder(ks, ivs(k0), data, 0, wire, 12, n);
      assert 0 * seg == 0 && 0 * (seg + 12) == 0;
    }
  }

  lemma OnWireShifts(ks: Keystream, data: Octets, x: nat, iv: Octets, wire: Octets, y: nat, n: nat, u: nat, v: nat)
    requires u <= |data| && v <= |wire| && OnWireAt(ks, data[u..], x, iv, wire[v..], y, n)
    ensures OnWireAt(ks, data, x + u, iv, wire, y + v, n)
  {
    hide Under;
    UnderShifts(ks, iv, data, x, wire, y + 12, n, u, v);
    assert wire[v..][y..y + 12] == wire[y + v..y + v + 12];
  }

  lemma SegmentShifts(ks: Keystream, data: Octets, seg: nat, iv: Octets, wire: Octets, k: nat)
    requires seg >= 1 && k >= 1 && seg <= |data| && seg + 12 <= |wire|
    requires SegmentOnWire(ks, data[seg..], seg, iv, wire[seg + 12..], k - 1)
    ensures SegmentOnWire(ks, data, seg, iv, wire, k)
  {
    hide OnWireAt;
    var x, y := (k - 1) * seg, (k - 1) * (seg + 12);
    assert k * seg == x + seg && k * (seg + 12) == y + (seg + 12);
    if k * seg < |data| {
      OnWireShifts(ks, data, x, iv, wire, y, Min(seg, |data| - k * seg), seg, seg + 12);
    }
  }

  /** The wire image, byte for byte. */
  lemma {:induction false} MaskedAt(ks: Keystream, data: Octets, seg: nat, ivs: nat -> Iv, k0: nat, k: nat)
    requires seg >= 1
    ensures SegmentOnWire(ks, data, seg, ivs(k0 + k), Masked(ks, data, seg, ivs, k0), k)
    decreases k
  {
    if k == 0 {
      MaskedFirst(ks, data, seg, ivs, k0);
    } else if |data| > seg {
      MaskedShape(ks, data, seg, ivs, k0);
      MaskedAt(ks, data[seg..], seg, ivs, k0 + 1, k - 1);
      hide Masked, SegmentOnWire;
      SegmentShifts(ks, data, seg, ivs(k0 + k), Masked(ks, data, seg, ivs, k0), k);
    } else {
      MulLess(0, k, seg);
    }
  }

  method EncodeTransmit(ks: Keystream, contents: Octets, size: Option<nat>, ivs: nat -> Iv)
    returns (out: Octets, segment: Option<nat>)
    ensures out == Masked(ks, contents, EffectiveSegment(|contents|, size), ivs, 0)
    // A usable size is kept and announced with room for the IV; otherwise there is one segment.
    ensures segment == if size.Some? && 0 < size.value < |contents| then Some(size.value + 12) else None
    ensures var seg := if segment.Some? then size.value else |contents|;
      && (forall k: nat :: SegmentOnWire(ks, contents, seg, ivs(k), out, k))
      && (contents == [] ==> out == []) && (seg >= 1 ==> |out| == |contents| + 12 * Pieces(|contents|, seg))
  {
    hide Xor, Masked, SegmentOnWire, Pieces;
    out := [];
    var seg := EffectiveSegment(|contents|, size);
    var count := (|contents| + seg - 1) / seg;
    CeilDiv(|contents|, seg);
    segment := if count > 1 then Some(seg + IV_LEN) else None;
    var pos, k := 0, 0;
    assert contents[0..] == contents && [] + Masked(ks, contents, seg, ivs, 0) == Masked(ks, contents, seg, ivs, 0);
    while pos < |contents|
      invariant 0 <= pos <= |contents|
      invariant out + Masked(ks, contents[pos..], seg, ivs, k) == Masked(ks, contents, seg, ivs, 0)
    {
      MaskedStep(ks, contents, pos, seg, ivs, k, out);
      var n := Min(seg, |contents| - pos);
      out := out + ivs(k) + Xor(ks, ivs(k), contents[pos..pos + n]);
      pos, k := pos + n, k + 1;
    }
    MaskedEmpty(ks, contents[pos..], seg, ivs, k);
    assert out + [] == out;
    if contents == [] { MaskedEmpty(ks, contents, seg, ivs, 0); }
    MaskedLen(ks, contents, seg, ivs, 0);
    forall k: nat ensures SegmentOnWire(ks, contents, seg, ivs(k), out, k) { MaskedAt(ks, contents, seg, ivs, 0, k); }
    forall k: nat | contents == [] ensures SegmentOnWire(ks, contents, 0, ivs(k), out, k) {
      NothingOnWire(ks, ivs(k), out, k);
    }
  }

  lemma NothingOnWire(ks: Keystream, iv: Octets, wire: Octets, k: nat)
    ensures SegmentOnWire(ks, [], 0, iv, wire, k)
  {}

  lemma MaskedEmpty(ks: Keystream, data: Octets, seg: nat, ivs: nat -> Iv, k: nat)
    requires seg >= 1 && data == []
    ensures Masked(ks, data, seg, ivs, k) == []
  {}

  /** More than one segment exactly when one does not hold the payload. */
  lemma CeilDiv(len: nat, seg: nat)
    requires seg >= 1
    ensures (len + seg - 1) / seg > 1 <==> seg < len
  {
    var q := (len + seg - 1) / seg;
    assert q * seg <= len + seg - 1 < q * seg + seg;
    if q > 1 { MulLess(1, q, seg); }
  }

  // ----- Receiving -----

  /** Every segment has room for its IV and at least one byte. */
  predicate Readable(m: Meta) {
    m.len > 0 && m.stride > IV_LEN && (m.len % m.stride == 0 || m.len % m.stride > IV_LEN)
  }

  /** Walking `len` bytes in strides, every segment has an IV of 12 bytes and something after it. */
  predicate SegmentsFilled(len: nat, stride: nat)
    requires stride > 0
    decreases len
  {
    len == 0 || (Min(stride, len) > 12 && SegmentsFilled(len - Min(stride, len), stride))
  }

  lemma OneStrideLess(len: nat, stride: nat)
    requires 0 < stride
    ensures len < stride ==> len % stride == len
    ensures stride <= len ==> len % stride == (len - stride) % stride
  {
    if stride <= len { ModAdd(len - stride, stride); }
  }

  /** Nothing over, or more than an IV. */
  predicate Filled(rest: nat) { rest == 0 || rest > 12 }

  lemma {:induction false} FilledIs(len: nat, stride: nat)
    requires stride > 12
    ensures SegmentsFilled(len, stride) <==> Filled(len % stride)
    decreases len
  {
    var rest := len % stride;
    OneStrideLess(len, stride);
    if len >= stride {
      FilledIs(len - stride, stride);
    } else if len > 0 {
      assert SegmentsFilled(len - len, stride);
    }
  }

  lemma ReadableIs(m: Meta)
    ensures Readable(m) <==> m.len > 0 && m.stride > 0 && SegmentsFilled(m.len, m.stride)
  {
    if m.stride > 12 { FilledIs(m.len, m.stride); }
  }

  function Unmasked(ks: Keystream, wire: Octets, stride: nat): Octets
    requires stride > IV_LEN
    decreases |wire|
  {
    var n := Min(stride, |wire|);
    if n <= IV_LEN then []
    else Xor(ks, wire[..IV_LEN], wire[IV_LEN..n]) + Unmasked(ks, wire[n..], stride)
  }

  lemma LastSegment(len: nat, stride: nat, k: nat)
    requires stride > 0 && k * stride <= len < k * stride + stride
    ensures len % stride == len - k * stride
  {
    DivUnique(len, stride, k);
  }

  lemma DivUnique(len: nat, stride: nat, k: nat)
    requires stride > 0 && k * stride <= len < k * stride + stride
    ensures len / stride == k
  {
    var q := len / stride;
    assert q * stride <= len < q * stride + stride;
    if q < k { MulLess(q, k, stride); }
    if k < q { MulLess(k, q, stride); }
  }

  lemma MulLess(a: nat, b: nat, s: nat)
    requires a < b
    ensures a * s + s <= b * s
    decreases b
  {
    if a + 1 < b { MulLess(a, b - 1, s); }
    assert b * s == (b - 1) * s + s;
  }

  predicate Multiple(n: nat, stride: nat, k: nat) { n == k * stride }

  lemma NextMultiple(n: nat, stride: nat, k: nat)
    requires Multiple(n, stride, k)
    ensures Multiple(n + stride, stride, k + 1)
  {}

  /** Where the cut falls decides whether the last segment is whole, short or too short. */
  lemma LastCut(len: nat, stride: nat, start: nat, k: nat)
    requires stride > 0 && Multiple(start, stride, k) && len <= start + stride && len > start
    ensures len == start + stride ==> len % stride == 0
    ensures len < start + stride ==> len % stride == len - start
  {
    if len < start + stride { LastSegment(len, stride, k); }
    else { NextMultiple(start, stride, k); LastSegment(len, stride, k + 1); }
  }

  lemma CutDecides(m: Meta, start: nat, k: nat)
    requires m.stride > IV_LEN && Multiple(start, m.stride, k) && start < m.len
    ensures Min(start + m.stride, m.len) - start <= IV_LEN ==> !Readable(m)
    ensures Min(start + m.stride, m.len) - start > IV_LEN && start + m.stride >= m.len ==> Readable(m)
  {
    if start + m.stride >= m.len { LastCut(m.len, m.stride, start, k); }
  }

  /** One segment of the wire image opened: its plain bytes, then the rest. */
  lemma UnmaskedStep(ks: Keystream, wire: Octets, at: nat, stride: nat, plain: Octets)
    requires stride > IV_LEN && at < |wire| && Min(at + stride, |wire|) - at > IV_LEN
    ensures var e := Min(at + stride, |wire|);
      plain + Unmasked(ks, wire[at..], stride)
      == (plain + Xor(ks, wire[at..at + IV_LEN], wire[at + IV_LEN..e])) + Unmasked(ks, wire[e..], stride)
  {
    hide Xor;
    var e, rest := Min(at + stride, |wire|), wire[at..];
    var n := e - at;
    assert rest[..IV_LEN] == wire[at..at + IV_LEN] && rest[IV_LEN..n] == wire[at + IV_LEN..e] && rest[n..] == wire[e..];
  }

  /** Segment `k` of a datagram opened, byte for byte: each byte after the IV under its keystream
      byte, the payloads of earlier segments before it. */
  ghost predicate SegmentInClear(ks: Keystream, wire: Octets, stride: nat, plain: Octets, k: nat)
    requires stride > 12
  {
    k * stride + 12 < |wire| ==>
      InClearAt(ks, wire, k * stride, plain, k * (stride - 12), Min(stride, |wire| - k * stride) - 12)
  }

  ghost predicate InClearAt(ks: Keystream, wire: Octets, x: nat, plain: Octets, y: nat, n: nat) {
    x + 12 <= |wire| && Under(ks, wire[x..x + 12], wire, x + 12, plain, y, n)
  }

  lemma UnmaskedFirst(ks: Keystream, wire: Octets, stride: nat)
    requires stride > IV_LEN
    ensures SegmentInClear(ks, wire, stride, Unmasked(ks, wire, stride), 0)
  {
    if |wire| > 12 {
      var n, plain := Min(stride, |wire|), Unmasked(ks, wire, stride);
      assert wire[0..0 + 12] == wire[..12];
      assert plain[0..0 + (n - 12)] == Xor(ks, wire[..12], wire[12..n]);
      hide Unmasked, Xor, Under;
      XorIsUnder(ks, wire[..12], wire, 12, plain, 0, n - 12);
      assert 0 * stride == 0 && 0 * (stride - 12) == 0;
    }
  }

  lemma InClearShifts(ks: Keystream, wire: Octets, x: nat, plain: Octets, y: nat, n: nat, u: nat, v: nat)
    requires u <= |wire| && v <= |plain| && InClearAt(ks, wire[u..], x, plain[v..], y, n)
    ensures InClearAt(ks, wire, x + u, plain, y + v, n)
  {
    hide Under;
    assert wire[u..][x..x + 12] == wire[x + u..x + u + 12];
    UnderShifts(ks, wire[x + u..x + u + 12], wire, x + 12, plain, y, n, u, v);
  }

  lemma OneMore(k: nat, s: nat)
    requires k >= 1
    ensures k * s == (k - 1) * s + s
  {}

  lemma ClearShifts(ks: Keystream, wire: Octets, stride: nat, plain: Octets, k: nat)
    requires stride > 12 && k >= 1 && stride <= |wire| && stride - 12 <= |plain|
    requires SegmentInClear(ks, wire[stride..], stride, plain[stride - 12..], k - 1)
    ensures SegmentInClear(ks, wire, stride, plain, k)
  {
    hide InClearAt;
    var x, y := (k - 1) * stride, (k - 1) * (stride - 12);
    OneMore(k, stride);
    OneMore(k, stride - 12);
    if k * stride + 12 < |wire| {
      InClearShifts(ks, wire, x, plain, y, Min(stride, |wire| - k * stride) - 12, stride, stride - 12);
    }
  }

  /** What a datagram opens to, byte for byte. */
  lemma {:induction false} UnmaskedAt(ks: Keystream, wire: Octets, stride: nat, k: nat)
    requires stride > IV_LEN
    ensures SegmentInClear(ks, wire, stride, Unmasked(ks, wire, stride), k)
    decreases k
  {
    if k == 0 {
      UnmaskedFirst(ks, wire, stride);
    } else if |wire| > stride {
      var plain := Unmasked(ks, wire, stride);
      assert plain[stride - 12..] == Unmasked(ks, wire[stride..], stride) by { hide Xor; }
      UnmaskedAt(ks, wire[stride..], stride, k - 1);
      hide Unmasked, SegmentInClear;
      ClearShifts(ks, wire, stride, plain, k);
    } else {
      MulLess(0, k, stride);
    }
  }

  /** A readable datagram loses exactly its IVs. */
  lemma {:induction false} UnmaskedLen(ks: Keystream, wire: Octets, stride: nat)
    requires stride > IV_LEN && (wire == [] || Readable(Meta(|wire|, stride)))
    ensures |Unmasked(ks, wire, stride)| + 12 * Pieces(|wire|, stride) == |wire|
    decreases |wire|
  {
    hide Xor;
    if wire == [] {
      DivUnique(stride - 1, stride, 0);
    } else {
      PiecesStep(|wire|, stride);
      if |wire| > stride {
        ModAdd(|wire| - stride, stride);
        UnmaskedLen(ks, wire[stride..], stride);
      } else if |wire| < stride {
        LastSegment(|wire|, stride, 0);
        UnmaskedLen(ks, [], stride);
      } else {
        UnmaskedLen(ks, [], stride);
      }
    }
  }

  /** `copy_within`, towards the front. */
  method CopyWithin(buf: array<bv8>, from: nat, n: nat, to: nat)
    requires to <= from && from + n <= buf.Length
    modifies buf
    ensures buf[to..to + n] == old(buf[from..from + n])
    ensures buf[..to] == old(buf[..to]) && buf[to + n..] == old(buf[to + n..])
  {
    forall i | 0 <= i < n { buf[to + i] := buf[from + i]; }
  }

  method ApplyKeystream(ks: Keystream, iv: Octets, buf: array<bv8>, at: nat, n: nat)
    requires at + n <= buf.Length
    modifies buf
    ensures buf[at..at + n] == Xor(ks, iv, old(buf[at..at + n]))
    ensures buf[..at] == old(buf[..at]) && buf[at + n..] == old(buf[at + n..])
  {
    ghost var was := buf[at..at + n];
    forall i | 0 <= i < n { buf[at + i] := buf[at + i] ^ ks(iv, i); }
    assert buf[..at] == old(buf[..at]) && buf[at + n..] == old(buf[at + n..]);
    forall i | 0 <= i < n ensures buf[at..at + n][i] == Xor(ks, iv, was)[i] {
      assert buf[at + i] == was[i] ^ ks(iv, i);
    }
  }

  /** One segment's payload has moved down to `to` with its mask stripped; what precedes `to`
      and what follows the segment is untouched. */
  ghost predicate SegmentOpened(ks: Keystream, was: Octets, now: Octets, from: nat, end: nat, to: nat)
    requires to <= from && from + IV_LEN < end <= |was|
  {
    var n := end - from - IV_LEN;
    && |now| == |was|
    && now[to..to + n] == Xor(ks, was[from..from + IV_LEN], was[from + IV_LEN..end])
    && now[..to] == was[..to] && now[end..] == was[end..]
  }

  method OpenSegment(ks: Keystream, buf: array<bv8>, from: nat, end: nat, to: nat)
    requires to <= from && from + IV_LEN < end <= buf.Length
    modifies buf
    ensures SegmentOpened(ks, old(buf[..]), buf[..], from, end, to)
  {
    hide Xor;
    var iv := buf[from..from + IV_LEN];
    var n := end - from - IV_LEN;
    ghost var was := buf[..];
    ghost var payload := buf[from + IV_LEN..end];
    assert iv == was[from..from + IV_LEN] && payload == was[from + IV_LEN..end];
    CopyWithin(buf, from + IV_LEN, n, to);
    ghost var moved := buf[..];
    assert moved[to..to + n] == payload && moved[..to] == was[..to] && moved[to + n..] == was[to + n..];
    ApplyKeystream(ks, iv, buf, to, n);
    ghost var now := buf[..];
    assert now[to..to + n] == Xor(ks, iv, payload) && now[..to] == moved[..to] && now[to + n..] == moved[to + n..];
    SameSlice(now, was, to + n, end, |now|);
    assert now[end..] == now[end..|now|] && was[end..] == was[end..|now|];
  }

  lemma SliceOfPrefix(a: Octets, len: nat, x: nat, y: nat)
    requires x <= y <= len <= |a|
    ensures a[..len][x..y] == a[x..y]
  {}

  lemma SameSlice(a: Octets, b: Octets, s: nat, x: nat, y: nat)
    requires s <= x <= y <= |a| == |b| && a[s..] == b[s..]
    ensures a[x..y] == b[x..y]
  {
    assert forall i :: s <= i < |a| ==> a[i] == a[s..][i - s] && b[i] == b[s..][i - s];
  }

  /** The plain bytes so far are at the front and the unread image is untouched. */
  ghost predicate Opened(ks: Keystream, buf: Octets, image: Octets, len: nat, stride: nat, start: nat, write: nat) {
    && |buf| == |image| && len <= |image| && stride > IV_LEN && write <= Min(start, len)
    && buf[..write] + Unmasked(ks, image[..len][Min(start, len)..], stride) == Unmasked(ks, image[..len], stride)
    && buf[Min(start, len)..] == image[Min(start, len)..]
  }

  lemma OpenedStep(ks: Keystream, was: Octets, buf: Octets, image: Octets, len: nat, stride: nat, start: nat,
                   write: nat)
    requires Opened(ks, was, image, len, stride, start, write) && start < len
    requires Min(start + stride, len) - start > IV_LEN
    requires SegmentOpened(ks, was, buf, start, Min(start + stride, len), write)
    ensures Opened(ks, buf, image, len, stride, start + stride, write + Min(start + stride, len) - start - IV_LEN)
  {
    hide Xor, Unmasked;
    var end := Min(start + stride, len);
    var n := end - start - IV_LEN;
    var wire := image[..len];
    SameSlice(was, image, start, start, start + IV_LEN);
    SameSlice(was, image, start, start + IV_LEN, end);
    SameSlice(was, image, start, end, |was|);
    SliceOfPrefix(image, len, start, start + IV_LEN);
    SliceOfPrefix(image, len, start + IV_LEN, end);
    assert was[end..] == was[end..|was|] && image[end..] == image[end..|was|];
    UnmaskedStep(ks, wire, start, stride, was[..write]);
    assert buf[..write + n] == buf[..write] + buf[write..write + n];
  }

  /** One turn of the loop: the next segment is opened, or is too short for its IV. */
  method OpenNext(ks: Keystream, buf: array<bv8>, meta: Meta, start: nat, write: nat, ghost image: Octets, ghost k: nat)
    returns (ok: bool, written: nat)
    requires Opened(ks, buf[..], image, meta.len, meta.stride, start, write)
    requires Multiple(start, meta.stride, k) && start < meta.len
    modifies buf
    ensures !ok ==> !Readable(meta) && buf[..] == old(buf[..]) && written == write
    ensures ok ==> Opened(ks, buf[..], image, meta.len, meta.stride, start + meta.stride, written)
    ensures ok && start + meta.stride >= meta.len ==> Readable(meta)
  {
    hide Xor, Unmasked, Multiple, Opened, Readable, SegmentOpened;
    OpenedTail(ks, buf[..], image, meta.len, meta.stride, start, write);
    CutDecides(meta, start, k);
    var end := Min(start + meta.stride, meta.len);
    if end - start <= IV_LEN {
      return false, write;
    }
    ghost var was := buf[..];
    OpenSegment(ks, buf, start, end, write);
    OpenedStep(ks, was, buf[..], image, meta.len, meta.stride, start, write);
    return true, write + (end - start - IV_LEN);
  }

  /** `decrypt_meta_payload`: compacts the payloads to the front of the buffer.  The write
      position never passes the segment being read, so no unread byte is overwritten. */
  method DecryptMetaPayload(ks: Keystream, buf: array<bv8>, meta: Meta) returns (ok: bool, m: Meta)
    requires meta.len <= buf.Length
    modifies buf
    ensures ok <==> Readable(meta)
    ensures !ok ==> m == meta
    ensures ok ==>
      var plain := Unmasked(ks, old(buf[..meta.len]), meta.stride);
      m == Meta(|plain|, meta.stride - IV_LEN) && |plain| <= meta.len && buf[..|plain|] == plain
    ensures ok ==> m.stride == meta.stride - 12 && m.len + 12 * Pieces(meta.len, meta.stride) == meta.len
    ensures ok ==> forall k: nat :: SegmentInClear(ks, old(buf[..meta.len]), meta.stride, buf[..m.len], k)
    ensures buf[meta.len..] == old(buf[meta.len..])
  {
    if meta.len == 0 || meta.stride <= IV_LEN {
      return false, meta;
    }
    hide Xor, Unmasked, Multiple, Opened, Readable, SegmentInClear, Pieces;
    var len, stride := meta.len, meta.stride;
    ghost var image := buf[..];
    var write: nat, start: nat := 0, 0;
    ghost var k: nat := 0;
    OpenedAtFirst(ks, image, len, stride);
    assert image[..len] == buf[..len] && image[len..] == buf[len..];
    ok := true;
    while start < len && ok
      invariant Multiple(start, stride, k) && (ok && start >= len ==> Readable(meta)) && (!ok ==> !Readable(meta))
      invariant Opened(ks, buf[..], image, len, stride, start, write)
      decreases len - start, ok
    {
      ok, write := OpenNext(ks, buf, meta, start, write, image, k);
      if ok {
        NextMultiple(start, stride, k);
        start, k := start + stride, k + 1;
      }
    }
    OpenedTail(ks, buf[..], image, len, stride, start, write);
    assert buf[len..] == buf[..][len..];
    if !ok {
      return false, meta;
    }
    OpenedAtLast(ks, buf[..], image, len, stride, start, write);
    UnmaskedLen(ks, image[..len], stride);
    forall k: nat ensures SegmentInClear(ks, image[..len], stride, Unmasked(ks, image[..len], stride), k) {
      UnmaskedAt(ks, image[..len], stride, k);
    }
    return true, Meta(write, stride - IV_LEN);
  }

  lemma OpenedAtFirst(ks: Keystream, image: Octets, len: nat, stride: nat)
    requires len <= |image| && stride > IV_LEN
    ensures Opened(ks, image, image, len, stride, 0, 0)
    ensures Multiple(0, stride, 0)
  {
    hide Unmasked;
    assert image[..len][0..] == image[..len];
    assert [] + Unmasked(ks, image[..len], stride) == Unmasked(ks, image[..len], stride);
  }

  lemma OpenedAtLast(ks: Keystream, buf: Octets, image: Octets, len: nat, stride: nat, start: nat, write: nat)
    requires Opened(ks, buf, image, len, stride, start, write) && start >= len
    ensures buf[..write] == Unmasked(ks, image[..len], stride)
  {
    UnmaskedEnd(ks, image[..len][len..], stride);
    assert buf[..write] + [] == buf[..write];
  }

  lemma OpenedTail(ks: Keystream, buf: Octets, image: Octets, len: nat, stride: nat, start: nat, write: nat)
    requires Opened(ks, buf, image, len, stride, start, write)
    ensures |buf| == |image| && write <= Min(start, len) && len <= |image| && stride > IV_LEN
    ensures buf[len..] == image[len..]
  {
    hide Unmasked;
    var at := Min(start, len);
    assert buf[len..] == buf[at..][len - at..] && image[len..] == image[at..][len - at..];
  }

  lemma UnmaskedEnd(ks: Keystream, wire: Octets, stride: nat)
    requires stride > IV_LEN && wire == []
    ensures Unmasked(ks, wire, stride) == []
  {}

  // ----- Round trip -----

  lemma ModAdd(x: nat, stride: nat)
    requires stride > 0
    ensures (stride + x) % stride == x % stride
  {
    var q := x / stride;
    assert x == q * stride + x % stride;
    NextMultiple(q * stride, stride, q);
    LastSegment(stride + x, stride, q + 1);
  }

  /** One segment of a wire image: its IV, its masked payload, and the image of the rest. */
  lemma MaskedShape(ks: Keystream, data: Octets, seg: nat, ivs: nat -> Iv, k: nat)
    requires seg >= 1 && data != []
    ensures var n, wire := Min(seg, |data|), Masked(ks, data, seg, ivs, k);
      && |wire| == IV_LEN + n + |Masked(ks, data[n..], seg, ivs, k + 1)|
      && wire[..IV_LEN] == ivs(k) && wire[IV_LEN..IV_LEN + n] == Xor(ks, ivs(k), data[..n])
      && wire[IV_LEN + n..] == Masked(ks, data[n..], seg, ivs, k + 1)
  {
    hide Xor;
  }

  lemma MaskedFits(ks: Keystream, data: Octets, seg: nat, ivs: nat -> Iv, k: nat)
    requires seg >= 1 && data != []
    ensures Min(seg + IV_LEN, |Masked(ks, data, seg, ivs, k)|) == IV_LEN + Min(seg, |data|)
    ensures |data| <= seg ==> |Masked(ks, data, seg, ivs, k)| == IV_LEN + |data|
  {
    hide Xor;
    MaskedShape(ks, data, seg, ivs, k);
  }

  /** Opening the wire image of a payload at the matching stride gives the payload back. */
  lemma {:induction false} RoundTrip(ks: Keystream, data: Octets, seg: nat, ivs: nat -> Iv, k: nat)
    requires seg >= 1
    ensures Unmasked(ks, Masked(ks, data, seg, ivs, k), seg + IV_LEN) == data
    decreases |data|
  {
    if data == [] {
      MaskedEmpty(ks, data, seg, ivs, k);
    } else {
      hide Xor, Masked;
      var n, wire := Min(seg, |data|), Masked(ks, data, seg, ivs, k);
      MaskedShape(ks, data, seg, ivs, k);
      MaskedFits(ks, data, seg, ivs, k);
      RoundTrip(ks, data[n..], seg, ivs, k + 1);
      XorTwice(ks, ivs(k), data[..n]);
      assert Unmasked(ks, wire, seg + IV_LEN) == data[..n] + data[n..];
    }
  }

  /** The receiver finds every segment of a wire image readable. */
  lemma {:induction false} ImageReadable(ks: Keystream, data: Octets, seg: nat, ivs: nat -> Iv, k: nat)
    requires seg >= 1 && data != []
    ensures Readable(Meta(|Masked(ks, data, seg, ivs, k)|, seg + IV_LEN))
    decreases |data|
  {
    hide Xor, Masked;
    var stride, len := seg + IV_LEN, |Masked(ks, data, seg, ivs, k)|;
    MaskedShape(ks, data, seg, ivs, k);
    MaskedFits(ks, data, seg, ivs, k);
    if |data| > seg {
      ImageReadable(ks, data[seg..], seg, ivs, k + 1);
      ModAdd(len - stride, stride);
    } else if len == stride {
      ModAdd(0, stride);
    } else {
      LastSegment(len, stride, 0);
    }
  }

  /** What the peer's `decrypt_meta_payload` makes of an encoded transmit: the payload, its
      length and the segment size the sender asked for. */
  lemma TransmitSurvives(ks: Keystream, contents: Octets, size: Option<nat>, ivs: nat -> Iv)
    requires contents != []
    ensures var seg := EffectiveSegment(|contents|, size);
      var wire := Masked(ks, contents, seg, ivs, 0);
      // The stride is the announced segment size, or the whole datagram without one.
      var stride := if seg < |contents| then seg + IV_LEN else |wire|;
      && stride > IV_LEN && Readable(Meta(|wire|, stride))
      && Unmasked(ks, wire, stride) == contents
      && stride == 12 + if size.Some? && 0 < size.value < |contents| then size.value else |contents|
  {
    hide Xor, Masked, Unmasked, Readable;
    var seg := EffectiveSegment(|contents|, size);
    RoundTrip(ks, contents, seg, ivs, 0);
    ImageReadable(ks, contents, seg, ivs, 0);
    MaskedFits(ks, contents, seg, ivs, 0);
  }
}
