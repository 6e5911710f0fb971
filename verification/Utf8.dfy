/** UTF-8 as section 4 of RFC 3629 defines it, and the character-boundary cut that
    `ConnectErr` uses. */
module Utf8 {
  import opened FlowControl

  predicate Tail(b: Byte) { 0x80 <= b <= 0xBF }

  /** Length of the well-formed character that `s` starts with, 0 when there is none. */
  function CharLen(s: Bytes): (n: nat)
    ensures n <= 4 && n <= |s|
  {
    if |s| == 0 then 0
    else if s[0] <= 0x7F then 1
    else if |s| >= 2 && 0xC2 <= s[0] <= 0xDF && Tail(s[1]) then 2
    else if |s| >= 3 && 0xE0 <= s[0] <= 0xEF && Second3(s[0], s[1]) && Tail(s[2]) then 3
    else if |s| >= 4 && 0xF0 <= s[0] <= 0xF4 && Second4(s[0], s[1]) && Tail(s[2]) && Tail(s[3]) then 4
    else 0
  }

  // No overlong forms and no surrogates.
  predicate Second3(a: Byte, b: Byte) {
    Tail(b) && (a == 0xE0 ==> 0xA0 <= b) && (a == 0xED ==> b <= 0x9F)
  }

  // No overlong forms and nothing above U+10FFFF.
  predicate Second4(a: Byte, b: Byte) {
    Tail(b) && (a == 0xF0 ==> 0x90 <= b) && (a == 0xF4 ==> b <= 0x8F)
  }

  predicate Valid(s: Bytes) {
    s == [] || (CharLen(s) > 0 && Valid(s[CharLen(s)..]))
  }

  /** A Rust `String`. */
  type Text = s: Bytes | Valid(s) witness []

  predicate Scalar(c: nat) { c < 0xD800 || 0xE000 <= c <= 0x10FFFF }

  /** The bytes of one character. */
  function CharBytes(c: nat): Bytes
    requires Scalar(c)
  {
    if c < 0x80 then [c]
    else if c < 0x800 then [0xC0 + c / 64, 0x80 + c % 64]
    else if c < 0x1_0000 then [0xE0 + c / 4096, 0x80 + c / 64 % 64, 0x80 + c % 64]
    else [0xF0 + c / 262144, 0x80 + c / 4096 % 64, 0x80 + c / 64 % 64, 0x80 + c % 64]
  }

  function AllBytes(cs: seq<nat>): Bytes
    requires forall i :: 0 <= i < |cs| ==> Scalar(cs[i])
  {
    if cs == [] then [] else CharBytes(cs[0]) + AllBytes(cs[1..])
  }

  lemma TwoBytes(a: Byte, b: Byte) returns (c: nat)
    requires 0xC2 <= a <= 0xDF && Tail(b)
    ensures Scalar(c) && CharBytes(c) == [a, b]
  {
    var x: int, y: int := a, b;
    c := 64 * (x - 0xC0) + (y - 0x80);
  }

  lemma ThreeBytes(a: Byte, b: Byte, d: Byte) returns (c: nat)
    requires 0xE0 <= a <= 0xEF && Second3(a, b) && Tail(d)
    ensures Scalar(c) && CharBytes(c) == [a, b, d]
  {
    var x: int, y: int, z: int := a, b, d;
    var high := 64 * (x - 0xE0) + (y - 0x80);
    c := 64 * high + (z - 0x80);
    assert c / 64 == high && c / 4096 == high / 64;
  }

  lemma FourBytes(a: Byte, b: Byte, d: Byte, e: Byte) returns (c: nat)
    requires 0xF0 <= a <= 0xF4 && Second4(a, b) && Tail(d) && Tail(e)
    ensures Scalar(c) && CharBytes(c) == [a, b, d, e]
  {
    var w: int, x: int, y: int, z: int := a, b, d, e;
    var top := 64 * (w - 0xF0) + (x - 0x80);
    var high := 64 * top + (y - 0x80);
    c := 64 * high + (z - 0x80);
    assert c / 64 == high && c / 4096 == high / 64 == top && c / 262144 == top / 64;
  }

  /** What counts as one character is the encoding of one. */
  lemma CharIs(s: Bytes) returns (c: nat)
    requires CharLen(s) > 0
    ensures Scalar(c) && CharBytes(c) == s[..CharLen(s)]
  {
    hide CharBytes, Second3, Second4;
    if CharLen(s) == 1 {
      c := s[0];
      Ascii(c);
    } else if CharLen(s) == 2 {
      c := TwoBytes(s[0], s[1]);
    } else if CharLen(s) == 3 {
      c := ThreeBytes(s[0], s[1], s[2]);
    } else {
      c := FourBytes(s[0], s[1], s[2], s[3]);
    }
  }

  lemma Ascii(c: nat)
    requires c < 0x80
    ensures CharBytes(c) == [c]
  {}

  lemma ShortRead(c: nat, rest: Bytes)
    requires c < 0x800
    ensures CharLen(CharBytes(c) + rest) == |CharBytes(c)| > 0
  {}

  lemma ThreeRead(c: nat, rest: Bytes)
    requires Scalar(c) && 0x800 <= c < 0x1_0000
    ensures CharLen(CharBytes(c) + rest) == |CharBytes(c)| > 0
  {
    var a, b, d := 0xE0 + c / 4096, 0x80 + c / 64 % 64, 0x80 + c % 64;
    assert 0xE0 <= a <= 0xEF && Second3(a, b) && Tail(d);
    assert CharBytes(c) == [a, b, d];
    hide CharBytes, Second3;
    var s := [a, b, d] + rest;
    assert s[0] == a && s[1] == b && s[2] == d;
  }

  lemma FourRead(c: nat, rest: Bytes)
    requires Scalar(c) && 0x1_0000 <= c
    ensures CharLen(CharBytes(c) + rest) == |CharBytes(c)| > 0
  {
    var a, b, d, e := 0xF0 + c / 262144, 0x80 + c / 4096 % 64, 0x80 + c / 64 % 64, 0x80 + c % 64;
    assert 0xF0 <= a <= 0xF4 && Second4(a, b) && Tail(d) && Tail(e);
    assert CharBytes(c) == [a, b, d, e];
    hide CharBytes, Second4;
    var s := [a, b, d, e] + rest;
    assert s[0] == a && s[1] == b && s[2] == d && s[3] == e;
  }

  /** And the other way round, whatever follows it. */
  lemma CharBytesRead(c: nat, rest: Bytes)
    requires Scalar(c)
    ensures CharLen(CharBytes(c) + rest) == |CharBytes(c)| > 0
  {
    hide CharBytes, CharLen;
    if c < 0x800 { ShortRead(c, rest); } else if c < 0x1_0000 { ThreeRead(c, rest); } else { FourRead(c, rest); }
  }

  lemma {:induction false} AllBytesValid(cs: seq<nat>)
    requires forall i :: 0 <= i < |cs| ==> Scalar(cs[i])
    ensures Valid(AllBytes(cs))
  {
    hide CharBytes, CharLen;
    if cs != [] {
      var rest := AllBytes(cs[1..]);
      AllBytesValid(cs[1..]);
      CharBytesRead(cs[0], rest);
      assert (CharBytes(cs[0]) + rest)[|CharBytes(cs[0])|..] == rest;
    }
  }

  /** Well-formed text is the encodings of some characters, one after the other, and nothing else is. */
  lemma {:induction false} ValidIs(s: Bytes) returns (cs: seq<nat>)
    ensures Valid(s) ==> (forall i :: 0 <= i < |cs| ==> Scalar(cs[i])) && AllBytes(cs) == s
    ensures forall ds :: (forall i :: 0 <= i < |ds| ==> Scalar(ds[i])) && AllBytes(ds) == s ==> Valid(s)
    decreases |s|
  {
    hide CharBytes, CharLen;
    forall ds | (forall i :: 0 <= i < |ds| ==> Scalar(ds[i])) && AllBytes(ds) == s ensures Valid(s) {
      AllBytesValid(ds);
    }
    cs := [];
    if s != [] && Valid(s) {
      var n := CharLen(s);
      var rest := ValidIs(s[n..]);
      var c := CharIs(s);
      cs := [c] + rest;
      assert cs[1..] == rest;
      assert s == s[..n] + s[n..];
    }
  }

  /** A character reads the same whatever follows it. */
  lemma CharLenLocal(s: Bytes, k: nat)
    requires CharLen(s) <= k <= |s|
    ensures CharLen(s) > 0 ==> CharLen(s[..k]) == CharLen(s)
  {}

  /** Nor does a character fit in a proper part of itself. */
  lemma CharLenPart(s: Bytes, k: nat)
    requires 0 < k < CharLen(s)
    ensures Tail(s[k]) && CharLen(s[..k]) == 0
  {}

  /** Offset `k` falls between two characters of `s`. */
  predicate Boundary(s: Bytes, k: nat) {
    k == 0 || (0 < CharLen(s) <= k && Boundary(s[CharLen(s)..], k - CharLen(s)))
  }

  /** Cutting at a boundary, and nowhere else, leaves well-formed text on the left. */
  lemma {:induction false} BoundaryIffValidPrefix(s: Bytes, k: nat)
    requires Valid(s) && k <= |s|
    ensures Boundary(s, k) <==> Valid(s[..k])
  {
    var n := CharLen(s);
    if 0 < k < n {
      CharLenPart(s, k);
    } else if 0 < k {
      CharLenLocal(s, k);
      BoundaryIffValidPrefix(s[n..], k - n);
      assert s[..k][n..] == s[n..][..k - n];
    }
  }

  /** In well-formed text a boundary shows in the one byte that follows it. */
  lemma {:induction false} BoundaryIffByte(s: Bytes, k: nat)
    requires Valid(s) && k < |s|
    ensures Boundary(s, k) <==> !Tail(s[k])
  {
    var n := CharLen(s);
    if 0 < k < n {
      CharLenPart(s, k);
    } else if 0 < k {
      BoundaryIffByte(s[n..], k - n);
    }
  }

  /** No character is longer than four bytes, so a boundary is never far below. */
  lemma {:induction false} BoundaryNear(s: Bytes, k: nat) returns (b: nat)
    requires Valid(s) && k <= |s|
    ensures b <= k <= b + 3 && Boundary(s, b)
  {
    var n := CharLen(s);
    if k < n || k == 0 {
      b := 0;
    } else {
      b := BoundaryNear(s[n..], k - n);
      b := b + n;
    }
  }

  /** The length of the longest well-formed beginning within `max` bytes. */
  function CutLen(s: Text, max: nat): (k: nat)
    ensures k <= max && k <= |s| && Valid(s[..k])
    ensures forall j :: 0 <= j <= max && j <= |s| && Valid(s[..j]) ==> j <= k
  {
    if |s| <= max then assert s[..|s|] == s; |s|
    else if Valid(s[..max]) then max
    else CutLen(s, max - 1)
  }

  /** No more than three bytes are given up. */
  lemma CutIsNear(s: Text, max: nat)
    ensures |s| <= max ==> CutLen(s, max) == |s|
    ensures |s| > max ==> max <= CutLen(s, max) + 3
  {
    if |s| > max {
      var b := BoundaryNear(s, max);
      BoundaryIffValidPrefix(s, b);
    }
  }

  /** `str::floor_char_boundary`: scans back over continuation bytes to the longest cut that
      keeps the text whole. */
  method FloorCharBoundary(s: Text, max: nat) returns (k: nat)
    ensures k == CutLen(s, max)
  {
    if max >= |s| {
      return |s|;
    }
    k := max;
    ghost var near := BoundaryNear(s, max);
    while k > 0 && Tail(s[k])
      invariant near <= k <= max
      invariant forall j :: k < j <= max ==> Tail(s[j])
    {
      if k == near { BoundaryIffByte(s, k); }
      k := k - 1;
    }
    forall j | 0 <= j <= max && Valid(s[..j]) ensures j <= k {
      BoundaryIffValidPrefix(s, j);
      BoundaryIffByte(s, j);
    }
    if k > 0 { BoundaryIffByte(s, k); }
    BoundaryIffValidPrefix(s, k);
  }
}
