/** The tunnel messages on the wire. */
module Codec {
  import opened FlowControl
  import opened Utf8

  const MAX_DATA_PAYLOAD_LEN: nat := 128 * 1024
  const MAX_CONNECT_TARGET_LEN: nat := 2048
  const MAX_CONNECT_ERR_LEN: nat := 1024
  const MAX_AUTH_TOKEN_LEN: nat := 512
  const MAX_FRAME_BODY_LEN: nat := MAX_CONNECT_TARGET_LEN + 7

  type U32 = x: int | 0 <= x < 0x1_0000_0000

  datatype Message =
    | Connect(id: U32, target: Text)
    | ConnectOk(id: U32)
    | ConnectErr(id: U32, error: Text)
    | Data(id: U32, payload: Bytes)
    | Close(id: U32)
    | Reset(id: U32)
    | WindowUpdate(id: U32, bytes: U32)
    | Auth(token: Text)

  datatype Error =
    Empty | UnknownType | Truncated | BadLength | BadUtf8 | Trailing | TooLong | Io

  datatype Result<+T> = Ok(value: T) | Err(error: Error) {
    predicate IsFailure() { Err? }
    function PropagateFailure<U>(): Result<U> requires Err? { Err(error) }
    function Extract(): T requires Ok? { value }
  }

  // ----- Big-endian numbers -----

  function Be16(x: nat): Bytes requires x < 0x1_0000 { [x / 256, x % 256] }

  function Be32(x: nat): Bytes requires x < 0x1_0000_0000 {
    Be16(x / 0x1_0000) + Be16(x % 0x1_0000)
  }

  function U16At(b: Bytes, i: nat): (x: nat)
    requires i + 2 <= |b|
    ensures x < 0x1_0000
  {
    var hi: int, lo: int := b[i], b[i + 1];
    hi * 256 + lo
  }

  function U32At(b: Bytes, i: nat): (x: U32) requires i + 4 <= |b| {
    U16At(b, i) * 0x1_0000 + U16At(b, i + 2)
  }

  lemma Be16RoundTrip(b: Bytes, i: nat, x: nat)
    requires x < 0x1_0000 && i + 2 <= |b|
    ensures b[i..i + 2] == Be16(x) <==> U16At(b, i) == x
  {
    assert b[i..i + 2] == [b[i], b[i + 1]];
  }

  lemma Be32RoundTrip(b: Bytes, i: nat, x: U32)
    requires i + 4 <= |b|
    ensures b[i..i + 4] == Be32(x) <==> U32At(b, i) == x
  {
    var hi, lo := x / 0x1_0000, x % 0x1_0000;
    Be16RoundTrip(b, i, hi);
    Be16RoundTrip(b, i + 2, lo);
    assert b[i..i + 4] == b[i..i + 2] + b[i + 2..i + 4];
    if b[i..i + 4] == Be32(x) {
      assert b[i..i + 2] == b[i..i + 4][..2] == Be16(hi);
      assert b[i + 2..i + 4] == b[i..i + 4][2..] == Be16(lo);
    }
  }

  // ----- Layout -----

  predicate Known(t: Byte) {
    t == 0x01 || t == 0x02 || t == 0x03 || t == 0x10 || t == 0x20 || t == 0x21 || t == 0x22 || t == 0x40
  }

  predicate Textual(t: Byte) { t == 0x01 || t == 0x03 || t == 0x40 }

  /** Bytes in front of the variable part, its own length field included. */
  function HeaderLen(t: Byte): nat {
    if t == 0x01 || t == 0x03 then 7 else if t == 0x10 || t == 0x22 then 9 else if t == 0x40 then 3 else 5
  }

  function MinLen(t: Byte): nat { if t == 0x40 then 1 else 0 }

  function MaxLen(t: Byte): nat {
    if t == 0x01 then MAX_CONNECT_TARGET_LEN
    else if t == 0x03 then MAX_CONNECT_ERR_LEN
    else if t == 0x10 then MAX_DATA_PAYLOAD_LEN
    else if t == 0x40 then MAX_AUTH_TOKEN_LEN
    else 0
  }

  function TypeOf(m: Message): Byte {
    match m
    case Connect(_, _) => 0x01
    case ConnectOk(_) => 0x02
    case ConnectErr(_, _) => 0x03
    case Data(_, _) => 0x10
    case Close(_) => 0x20
    case Reset(_) => 0x21
    case WindowUpdate(_, _) => 0x22
    case Auth(_) => 0x40
  }

  /** The variable part. */
  function Payload(m: Message): Bytes {
    match m
    case Connect(_, s) => s
    case ConnectErr(_, s) => s
    case Auth(s) => s
    case Data(_, p) => p
    case _ => []
  }

  predicate Fits(m: Message) {
    MinLen(TypeOf(m)) <= |Payload(m)| <= MaxLen(TypeOf(m))
  }

  /** Type byte and stream id; `Auth` has no stream. */
  function Lead(m: Message): Bytes {
    [TypeOf(m)] + if m.Auth? then [] else Be32(m.id)
  }

  /** The fixed-size field after the id. */
  function Field(m: Message): Bytes
    requires Fits(m)
  {
    match m
    case Connect(_, s) => Be16(|s|)
    case ConnectErr(_, s) => Be16(|s|)
    case Auth(s) => Be16(|s|)
    case Data(_, p) => Be32(|p|)
    case WindowUpdate(_, n) => Be32(n)
    case _ => []
  }

  function Header(m: Message): (h: Bytes)
    requires Fits(m)
    ensures |h| == HeaderLen(TypeOf(m)) && h[0] == TypeOf(m)
  {
    Lead(m) + Field(m)
  }

  function Body(m: Message): Bytes
    requires Fits(m)
  {
    Header(m) + Payload(m)
  }

  /** The layout, byte for byte. */
  lemma BodyIs(m: Message)
    requires Fits(m)
    ensures match m
      case Connect(id, s) => Body(m) == [0x01] + Bytes4(id) + Bytes2(|s|) + s
      case ConnectOk(id) => Body(m) == [0x02] + Bytes4(id)
      case ConnectErr(id, s) => Body(m) == [0x03] + Bytes4(id) + Bytes2(|s|) + s
      case Data(id, p) => Body(m) == [0x10] + Bytes4(id) + Bytes4(|p|) + p
      case Close(id) => Body(m) == [0x20] + Bytes4(id)
      case Reset(id) => Body(m) == [0x21] + Bytes4(id)
      case WindowUpdate(id, n) => Body(m) == [0x22] + Bytes4(id) + Bytes4(n)
      case Auth(s) => Body(m) == [0x40] + Bytes2(|s|) + s
  {
    hide Be32, Bytes4;
    if !m.Auth? { Be32Is(m.id); }
    if m.Data? { Be32Is(|m.payload|); }
    if m.WindowUpdate? { Be32Is(m.bytes); }
  }

  /** And its limits. */
  lemma FitsIs(m: Message)
    ensures match m
      case Connect(_, s) => Fits(m) <==> |s| <= 2048
      case ConnectErr(_, s) => Fits(m) <==> |s| <= 1024
      case Data(_, p) => Fits(m) <==> |p| <= 131072
      case Auth(s) => Fits(m) <==> 1 <= |s| <= 512
      case _ => Fits(m)
  {}

  /** Big-endian. */
  function Bytes2(x: nat): Bytes
    requires x < 0x1_0000
  {
    [x / 256, x % 256]
  }

  function Bytes4(x: nat): Bytes
    requires x < 0x1_0000_0000
  {
    [x / 16777216, x / 65536 % 256, x / 256 % 256, x % 256]
  }

  lemma HighBytes(x: U32)
    ensures x / 65536 / 256 == x / 16777216
  {}

  lemma LowBytes(x: U32)
    ensures x % 65536 / 256 == x / 256 % 256
  {}

  lemma LastByte(x: U32)
    ensures x % 65536 % 256 == x % 256
  {}

  lemma Be32Is(x: U32)
    ensures Be32(x) == Bytes4(x)
  {
    HighBytes(x);
    LowBytes(x);
    LastByte(x);
    var hi, lo := x / 65536, x % 65536;
    assert Be32(x) == [hi / 256, hi % 256, lo / 256, lo % 256];
  }

  /** The length the message claims for its variable part. */
  function Declared(b: Bytes): nat
    requires |b| > 0 && |b| >= HeaderLen(b[0])
  {
    if b[0] == 0x01 || b[0] == 0x03 then U16At(b, 5)
    else if b[0] == 0x40 then U16At(b, 1)
    else if b[0] == 0x10 then U32At(b, 5)
    else 0
  }

  datatype Fault = Sound | Faulty(error: Error)

  /** Why `b` is not a message, if it is not. */
  function FaultOf(b: Bytes): Fault {
    if |b| == 0 then Faulty(Empty)
    else if !Known(b[0]) then Faulty(UnknownType)
    else if |b| < HeaderLen(b[0]) then Faulty(Truncated)
    else
      var end := HeaderLen(b[0]) + Declared(b);
      if !(MinLen(b[0]) <= Declared(b) <= MaxLen(b[0])) || |b| < end then Faulty(BadLength)
      else if Textual(b[0]) && !Valid(b[HeaderLen(b[0])..end]) then Faulty(BadUtf8)
      else if |b| > end then Faulty(Trailing)
      else Sound
  }

  lemma Part(a: Bytes, x: Bytes, c: Bytes, b: Bytes)
    requires a + x + c <= b
    ensures |b| >= |a| + |x| && b[|a|..|a| + |x|] == x
  {
    var k := |a| + |x|;
    assert b[|a|..k] == b[..|a + x + c|][|a|..k] == (a + x + c)[|a|..k];
  }

  lemma Assembled(a: Bytes, b: Bytes, c: Bytes, d: Bytes)
    ensures a + b + c + d == a + b + (c + d)
  {}

  lemma Be32Len(x: U32)
    ensures |Be32(x)| == 4
  {}

  lemma IdOf(m: Message, b: Bytes)
    requires Fits(m) && Body(m) <= b && !m.Auth?
    ensures |b| >= 5 && U32At(b, 1) == m.id
  {
    hide Field, Payload, TypeOf, Be32, U32At;
    Assembled([TypeOf(m)], Be32(m.id), Field(m), Payload(m));
    Part([TypeOf(m)], Be32(m.id), Field(m) + Payload(m), b);
    Be32Len(m.id);
    Be32RoundTrip(b, 1, m.id);
  }

  lemma SlicesOf(m: Message, b: Bytes)
    requires Fits(m) && Body(m) <= b
    ensures |b| >= HeaderLen(TypeOf(m)) + |Payload(m)| && b[0] == TypeOf(m)
    ensures b[|Lead(m)|..HeaderLen(b[0])] == Field(m)
    ensures b[HeaderLen(b[0])..HeaderLen(b[0]) + |Payload(m)|] == Payload(m)
  {
    hide Field, HeaderLen, Payload;
    assert b[0] == Body(m)[0] == Header(m)[0];
    Part(Lead(m), Field(m), Payload(m), b);
    assert Header(m) + Payload(m) + [] == Body(m);
    Part(Header(m), Payload(m), [], b);
  }

  /** The fields of a message can be read off any bytes that start with it. */
  lemma FieldsOf(m: Message, b: Bytes)
    requires Fits(m) && Body(m) <= b
    ensures |b| >= HeaderLen(TypeOf(m)) + |Payload(m)| && b[0] == TypeOf(m)
    ensures Declared(b) == |Payload(m)|
    ensures b[HeaderLen(b[0])..HeaderLen(b[0]) + |Payload(m)|] == Payload(m)
    ensures m.WindowUpdate? ==> U32At(b, 5) == m.bytes
  {
    hide Body, Header;
    SlicesOf(m, b);
    if Textual(b[0]) {
      Be16RoundTrip(b, |Lead(m)|, |Payload(m)|);
    } else if m.Data? {
      Be32RoundTrip(b, 5, |m.payload|);
    } else if m.WindowUpdate? {
      Be32RoundTrip(b, 5, m.bytes);
    }
  }

  /** No encoding is a prefix of another, so a body names one message. */
  lemma PrefixFree(m: Message, n: Message, b: Bytes)
    requires Fits(m) && Fits(n) && Body(m) <= b && Body(n) <= b
    ensures m == n
  {
    hide Header;
    FieldsOf(m, b);
    FieldsOf(n, b);
    if !m.Auth? {
      IdOf(m, b);
      IdOf(n, b);
    }
  }

  /** An encoding is sound, and with anything after it the bytes are `Trailing`. */
  lemma BodyIsSound(m: Message, b: Bytes)
    requires Fits(m) && Body(m) <= b
    ensures FaultOf(b) == if b == Body(m) then Sound else Faulty(Trailing)
  {
    hide Header;
    FieldsOf(m, b);
    assert |b| == |Body(m)| <==> b == Body(m);
  }

  // ----- Encoding -----

  /** What is sent for `m`: the same message, a long error cut. */
  function AsSent(m: Message): Message {
    if m.ConnectErr? then m.(error := m.error[..CutLen(m.error, MAX_CONNECT_ERR_LEN)]) else m
  }

  /** The cut keeps all but at most three of the bytes that could be sent, and a message that
      fits is sent unchanged. */
  lemma CutIsTight(m: Message)
    ensures Fits(m) ==> AsSent(m) == m
    ensures m.ConnectErr? ==> Fits(AsSent(m)) && AsSent(m).error <= m.error
    ensures m.ConnectErr? && !Fits(m) ==> MAX_CONNECT_ERR_LEN - 3 <= |AsSent(m).error|
  {
    if m.ConnectErr? {
      CutIsNear(m.error, MAX_CONNECT_ERR_LEN);
      assert m.error[..|m.error|] == m.error;
    }
  }

  /** The growing `Vec<u8>` of the encoder. */
  class Writer {
    var out: Bytes

    constructor (start: Bytes)
      ensures out == start
    {
      out := start;
    }

    method PutStr(s: Text, min: nat, max: nat) returns (ok: bool)
      requires max < 0x1_0000
      modifies this
      ensures ok <==> min <= |s| <= max
      ensures out == if ok then old(out) + Be16(|s|) + s else old(out)
    {
      if !(min <= |s| <= max) {
        return false;
      }
      out := out + Be16(|s|);
      out := out + s;
      return true;
    }

    /** What follows the id. */
    method PutTail(m: Message) returns (ok: bool)
      modifies this
      ensures ok <==> Fits(AsSent(m))
      ensures ok ==> out == old(out) + Field(AsSent(m)) + Payload(AsSent(m))
    {
      hide Valid, CutLen;
      match m {
        case Connect(_, target) =>
          ok := PutStr(target, 0, MAX_CONNECT_TARGET_LEN);
        case ConnectErr(_, error) =>
          var k := FloorCharBoundary(error, MAX_CONNECT_ERR_LEN);
          ok := PutStr(error[..k], 0, MAX_CONNECT_ERR_LEN);
        case Auth(token) =>
          ok := PutStr(token, 1, MAX_AUTH_TOKEN_LEN);
        case Data(_, payload) =>
          ok := |payload| <= MAX_DATA_PAYLOAD_LEN;
          if ok {
            out := out + Be32(|payload|);
            out := out + payload;
          }
        case WindowUpdate(_, bytes) =>
          out := out + Be32(bytes);
          ok := true;
        case _ =>
          ok := true;
      }
    }

    method EncodeInto(m: Message) returns (ok: bool)
      modifies this
      ensures ok <==> Fits(AsSent(m))
      ensures ok ==> out == old(out) + Body(AsSent(m))
    {
      hide Field, Be32, CutLen;
      ghost var sent := AsSent(m);
      out := out + [TypeOf(m)];
      if !m.Auth? {
        out := out + Be32(m.id);
      }
      ok := PutTail(m);
      if ok {
        assert Lead(sent) == Lead(m);
        assert out == old(out) + (Lead(sent) + Field(sent) + Payload(sent));
      }
    }
  }

  method Encode(m: Message) returns (r: Result<Bytes>)
    ensures r == if Fits(AsSent(m)) then Ok(Body(AsSent(m))) else Err(TooLong)
  {
    hide Header, CutLen;
    var w := new Writer([]);
    var ok := w.EncodeInto(m);
    if !ok { return Err(TooLong); }
    assert w.out == Body(AsSent(m));
    r := Ok(w.out);
  }

  // ----- Decoding -----

  /** The shrinking `Bytes` of the decoder. */
  class Cursor {
    var rest: Bytes

    constructor (b: Bytes)
      ensures rest == b
    {
      rest := b;
    }

    method GetU32() returns (r: Result<U32>)
      modifies this
      ensures |old(rest)| < 4 ==> r == Err(Truncated)
      ensures |old(rest)| >= 4 ==> r == Ok(U32At(old(rest), 0)) && rest == old(rest)[4..]
    {
      if |rest| < 4 { return Err(Truncated); }
      r := Ok(U32At(rest, 0));
      rest := rest[4..];
    }

    method GetStr(min: nat, max: nat) returns (r: Result<Text>)
      modifies this
      ensures
        if |old(rest)| < 2 then r == Err(Truncated)
        else
          var len := U16At(old(rest), 0);
          if !(min <= len <= max) || |old(rest)| - 2 < len then r == Err(BadLength)
          else if !Valid(old(rest)[2..2 + len]) then r == Err(BadUtf8)
          else r == Ok(old(rest)[2..2 + len]) && rest == old(rest)[2 + len..]
    {
      if |rest| < 2 { return Err(Truncated); }
      var len := U16At(rest, 0);
      rest := rest[2..];
      if !(min <= len <= max) || |rest| < len { return Err(BadLength); }
      var s := rest[..len];
      assert s == old(rest)[2..2 + len];
      rest := rest[len..];
      if !Valid(s) { return Err(BadUtf8); }
      r := Ok(s);
    }
  }

  /** Every field of `m` stands in `b` where the layout puts it. */
  predicate Reads(b: Bytes, m: Message) {
    && |b| > 0 && b[0] == TypeOf(m) && |b| >= HeaderLen(b[0]) && |b| >= HeaderLen(b[0]) + Declared(b)
    && Payload(m) == b[HeaderLen(b[0])..HeaderLen(b[0]) + Declared(b)]
    && (!m.Auth? ==> m.id == U32At(b, 1))
    && (m.WindowUpdate? ==> m.bytes == U32At(b, 5))
  }

  lemma ReadsHeader(b: Bytes, m: Message)
    requires Reads(b, m) && Fits(m)
    ensures b[..HeaderLen(b[0])] == Header(m)
  {
    var n, h := |Lead(m)|, HeaderLen(b[0]);
    if !m.Auth? {
      Be32RoundTrip(b, 1, m.id);
      assert b[..5] == b[..1] + b[1..5];
    }
    assert b[..n] == Lead(m);
    if Textual(b[0]) {
      Be16RoundTrip(b, n, Declared(b));
    } else if m.Data? {
      Be32RoundTrip(b, 5, Declared(b));
    } else if m.WindowUpdate? {
      Be32RoundTrip(b, 5, m.bytes);
    }
    assert b[..h] == b[..n] + b[n..h];
  }

  lemma ReadsFits(b: Bytes, m: Message)
    requires FaultOf(b) == Sound && Reads(b, m)
    ensures Fits(m) && |b| == HeaderLen(b[0]) + Declared(b)
  {
    SoundSize(b);
    hide FaultOf, Declared, HeaderLen, MinLen, MaxLen, TypeOf, Payload, U32At;
  }

  /** Canonical form: a sound body is the encoding of the message read from it. */
  lemma ReadsIsBody(b: Bytes, m: Message)
    requires FaultOf(b) == Sound && Reads(b, m)
    ensures Fits(m) && Body(m) == b
  {
    ReadsFits(b, m);
    ReadsHeader(b, m);
    hide Header, Field, FaultOf, Declared, Fits, Payload, TypeOf, HeaderLen, U32At;
    var h, d := HeaderLen(b[0]), Declared(b);
    assert b[h..h + d] == b[h..];
    assert b == b[..h] + b[h..];
  }

  lemma SoundSize(b: Bytes)
    requires FaultOf(b) == Sound
    ensures |b| > 0 && |b| >= HeaderLen(b[0]) && |b| == HeaderLen(b[0]) + Declared(b)
    ensures MinLen(b[0]) <= Declared(b) <= MaxLen(b[0])
  {
    hide Valid;
  }

  /** The only faults left once the fields are read. */
  ghost predicate Ends(b: Bytes, rest: Bytes) {
    && |b| > 0 && |b| >= HeaderLen(b[0]) && |b| >= HeaderLen(b[0]) + Declared(b)
    && rest == b[HeaderLen(b[0]) + Declared(b)..]
    && FaultOf(b) == if rest == [] then Sound else Faulty(Trailing)
  }

  method DecodeText(c: Cursor, ghost b: Bytes, min: nat, max: nat) returns (r: Result<Text>)
    requires |b| > 0 && Textual(b[0]) && min == MinLen(b[0]) && max == MaxLen(b[0])
    requires |b| >= HeaderLen(b[0]) - 2 && c.rest == b[HeaderLen(b[0]) - 2..]
    modifies c
    ensures r.Err? ==> FaultOf(b) == Faulty(r.error)
    ensures r.Ok? ==> Ends(b, c.rest) && r.value == b[HeaderLen(b[0])..HeaderLen(b[0]) + Declared(b)]
  {
    hide Valid;
    ghost var h, rest := HeaderLen(b[0]), c.rest;
    r := c.GetStr(min, max);
    if |b| >= h && |b| >= h + Declared(b) {
      assert rest[2..2 + Declared(b)] == b[h..h + Declared(b)];
      assert rest[2 + Declared(b)..] == b[h + Declared(b)..];
    }
  }

  method DecodeData(c: Cursor, ghost b: Bytes) returns (r: Result<Message>)
    requires |b| > 0 && b[0] == 0x10 && c.rest == b[1..]
    modifies c
    ensures r.Err? ==> FaultOf(b) == Faulty(r.error)
    ensures r.Ok? ==> Ends(b, c.rest) && Reads(b, r.value)
  {
    var id :- c.GetU32();
    var len :- c.GetU32();
    if len > MAX_DATA_PAYLOAD_LEN || |c.rest| < len {
      return Err(BadLength);
    }
    r := Ok(Data(id, c.rest[..len]));
    c.rest := c.rest[len..];
  }

  /** The message cases of `decode`, after the type byte. */
  method DecodeFields(t: Byte, c: Cursor, ghost b: Bytes) returns (r: Result<Message>)
    requires |b| > 0 && b[0] == t && c.rest == b[1..]
    modifies c
    ensures r.Err? ==> FaultOf(b) == Faulty(r.error)
    ensures r.Ok? ==> Ends(b, c.rest) && Reads(b, r.value)
  {
    hide Valid;
    if t == 0x01 {
      var id :- c.GetU32();
      var s :- DecodeText(c, b, 0, MAX_CONNECT_TARGET_LEN);
      r := Ok(Connect(id, s));
    } else if t == 0x02 {
      var id :- c.GetU32();
      r := Ok(ConnectOk(id));
    } else if t == 0x03 {
      var id :- c.GetU32();
      var s :- DecodeText(c, b, 0, MAX_CONNECT_ERR_LEN);
      r := Ok(ConnectErr(id, s));
    } else if t == 0x10 {
      r := DecodeData(c, b);
    } else if t == 0x20 {
      var id :- c.GetU32();
      r := Ok(Close(id));
    } else if t == 0x21 {
      var id :- c.GetU32();
      r := Ok(Reset(id));
    } else if t == 0x22 {
      var id :- c.GetU32();
      var bytes :- c.GetU32();
      r := Ok(WindowUpdate(id, bytes));
    } else if t == 0x40 {
      var s :- DecodeText(c, b, 1, MAX_AUTH_TOKEN_LEN);
      r := Ok(Auth(s));
    } else {
      r := Err(UnknownType);
    }
  }

  /** Decodes exactly the encodings, names the fault of everything else. */
  method Decode(b: Bytes) returns (r: Result<Message>)
    ensures r.Err? ==> FaultOf(b) == Faulty(r.error)
    ensures r.Ok? ==> Fits(r.value) && Body(r.value) == b
    ensures r.Ok? <==> exists m :: Fits(m) && Body(m) == b
  {
    hide Valid, Header, Declared;
    forall m | Fits(m) && Body(m) == b ensures FaultOf(b) == Sound { BodyIsSound(m, b); }
    if |b| == 0 {
      return Err(Empty);
    }
    var c := new Cursor(b[1..]);
    var m :- DecodeFields(b[0], c, b);
    if c.rest != [] {
      return Err(Trailing);
    }
    ReadsIsBody(b, m);
    r := Ok(m);
  }

  /** What one end sends is what the other receives. */
  method RoundTrip(m: Message) returns (r: Result<Message>)
    ensures r == if Fits(AsSent(m)) then Ok(AsSent(m)) else Err(TooLong)
  {
    hide Header, Valid, CutLen;
    var body :- Encode(m);
    r := Decode(body);
    PrefixFree(r.value, AsSent(m), body);
  }

  // ----- Frames -----

  predicate Framable(m: Message) {
    Fits(m) && |Body(m)| <= MAX_FRAME_BODY_LEN
  }

  /** Every control message can travel as a frame. */
  lemma ControlIsFramable(m: Message)
    requires Fits(m) && !m.Data?
    ensures Framable(m)
  {}

  function Framed(m: Message): Bytes
    requires Framable(m)
  {
    Be32(|Body(m)|) + Body(m)
  }

  function FramedAll(ms: seq<Message>): Bytes
    requires forall m :: m in ms ==> Framable(m)
  {
    if ms == [] then [] else Framed(ms[0]) + FramedAll(ms[1..])
  }

  method Frame(m: Message) returns (r: Result<Bytes>)
    ensures r == if Fits(AsSent(m)) then Ok(Be32(|Body(AsSent(m))|) + Body(AsSent(m))) else Err(TooLong)
  {
    hide Header, CutLen;
    var w := new Writer([0, 0, 0, 0]);
    var ok := w.EncodeInto(m);
    if !ok { return Err(TooLong); }
    assert w.out[4..] == Body(AsSent(m));
    r := Ok(Be32(|w.out| - 4) + w.out[4..]);
  }

  /** `read_exact`: all of `n` bytes or an error. */
  method ReadExact(c: Cursor, n: nat) returns (r: Result<Bytes>)
    modifies c
    ensures |old(c.rest)| < n ==> r == Err(Io)
    ensures |old(c.rest)| >= n ==> r == Ok(old(c.rest)[..n]) && c.rest == old(c.rest)[n..]
  {
    if |c.rest| < n {
      c.rest := [];
      return Err(Io);
    }
    r := Ok(c.rest[..n]);
    c.rest := c.rest[n..];
  }

  lemma FrameStarts(m: Message, all: Bytes)
    requires Framable(m) && Framed(m) <= all
    ensures |all| >= 4 + |Body(m)| && U32At(all[..4], 0) == |Body(m)| >= 1 && all[4..][..|Body(m)|] == Body(m)
  {
    hide Header;
    var size := Be32(|Body(m)|);
    Part([], size, Body(m), all);
    Part(size, Body(m), [], all);
    Be32RoundTrip(all[..4], 0, |Body(m)|);
  }

  /** Two frames that start the same bytes are the same frame. */
  lemma FramesPrefixFree(m: Message, n: Message, all: Bytes)
    requires Framable(m) && Framable(n) && Framed(m) <= all && Framed(n) <= all
    ensures m == n
  {
    hide Header;
    FrameStarts(m, all);
    FrameStarts(n, all);
    PrefixFree(m, n, Body(m));
  }

  /** Takes one frame off the stream exactly when one is there. */
  method ReadFrame(c: Cursor) returns (r: Result<Message>)
    modifies c
    ensures r.Ok? ==> Framable(r.value) && old(c.rest) == Framed(r.value) + c.rest
    ensures r.Ok? <==> exists m :: Framable(m) && Framed(m) <= old(c.rest)
  {
    hide Body, U32At, Be32;
    ghost var all := c.rest;
    forall m | Framable(m) && Framed(m) <= all
      ensures |all| >= 4 + |Body(m)| && U32At(all[..4], 0) == |Body(m)| >= 1 && all[4..][..|Body(m)|] == Body(m)
    {
      FrameStarts(m, all);
    }
    var head :- ReadExact(c, 4);
    var len := U32At(head, 0);
    if !(1 <= len <= MAX_FRAME_BODY_LEN) {
      return Err(BadLength);
    }
    var body :- ReadExact(c, len);
    var m :- Decode(body);
    Be32RoundTrip(head, 0, len);
    assert head[0..4] == head;
    assert all == Framed(m) + c.rest;
    r := Ok(m);
  }

  lemma FramedNone()
    ensures FramedAll([]) == []
  {}

  lemma FramedHead(ms: seq<Message>, i: nat, after: Bytes)
    requires i < |ms| && forall m :: m in ms ==> Framable(m)
    ensures FramedAll(ms[i..]) + after == Framed(ms[i]) + (FramedAll(ms[i + 1..]) + after)
  {
    hide Framable, Framed;
    assert ms[i..][1..] == ms[i + 1..];
  }

  lemma SameTail(a: Bytes, x: Bytes, y: Bytes)
    requires a + x == a + y
    ensures x == y
  {
    assert x == (a + x)[|a|..] && y == (a + y)[|a|..];
  }

  /** Reading as many frames as were written back to back gives the messages back, in order,
      and leaves the stream just after them. */
  method ReadFrames(c: Cursor, n: nat, ghost sent: seq<Message>, ghost after: Bytes)
    returns (got: seq<Message>)
    requires |sent| == n && forall m :: m in sent ==> Framable(m)
    requires c.rest == FramedAll(sent) + after
    modifies c
    ensures got == sent && c.rest == after
  {
    hide Framable, Framed, FramedAll;
    FramedNone();
    assert sent[0..] == sent;
    got := [];
    for i := 0 to n
      invariant got == sent[..i] && c.rest == FramedAll(sent[i..]) + after
    {
      ghost var all, tail := c.rest, FramedAll(sent[i + 1..]) + after;
      FramedHead(sent, i, after);
      var r := ReadFrame(c);
      FramesPrefixFree(r.value, sent[i], all);
      SameTail(Framed(sent[i]), c.rest, tail);
      got := got + [r.value];
    }
  }
}
