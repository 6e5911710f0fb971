/** One direction of one WSS tunnel: the bytes it carries and the credit that paces them.

    A chunk is read from the source, pays for itself out of the sender's credit, crosses
    the link, waits in the receiver's queue, is written to the sink and is granted back as
    credit.  `lost` and `leak` are histories of what dropped out on the way: bytes that
    reached an end that no longer accepts them, and the credit that went with them. */
module FlowControl {

  type Byte = x: int | 0 <= x < 256
  type Bytes = seq<Byte>

  const U32_RANGE: nat := 0x1_0000_0000

  /** Window, grant threshold and read-chunk size (`STREAM_RECV_WINDOW`,
      `WINDOW_UPDATE_THRESHOLD`, `TUNNEL_READ_CHUNK`). */
  datatype Params = Params(window: nat, threshold: nat, chunk: nat) {
    predicate Sane() {
      && 1 <= threshold && 1 <= chunk
      && threshold + chunk <= window + 1
      && window < U32_RANGE
    }
  }

  /** The constants both binaries are built with. */
  const X2RP := Params(256 * 1024, 256 * 1024 / 2, 32 * 1024)

  const MAX_ACTIVE_STREAMS: nat := 128

  lemma X2rpIsSane()
    ensures X2RP.Sane()
  {}

  datatype Flow = Flow(
    src: Bytes,          // everything read from the source socket
    held: Bytes,         // the chunk read but not yet handed to the link
    paid: bool,          // credit for `held` has been acquired
    credit: nat,         // SendCredit.credit
    queue: seq<Bytes>,   // chunks in the receiver's channel
    cur: Bytes,          // unwritten rest of the chunk being written
    curLen: nat,         // full length of that chunk, 0 when there is none
    drained: nat,        // drained_since_grant
    owed: nat,           // a grant taken from `drained` and not yet sent
    sink: Bytes,         // everything written to the destination socket
    lost: Bytes,
    leak: nat)

  function Init(p: Params): Flow {
    Flow([], [], false, p.window, [], [], 0, 0, 0, [], [], 0)
  }

  function Cat(q: seq<Bytes>): Bytes {
    if q == [] then [] else q[0] + Cat(q[1..])
  }

  lemma {:induction false} CatSnoc(q: seq<Bytes>, c: Bytes)
    ensures Cat(q + [c]) == Cat(q) + c
  {
    if q == [] {
      assert q + [c] == [c];
    } else {
      CatSnoc(q[1..], c);
      assert (q + [c])[1..] == q[1..] + [c];
    }
  }

  // ----- Steps of the sender -----

  function Read(f: Flow, b: Bytes): Flow {
    f.(src := f.src + b, held := b, paid := false)
  }

  function Acquire(f: Flow): Flow
    requires |f.held| <= f.credit
  {
    f.(credit := f.credit - |f.held|, paid := true)
  }

  /** The payload goes to the link; the caller appends it there. */
  function Emit(f: Flow): Flow {
    f.(held := [], paid := false)
  }

  /** `SendCredit::add`: raise the credit by `n`, never past the window. */
  function Raised(p: Params, credit: nat, n: nat): (r: nat)
    ensures credit <= r <= credit + n
    ensures credit + n <= p.window ==> r == credit + n
    ensures credit <= p.window ==> r <= p.window
  {
    var next := if credit + n <= p.window then credit + n else p.window;
    if next > credit then next else credit
  }

  function Grant(p: Params, f: Flow, n: nat): Flow {
    var credit := Raised(p, f.credit, n);
    f.(credit := credit, leak := f.leak + (f.credit + n - credit))
  }

  function LoseGrant(f: Flow, n: nat): Flow {
    f.(leak := f.leak + n)
  }

  // ----- Steps of the receiver -----

  function Accept(f: Flow, c: Bytes): Flow {
    f.(queue := f.queue + [c])
  }

  function Lose(f: Flow, c: Bytes): Flow {
    f.(lost := f.lost + c, leak := f.leak + |c|)
  }

  function Pop(f: Flow): Flow
    requires f.queue != []
  {
    f.(queue := f.queue[1..], cur := f.queue[0], curLen := |f.queue[0]|)
  }

  function Write(f: Flow, k: nat): Flow
    requires k <= |f.cur|
  {
    f.(cur := f.cur[k..], sink := f.sink + f.cur[..k])
  }

  /** A fully written chunk is counted; past the threshold the count becomes a grant,
      truncated to the 32 bits of the wire field. */
  function Drain(p: Params, f: Flow): Flow {
    var d := f.drained + f.curLen;
    if d >= p.threshold
    then f.(curLen := 0, drained := 0, owed := d % U32_RANGE)
    else f.(curLen := 0, drained := d)
  }

  function SendGrant(f: Flow): Flow {
    f.(owed := 0)
  }

  // ----- Invariant -----

  function Paid(f: Flow): nat {
    if f.paid then |f.held| else 0
  }

  predicate IsChunk(p: Params, c: Bytes) {
    1 <= |c| <= p.chunk
  }

  /** Every byte read is in exactly one place, in order: written, being written, queued,
      lost, on the link (`wire`) or held by the sender. */
  predicate BytesKept(f: Flow, wire: Bytes) {
    f.src == f.sink + (f.cur + (Cat(f.queue) + (f.lost + (wire + f.held))))
  }

  /** Every unit of the window is in exactly one place, grants on the link (`grants`)
      included. */
  predicate CreditKept(p: Params, f: Flow, wire: Bytes, grants: nat) {
    p.window == f.credit + Paid(f) + |wire| + |Cat(f.queue)| + f.curLen
                + f.drained + f.owed + grants + f.leak
  }

  predicate Shape(p: Params, f: Flow) {
    && |f.cur| <= f.curLen <= p.chunk
    && |f.held| <= p.chunk
    && f.drained < p.threshold
    && (f.owed > 0 ==> f.drained == 0)
    && forall i :: 0 <= i < |f.queue| ==> IsChunk(p, f.queue[i])
  }

  predicate Inv(p: Params, f: Flow, wire: Bytes, grants: nat) {
    Shape(p, f) && BytesKept(f, wire) && CreditKept(p, f, wire, grants)
  }

  lemma InitInv(p: Params)
    requires p.Sane()
    ensures Inv(p, Init(p), [], 0)
  {}

  lemma ReadInv(p: Params, f: Flow, b: Bytes, wire: Bytes, grants: nat)
    requires Inv(p, f, wire, grants) && f.held == [] && IsChunk(p, b)
    ensures Inv(p, Read(f, b), wire, grants)
  {
    assert wire + [] == wire;
    assert f.src + b == f.sink + (f.cur + (Cat(f.queue) + (f.lost + (wire + b))));
  }

  lemma AcquireInv(p: Params, f: Flow, wire: Bytes, grants: nat)
    requires Inv(p, f, wire, grants) && !f.paid && |f.held| <= f.credit
    ensures Inv(p, Acquire(f), wire, grants)
  {}

  lemma EmitInv(p: Params, f: Flow, wire: Bytes, grants: nat)
    requires Inv(p, f, wire, grants) && f.paid
    ensures Inv(p, Emit(f), wire + f.held, grants)
  {
    assert (wire + f.held) + [] == wire + f.held;
  }

  /** An honest grant is never cut by the ceiling. */
  lemma GrantInv(p: Params, f: Flow, wire: Bytes, grants: nat, n: nat)
    requires Inv(p, f, wire, grants) && n <= grants
    ensures Inv(p, Grant(p, f, n), wire, grants - n)
    ensures Grant(p, f, n).credit == f.credit + n && Grant(p, f, n).leak == f.leak
  {}

  lemma LoseGrantInv(p: Params, f: Flow, wire: Bytes, grants: nat, n: nat)
    requires Inv(p, f, wire, grants) && n <= grants
    ensures Inv(p, LoseGrant(f, n), wire, grants - n)
  {}

  lemma AcceptInv(p: Params, f: Flow, c: Bytes, rest: Bytes, grants: nat)
    requires Inv(p, f, c + rest, grants) && IsChunk(p, c) && f.lost == []
    ensures Inv(p, Accept(f, c), rest, grants)
  {
    CatSnoc(f.queue, c);
    assert Cat(f.queue) + ([] + ((c + rest) + f.held)) == (Cat(f.queue) + c) + ([] + (rest + f.held));
  }

  lemma LoseInv(p: Params, f: Flow, c: Bytes, rest: Bytes, grants: nat)
    requires Inv(p, f, c + rest, grants)
    ensures Inv(p, Lose(f, c), rest, grants)
  {
    assert f.lost + ((c + rest) + f.held) == (f.lost + c) + (rest + f.held);
  }

  lemma PopInv(p: Params, f: Flow, wire: Bytes, grants: nat)
    requires Inv(p, f, wire, grants) && f.queue != [] && f.curLen == 0
    ensures Inv(p, Pop(f), wire, grants)
    ensures Pop(f).curLen >= 1 && |Cat(Pop(f).queue)| + Pop(f).curLen == |Cat(f.queue)|
  {
    var rest := f.lost + (wire + f.held);
    assert f.cur == [];
    assert IsChunk(p, f.queue[0]);
    assert [] + ((f.queue[0] + Cat(f.queue[1..])) + rest) == f.queue[0] + (Cat(f.queue[1..]) + rest);
  }

  lemma WriteInv(p: Params, f: Flow, k: nat, wire: Bytes, grants: nat)
    requires Inv(p, f, wire, grants) && k <= |f.cur|
    ensures Inv(p, Write(f, k), wire, grants)
  {
    var rest := Cat(f.queue) + (f.lost + (wire + f.held));
    assert f.cur == f.cur[..k] + f.cur[k..];
    assert f.sink + ((f.cur[..k] + f.cur[k..]) + rest) == (f.sink + f.cur[..k]) + (f.cur[k..] + rest);
  }

  /** The 32-bit cast of a grant is exact. */
  lemma DrainInv(p: Params, f: Flow, wire: Bytes, grants: nat)
    requires p.Sane() && Inv(p, f, wire, grants) && f.cur == [] && f.owed == 0
    ensures Inv(p, Drain(p, f), wire, grants)
    ensures Drain(p, f).drained + Drain(p, f).owed == f.drained + f.curLen
    ensures f.drained + f.curLen >= p.threshold ==> Drain(p, f).owed >= 1
  {}

  lemma SendGrantInv(p: Params, f: Flow, wire: Bytes, grants: nat)
    requires Inv(p, f, wire, grants)
    ensures Inv(p, SendGrant(f), wire, grants + f.owed)
  {}

  // ----- Consequences -----

  /** What the receiver holds or is about to get never exceeds the window. */
  lemma WithinWindow(p: Params, f: Flow, wire: Bytes, grants: nat)
    requires Inv(p, f, wire, grants)
    ensures f.credit <= p.window
    ensures |wire| + |Cat(f.queue)| + f.curLen <= p.window
    ensures f.owed <= p.window
  {}

  /** What has been written is an in-order prefix of what has been read. */
  lemma SinkIsPrefix(p: Params, f: Flow, wire: Bytes, grants: nat)
    requires Inv(p, f, wire, grants)
    ensures f.sink <= f.src
  {}

  /** With nothing left behind, everything read has been written. */
  lemma SinkIsComplete(p: Params, f: Flow, wire: Bytes, grants: nat)
    requires Inv(p, f, wire, grants)
    requires f.cur == [] && f.queue == [] && f.lost == [] && wire == [] && f.held == []
    ensures f.sink == f.src
  {}

  /** The work left between the bytes in flight and the credit they become. */
  function Rank(f: Flow, wire: Bytes, grants: nat): nat {
    6 * |wire| + 5 * |Cat(f.queue)| + 3 * f.curLen + |f.cur| + 2 * f.drained + 2 * f.owed + grants
  }

  /** Nothing is moving: only a part-filled `drained` counter keeps credit from the sender. */
  predicate Quiet(f: Flow, wire: Bytes, grants: nat) {
    |wire| == 0 && f.queue == [] && f.curLen == 0 && f.owed == 0 && grants == 0
  }

  /** A sender is never parked on a quiet, leak-free direction: the ungranted remainder is
      below the threshold, so the credit covers any chunk. */
  lemma QuietHasCredit(p: Params, f: Flow, wire: Bytes, grants: nat)
    requires p.Sane() && Inv(p, f, wire, grants) && Quiet(f, wire, grants)
    requires f.leak == 0 && !f.paid
    ensures p.chunk <= f.credit && |f.held| <= f.credit
  {}
}
