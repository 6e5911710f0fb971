/** The tunnel protocol and the codec meet: what the constants of the two binaries put on
    the links is within the codec's limits. */
module OnTheWire {
  import opened FlowControl
  import opened Tunnel
  import opened TunnelInvariant
  import opened Mux
  import opened Delivery
  import opened Utf8
  import Codec

  /** The message of stream `id` as the codec sees it; `text` is its target or error. */
  function Encoded(id: Codec.U32, m: Msg, text: Text): Codec.Message
    requires m.WindowUpdate? ==> m.bytes < U32_RANGE
  {
    match m
    case Connect => Codec.Connect(id, text)
    case ConnectOk => Codec.ConnectOk(id)
    case ConnectErr => Codec.ConnectErr(id, text)
    case Data(b) => Codec.Data(id, b)
    case Close => Codec.Close(id)
    case Reset => Codec.Reset(id)
    case WindowUpdate(n) => Codec.WindowUpdate(id, n)
  }

  lemma SoundInFlight(p: Params, cap: nat, run: seq<Session>, i: nat, id: nat, m: Msg)
    requires p.Sane() && IsRun(p, cap, run) && i < |run| && id in run[i].ends
    requires m in View(run[i], id).toC || m in View(run[i], id).toS
    ensures Sound(p, m)
  {
    hide IsRun, FlowControl.Inv, Control, TxOk, RxOk, Only, Wire, Granted;
    RunInv(p, cap, run, i);
    assert TunnelInvariant.Inv(p, View(run[i], id));
  }

  lemma SoundFits(id: Codec.U32, m: Msg, text: Text)
    requires Sound(X2RP, m) && (m == Connect ==> |text| <= Codec.MAX_CONNECT_TARGET_LEN)
    ensures Codec.Fits(Codec.AsSent(Encoded(id, m, text)))
  {
    hide Valid, CutLen;
  }

  /** In every run of a session no Data, WindowUpdate, Close, Reset, ConnectOk or ConnectErr
      that either end sends is ever refused by the encoder, and a grant survives its cast to
      32 bits. */
  lemma EveryMessageTravels(run: seq<Session>, i: nat, id: nat, m: Msg, text: Text)
    requires IsRun(X2RP, MAX_ACTIVE_STREAMS, run) && i < |run| && id in run[i].ends && id < U32_RANGE
    requires m in View(run[i], id).toC || m in View(run[i], id).toS
    requires m == Connect ==> |text| <= Codec.MAX_CONNECT_TARGET_LEN
    ensures m.WindowUpdate? ==> m.bytes < U32_RANGE
    ensures Codec.Fits(Codec.AsSent(Encoded(id, m, text)))
  {
    hide IsRun, View, Valid, Codec.AsSent, Codec.Fits, Encoded;
    X2rpIsSane();
    SoundInFlight(X2RP, MAX_ACTIVE_STREAMS, run, i, id, m);
    SoundFits(id, m, text);
  }
}
