/**
  The two ends of an established session: what a client `Connection` and a host `ConnState` (with
  the receive state of its connection thread) hold, and what one lock hold of each thread does to it.

  Ciphers are ideal. A sealed body is a `Box` that remembers the key, the counter, the epoch and the
  frame type it was sealed with; module `Aead` shows that the byte-level nonces and associated data
  of the code separate exactly these. Keys are symbolic: what `crypto_kx` derives from two
  ephemerals, one key per direction.
*/
module Endpoints {
  import opened Options

  const U64: nat := 0x1_0000_0000_0000_0000
  const EPOCHS: nat := 256

  datatype FrameType =
    | Hello | HelloAck | Request | Response | Error | Ping | Pong | Bye | StreamChunk | Rekey | RekeyAck

  // An ephemeral key pair: generated by one of the two ends, by another honest run, or one whose
  // secret the network has.
  datatype Eph = Honest(id: nat) | Other(id: nat) | Rogue(id: nat)

  datatype Direction = ToHost | ToClient

  datatype Key = Key(client: Eph, host: Eph, dir: Direction)

  datatype SessionKeys = SessionKeys(tx: Key, rx: Key)

  // A plaintext: the 32-byte public key a REKEY or REKEY_ACK carries, or an application payload.
  datatype Plain = PublicKey(eph: Eph) | Payload(bytes: seq<int>)

  datatype Box = Box(v2: bool, key: Key, counter: nat, epoch: nat, ty: FrameType, plain: Plain)

  datatype Body = Clear | Sealed(box: Box)

  datatype Frame = Frame(ty: FrameType, counter: nat, epoch: nat, body: Body)

  // Receive-side key state of one end.
  datatype Rx = Rx(key: Key, epoch: nat, counter: nat, pending: Option<Key>)

  /**
    `offering` is the local ephemeral of `maybe_begin_rekey_locked` between the write of the REKEY
    and the store into `pending_eph`; `switching` holds the derived keys of the reader between
    taking `pending_eph` and getting the write mutex.
  */
  datatype Client = Client(
    v2: bool, tx: Key, txCounter: nat, epoch: nat,
    offering: Option<Eph>, pendingEph: Option<Eph>, rekeyInProgress: bool,
    rx: Rx, switching: Option<SessionKeys>, reading: bool)

  datatype Host = Host(v2: bool, tx: Key, txCounter: nat, epoch: nat, alive: bool, rx: Rx, reading: bool)

  // uint64_t increment.
  function Next(c: nat): nat {
    (c + 1) % U64
  }

  // uint8_t increment.
  function NextEpoch(e: nat): nat {
    (e + 1) % EPOCHS
  }

  function ClientKeys(own: Eph, peer: Eph): SessionKeys {
    SessionKeys(Key(own, peer, ToHost), Key(own, peer, ToClient))
  }

  function HostKeys(own: Eph, peer: Eph): SessionKeys {
    SessionKeys(Key(peer, own, ToClient), Key(peer, own, ToHost))
  }

  function SealFrame(v2: bool, key: Key, counter: nat, epoch: nat, ty: FrameType, plain: Plain): Frame {
    Frame(ty, counter, epoch, Sealed(Box(v2, key, counter, if v2 then epoch else 0, ty, plain)))
  }

  // The ideal AEAD: a body opens under exactly what it was sealed with.
  function Open(v2: bool, key: Key, counter: nat, epoch: nat, ty: FrameType, body: Body): Option<Plain> {
    if body.Sealed? && body.box == Box(v2, key, counter, if v2 then epoch else 0, ty, body.box.plain)
    then Some(body.box.plain)
    else None
  }

  // The `open_checked` lambda of both receive loops: the plaintext and the receive state after it.
  function OpenChecked(v2: bool, rx: Rx, f: Frame): Option<(Plain, Rx)> {
    if !v2 || f.epoch == rx.epoch then
      if f.counter != rx.counter then None else
      match Open(v2, rx.key, f.counter, f.epoch, f.ty, f.body)
      case None => None
      case Some(p) => Some((p, rx.(counter := Next(rx.counter))))
    else if rx.pending.Some? && f.epoch == NextEpoch(rx.epoch) then
      if f.counter != 0 then None else
      match Open(v2, rx.pending.value, 0, f.epoch, f.ty, f.body)
      case None => None
      case Some(p) => Some((p, Rx(rx.pending.value, NextEpoch(rx.epoch), 1, None)))
    else None
  }

  // ---- client steps ----------------------------------------------------------

  function ClientFrame(c: Client, ty: FrameType, plain: Plain): Frame {
    SealFrame(c.v2, c.tx, c.txCounter, c.epoch, ty, plain)
  }

  // `send_frame_locked` advances the counter whether or not the write succeeded.
  function ClientSent(c: Client): Client {
    c.(txCounter := Next(c.txCounter))
  }

  predicate MayRekey(c: Client) {
    c.v2 && !c.rekeyInProgress && c.epoch < 255
  }

  function ClientOffered(c: Client, eph: Eph, ok: bool): Client {
    if ok then ClientSent(c).(offering := Some(eph)) else ClientSent(c)
  }

  function ClientStored(c: Client): Client
    requires c.offering.Some?
  {
    c.(offering := None, pendingEph := c.offering, rekeyInProgress := true)
  }

  // One iteration of `reader_loop`; the flag says whether a sealed frame was opened.
  function ClientReceived(c: Client, f: Frame): (Client, bool) {
    if f.ty !in {RekeyAck, Error, StreamChunk, Response} then (c, false) else
    match OpenChecked(c.v2, c.rx, f)
    case None => (c.(reading := false), false)
    case Some((p, rx)) =>
      if f.ty == RekeyAck then
        if p.PublicKey? && c.pendingEph.Some? then
          (c.(rx := rx, pendingEph := None, switching := Some(ClientKeys(c.pendingEph.value, p.eph))), true)
        else
          (c.(rx := rx, reading := false), true)
      else
        (c.(rx := rx, reading := f.ty != Error), true)
  }

  // The reader's write-mutex hold for a REKEY_ACK, and the arming of `rx_pending` after it.
  function ClientSwitched(c: Client): Client
    requires c.switching.Some?
  {
    c.(tx := c.switching.value.tx, epoch := NextEpoch(c.epoch), txCounter := 0, rekeyInProgress := false,
       rx := c.rx.(pending := Some(c.switching.value.rx)), switching := None)
  }

  // ---- host steps ------------------------------------------------------------

  function HostFrame(h: Host, ty: FrameType, plain: Plain): Frame {
    SealFrame(h.v2, h.tx, h.txCounter, h.epoch, ty, plain)
  }

  function HostSent(h: Host, ok: bool): Host {
    h.(txCounter := Next(h.txCounter), alive := h.alive && ok)
  }

  // Does this iteration of the host loop get as far as sealing a REKEY_ACK?
  predicate HostAcks(h: Host, f: Frame) {
    && f.ty == Rekey && h.v2 && h.alive && h.epoch < 255
    && var o := OpenChecked(h.v2, h.rx, f);
       o.Some? && o.value.0.PublicKey?
  }

  // One iteration of the host's receive loop. `eph` is the ephemeral generated when the frame is an
  // acceptable REKEY, `ok` the outcome of writing the REKEY_ACK.
  function HostReceived(h: Host, f: Frame, eph: Eph, ok: bool): (Host, bool) {
    if f.ty == Bye then (h.(reading := false), false) else
    if f.ty !in {Rekey, StreamChunk, Request} then (h, false) else
    if f.ty == Rekey && !h.v2 then (h.(reading := false), false) else
    match OpenChecked(h.v2, h.rx, f)
    case None => (h.(reading := false), false)
    case Some((p, rx)) =>
      if f.ty != Rekey then (h.(rx := rx), true)
      else if !HostAcks(h, f) then (h.(rx := rx, reading := false), true)
      else if !ok then (h.(rx := rx, reading := false, alive := false), true)
      else
        var nk := HostKeys(eph, p.eph);
        (h.(tx := nk.tx, epoch := NextEpoch(h.epoch), txCounter := 0, rx := rx.(pending := Some(nk.rx))), true)
  }

  // ---- when an end goes on reading -------------------------------------------

  // The frame is sealed the way the receiver expects its next frame: under its key, counter and epoch,
  // or as the first one under its pending key.
  predicate Fits(v2: bool, rx: Rx, f: Frame) {
    && f.body.Sealed?
    && var b := f.body.box;
       && b.v2 == v2 && b.ty == f.ty && b.counter == f.counter && b.epoch == (if v2 then f.epoch else 0)
       && (if !v2 || f.epoch == rx.epoch then b.key == rx.key && f.counter == rx.counter
           else f.epoch == (rx.epoch + 1) % EPOCHS && rx.pending == Some(b.key) && f.counter == 0)
  }

  lemma OpensIffFits(v2: bool, rx: Rx, f: Frame)
    ensures OpenChecked(v2, rx, f).Some? <==> Fits(v2, rx, f)
    ensures Fits(v2, rx, f) ==> OpenChecked(v2, rx, f).value.0 == f.body.box.plain
  {
  }

  /** What was sealed is what is opened, by a receiver with this key, counter and epoch and by no other. */
  lemma SealedOpensIff(v2: bool, key: Key, counter: nat, epoch: nat, ty: FrameType, plain: Plain, rx: Rx)
    requires !v2 ==> epoch == 0
    ensures var o := OpenChecked(v2, rx, SealFrame(v2, key, counter, epoch, ty, plain));
            && (o.Some? ==> o.value.0 == plain)
            && (o.Some? <==> if !v2 || epoch == rx.epoch then key == rx.key && counter == rx.counter
                             else epoch == (rx.epoch + 1) % EPOCHS && rx.pending == Some(key) && counter == 0)
  {
    OpensIffFits(v2, rx, SealFrame(v2, key, counter, epoch, ty, plain));
    hide OpenChecked;
  }

  /**
    A client goes on reading after a frame if and only if it is one it passes over, or it opens, is no
    ERROR and, if it is an ack, answers an offer the client remembers.
  */
  lemma ClientReadsOnIff(c: Client, f: Frame)
    requires c.reading
    ensures ClientReceived(c, f).0.reading <==>
            || f.ty !in {RekeyAck, Error, StreamChunk, Response}
            || (Fits(c.v2, c.rx, f) && f.ty != Error && (f.ty == RekeyAck ==> f.body.box.plain.PublicKey? && c.pendingEph.Some?))
    ensures ClientReceived(c, f).1 <==> f.ty in {RekeyAck, Error, StreamChunk, Response} && Fits(c.v2, c.rx, f)
  {
    OpensIffFits(c.v2, c.rx, f);
    hide OpenChecked, Fits;
  }

  /**
    A host goes on reading after a frame if and only if it is one it passes over - BYE is not -, or it
    opens and, if it is a REKEY, could be answered.
  */
  lemma HostReadsOnIff(h: Host, f: Frame, eph: Eph, ok: bool)
    requires h.reading
    ensures HostReceived(h, f, eph, ok).0.reading <==>
            || f.ty !in {Rekey, StreamChunk, Request, Bye}
            || (f.ty in {StreamChunk, Request} && Fits(h.v2, h.rx, f))
            || (f.ty == Rekey && Fits(h.v2, h.rx, f) && f.body.box.plain.PublicKey? && h.v2 && h.epoch < 255 && h.alive && ok)
    ensures HostReceived(h, f, eph, ok).1 <==>
            f.ty in {Rekey, StreamChunk, Request} && Fits(h.v2, h.rx, f) && (f.ty == Rekey ==> h.v2)
  {
    OpensIffFits(h.v2, h.rx, f);
    hide OpenChecked, Fits;
  }
}
