/**
  The session as a transition system: both ends, every frame either end ever sealed, and what each
  end accepted. `Core` is the inductive invariant that ties the two ends to the two logs.
*/
module Session {
  import opened Options
  import opened Endpoints

  // A sealed frame in sealing order; `written` is false when the write to the transport failed, so
  // that its bytes never reach the peer as a whole.
  datatype Entry = Entry(frame: Frame, written: bool)

  // The ephemerals that made one epoch's keys.
  datatype Pair = Pair(client: Eph, host: Eph)

  datatype World = World(
    client: Client, host: Host,
    up: seq<Entry>, down: seq<Entry>,
    upAcc: seq<Frame>, downAcc: seq<Frame>,
    hist: seq<Pair>, nextEph: nat)

  datatype Action =
    | ClientSend(ty: FrameType, plain: Plain, ok: bool)
    | ClientOffer(ok: bool)
    | ClientStore
    | ClientReceive(f: Frame)
    | ClientSwitch
    | HostSend(ty: FrameType, plain: Plain, ok: bool)
    | HostPing(ok: bool)
    | HostReceive(f: Frame, ok: bool)
    | HostClose

  // What the callers of the two send paths pass.
  predicate Sendable(a: Action) {
    && (a.ClientSend? ==> a.ty in {Request, StreamChunk} && a.plain.Payload?)
    && (a.HostSend? ==> a.ty in {Response, StreamChunk, Error} && a.plain.Payload?)
  }

  // The lock an action needs is free and the thread that performs it is running.
  predicate Enabled(w: World, a: Action) {
    match a
    case ClientSend(_, _, _) => w.client.offering.None?
    case ClientOffer(_) => w.client.offering.None? && MayRekey(w.client)
    case ClientStore => w.client.offering.Some?
    case ClientReceive(_) => w.client.reading && w.client.switching.None?
    case ClientSwitch => w.client.offering.None? && w.client.switching.Some?
    case HostSend(_, _, _) => w.host.alive
    case HostPing(_) => w.host.alive
    case HostReceive(_, _) => w.host.reading
    case HostClose => true
  }

  function Step(w: World, a: Action): World
    requires Enabled(w, a)
  {
    match a
    case ClientSend(ty, plain, ok) =>
      w.(client := ClientSent(w.client), up := w.up + [Entry(ClientFrame(w.client, ty, plain), ok)])
    case ClientOffer(ok) =>
      var eph := Honest(w.nextEph);
      w.(client := ClientOffered(w.client, eph, ok), nextEph := w.nextEph + 1,
         up := w.up + [Entry(ClientFrame(w.client, Rekey, PublicKey(eph)), ok)])
    case ClientStore =>
      w.(client := ClientStored(w.client))
    case ClientReceive(f) =>
      var (c, accepted) := ClientReceived(w.client, f);
      w.(client := c, downAcc := if accepted then w.downAcc + [f] else w.downAcc)
    case ClientSwitch =>
      w.(client := ClientSwitched(w.client))
    case HostSend(ty, plain, ok) =>
      w.(host := HostSent(w.host, ok), down := w.down + [Entry(HostFrame(w.host, ty, plain), ok)])
    case HostPing(ok) =>
      w.(host := w.host.(alive := ok))
    case HostReceive(f, ok) =>
      var eph := Honest(w.nextEph);
      var (h, accepted) := HostReceived(w.host, f, eph, ok);
      var w1 := w.(host := h, upAcc := if accepted then w.upAcc + [f] else w.upAcc);
      if !HostAcks(w.host, f) then w1 else
      var w2 := w1.(nextEph := w.nextEph + 1, down := w.down + [Entry(HostFrame(w.host, RekeyAck, PublicKey(eph)), ok)]);
      if !ok then w2 else
      w2.(hist := w.hist + [Pair(OpenChecked(w.host.v2, w.host.rx, f).value.0.eph, eph)])
    case HostClose =>
      w.(host := w.host.(alive := false, reading := false))
  }

  // Right after a handshake in which the client made ephemeral 0 and the host ephemeral 1, each
  // end with the version and the peer ephemeral it came out with.
  function Opened(clientV2: bool, hostV2: bool, clientPeer: Eph, hostPeer: Eph): World {
    var ck := ClientKeys(Honest(0), clientPeer);
    var hk := HostKeys(Honest(1), hostPeer);
    World(Client(clientV2, ck.tx, 0, 0, None, None, false, Rx(ck.rx, 0, 0, None), None, true),
          Host(hostV2, hk.tx, 0, 0, true, Rx(hk.rx, 0, 0, None), true),
          [], [], [], [], [Pair(Honest(0), Honest(1))], 2)
  }

  // A handshake that agreed on both.
  function Established(v2: bool): World {
    Opened(v2, v2, Honest(1), Honest(0))
  }

  // ---- logs ------------------------------------------------------------------

  function Frames(log: seq<Entry>): (fs: seq<Frame>)
    ensures |fs| == |log| && forall i :: 0 <= i < |log| ==> fs[i] == log[i].frame
  {
    seq(|log|, i requires 0 <= i < |log| => log[i].frame)
  }

  // Frame i continues the numbering of frame i - 1: the next counter, or counter 0 of the next epoch.
  ghost predicate Follows(fs: seq<Frame>, i: nat)
    requires i < |fs|
  {
    if i == 0 then fs[0].epoch == 0 && fs[0].counter == 0
    else
      || (fs[i].epoch == fs[i - 1].epoch && fs[i].counter == Next(fs[i - 1].counter))
      || (fs[i].epoch == fs[i - 1].epoch + 1 && fs[i].counter == 0)
  }

  ghost predicate Numbered(fs: seq<Frame>) {
    forall i :: 0 <= i < |fs| ==> Follows(fs, i)
  }

  ghost predicate Ascending(fs: seq<Frame>) {
    forall i, j :: 0 <= i <= j < |fs| ==> fs[i].epoch <= fs[j].epoch
  }

  // Would (epoch, counter) continue the numbering?
  ghost predicate Continues(fs: seq<Frame>, epoch: nat, counter: nat) {
    if fs == [] then epoch == 0 && counter == 0
    else
      var l := fs[|fs| - 1];
      || (epoch == l.epoch && counter == Next(l.counter))
      || (epoch == l.epoch + 1 && counter == 0)
  }

  function KeyAt(hist: seq<Pair>, e: nat, dir: Direction): Key
    requires e < |hist|
  {
    Key(hist[e].client, hist[e].host, dir)
  }

  // The frame carries exactly the key, counter, epoch and type that its header names.
  ghost predicate Proper(f: Frame, hist: seq<Pair>, v2: bool, dir: Direction) {
    && f.epoch < |hist| && f.counter < U64 && f.body.Sealed?
    && f.body.box == Box(v2, KeyAt(hist, f.epoch, dir), f.counter, f.epoch, f.ty, f.body.box.plain)
    && (!v2 ==> f.epoch == 0)
  }

  ghost predicate Log(fs: seq<Frame>, hist: seq<Pair>, v2: bool, dir: Direction) {
    && Numbered(fs)
    && forall i :: 0 <= i < |fs| ==> Proper(fs[i], hist, v2, dir)
  }

  // Everything of this epoch up to frame i did reach the transport.
  ghost predicate Live(log: seq<Entry>, i: nat)
    requires i < |log|
  {
    forall k :: 0 <= k <= i && log[k].frame.epoch == log[i].frame.epoch ==> log[k].written
  }

  // ---- the invariant ---------------------------------------------------------

  ghost predicate FreshEph(e: Eph, nextEph: nat) {
    e.Honest? && e.id < nextEph
  }

  // The ephemerals behind each epoch, all fresh; the host is at the newest epoch, the client there
  // or one behind.
  ghost predicate History(hist: seq<Pair>, nextEph: nat, v2: bool, clientEpoch: nat, hostEpoch: nat) {
    && |hist| == hostEpoch + 1 <= EPOCHS
    && (!v2 ==> hostEpoch == 0)
    && (forall i :: 0 <= i < |hist| ==> FreshEph(hist[i].client, nextEph) && FreshEph(hist[i].host, nextEph))
    && (forall i, j :: 0 <= i < j < |hist| ==> hist[i].host != hist[j].host)
    && clientEpoch <= hostEpoch <= clientEpoch + 1
  }

  // A receiver's keys: the one of its epoch, and the next one once the peer's end has moved to
  // `epoch`; it has accepted the frame before position p last.
  ghost predicate Receiver(rx: Rx, epoch: nat, hist: seq<Pair>, dir: Direction, fs: seq<Frame>, p: nat) {
    && rx.epoch <= epoch <= rx.epoch + 1 && epoch < |hist|
    && rx.key == KeyAt(hist, rx.epoch, dir)
    && rx.pending == (if rx.epoch < epoch then Some(KeyAt(hist, epoch, dir)) else None)
    && p <= |fs|
    && (p == 0 ==> rx.epoch == 0 && rx.counter == 0 && rx.pending.None?)
    && (p > 0 ==> rx.epoch == fs[p - 1].epoch && rx.counter == Next(fs[p - 1].counter))
  }

  // A sender's key is the one of its epoch, and its counter continues what it sealed.
  ghost predicate Sender(tx: Key, epoch: nat, counter: nat, sending: bool, hist: seq<Pair>, dir: Direction, fs: seq<Frame>) {
    && epoch < |hist| && tx == KeyAt(hist, epoch, dir)
    && (sending ==> Continues(fs, epoch, counter))
  }

  // A rotation this client offered and has not completed.
  ghost predicate Rotating(c: Client) {
    c.offering.Some? || c.pendingEph.Some? || c.switching.Some?
  }

  ghost function Offer(c: Client): Option<Eph> {
    if c.offering.Some? then c.offering else c.pendingEph
  }

  ghost predicate AckLast(fs: seq<Frame>, p: nat) {
    0 < p <= |fs| && fs[p - 1].ty == RekeyAck
  }

  // The client has accepted an ack last exactly when it holds keys it has not seen used yet.
  ghost predicate AckSeen(fs: seq<Frame>, q: nat, ahead: bool) {
    AckLast(fs, q) <==> ahead
  }

  ghost predicate Control(c: Client, hostEpoch: nat, hist: seq<Pair>, up: seq<Frame>, nextEph: nat) {
    && hostEpoch < |hist|
    && (c.offering.Some? ==> c.pendingEph.None? && c.switching.None? && FreshEph(c.offering.value, nextEph))
    && (c.pendingEph.Some? ==> c.switching.None? && FreshEph(c.pendingEph.value, nextEph))
    && (c.rekeyInProgress <==> c.pendingEph.Some? || c.switching.Some?)
    && (Rotating(c) ==> c.v2 && c.epoch < 255 && up != [] && up[|up| - 1].epoch == c.epoch)
    && (hostEpoch == c.epoch + 1 ==>
          && Rotating(c)
          && (c.switching.None? ==> Offer(c) == Some(hist[hostEpoch].client)))
    && (c.switching.Some? ==>
          && c.reading && c.rx.pending.None? && hostEpoch == c.epoch + 1
          && c.switching.value == SessionKeys(KeyAt(hist, hostEpoch, ToHost), KeyAt(hist, hostEpoch, ToClient)))
  }

  ghost predicate LiveRekey(log: seq<Entry>, i: nat) {
    i < |log| && log[i].frame.ty == Rekey && Live(log, i)
  }

  // What a client offered to the host: nothing, an ephemeral it remembers, or one the host answered.
  datatype Rotation = Idle | Offered(eph: Eph) | Answered

  ghost function RotationOf(c: Client): Rotation {
    if c.switching.Some? then Answered else if Offer(c).Some? then Offered(Offer(c).value) else Idle
  }

  // A REKEY the host can still take, or took: at most one per epoch; a host that took it is ahead of
  // it or stopped over it; that of the current epoch carries the ephemeral the client remembers.
  ghost predicate Rekeys(up: seq<Entry>, p: nat, clientEpoch: nat, r: Rotation, hostEpoch: nat, reading: bool) {
    && (forall i: nat, j: nat :: i < j && LiveRekey(up, i) && LiveRekey(up, j) ==> up[i].frame.epoch != up[j].frame.epoch)
    && (forall i: nat :: LiveRekey(up, i) ==> RekeyFacts(up[i].frame, i < p, clientEpoch, r, hostEpoch, reading))
  }

  ghost predicate RekeyFacts(f: Frame, taken: bool, clientEpoch: nat, r: Rotation, hostEpoch: nat, reading: bool) {
    && f.body.Sealed? && f.body.box.plain.PublicKey?
    && f.epoch <= clientEpoch
    && (if taken && reading then f.epoch < hostEpoch
        else if taken then f.epoch <= hostEpoch
        else f.epoch == clientEpoch == hostEpoch)
    && (f.epoch == clientEpoch ==> r == Answered || r == Offered(f.body.box.plain.eph))
  }

  // A REKEY_ACK that was written is the last frame of its epoch and names the ephemeral that made
  // the next one; nothing else ends an epoch.
  ghost predicate Acks(down: seq<Entry>, hist: seq<Pair>, alive: bool, hostEpoch: nat) {
    && (forall i: nat :: i < |down| ==> AckFacts(down, hist, i))
    && (alive && down != [] ==> Ends(down[|down| - 1], hostEpoch))
  }

  // After this frame the sender is at that epoch.
  ghost predicate Ends(e: Entry, epoch: nat) {
    e.written && epoch == (if e.frame.ty == RekeyAck then e.frame.epoch + 1 else e.frame.epoch)
  }

  ghost predicate AckFacts(down: seq<Entry>, hist: seq<Pair>, i: nat)
    requires i < |down|
  {
    var f := down[i].frame;
    && (i + 1 < |down| ==> Ends(down[i], down[i + 1].frame.epoch))
    && (f.ty == RekeyAck && down[i].written ==>
          && f.epoch + 1 < |hist|
          && f.body.Sealed? && f.body.box.plain == PublicKey(hist[f.epoch + 1].host))
  }

  // The client accepted the first frames sent to it.
  ghost predicate AcceptedDown(down: seq<Entry>, downAcc: seq<Frame>) {
    && downAcc <= Frames(down)
    && forall i :: 0 <= i < |downAcc| ==> down[i].written
  }

  // The host accepted an in-order selection of the first p frames, ending with the last of them.
  ghost predicate AcceptedUp(up: seq<Entry>, upAcc: seq<Frame>, p: nat) {
    && p <= |up|
    && (p == 0 <==> upAcc == [])
    && (p > 0 ==> upAcc[|upAcc| - 1] == up[p - 1].frame && Live(up, p - 1))
    && Numbered(upAcc)
    && (forall i :: 0 <= i < |upAcc| ==> upAcc[i] in Frames(up))
  }

  ghost predicate Core(w: World, p: nat) {
    && w.client.v2 == w.host.v2
    && History(w.hist, w.nextEph, w.host.v2, w.client.epoch, w.host.epoch)
    && Log(Frames(w.up), w.hist, w.host.v2, ToHost)
    && Log(Frames(w.down), w.hist, w.host.v2, ToClient)
    && Sender(w.host.tx, w.host.epoch, w.host.txCounter, w.host.alive, w.hist, ToClient, Frames(w.down))
    && Sender(w.client.tx, w.client.epoch, w.client.txCounter, true, w.hist, ToHost, Frames(w.up))
    && Receiver(w.host.rx, w.host.epoch, w.hist, ToHost, Frames(w.up), p)
    && (w.client.reading ==>
          && Receiver(w.client.rx, w.client.epoch, w.hist, ToClient, Frames(w.down), |w.downAcc|)
          && AckSeen(Frames(w.down), |w.downAcc|, w.client.rx.pending.Some? || w.client.switching.Some?))
    && Control(w.client, w.host.epoch, w.hist, Frames(w.up), w.nextEph)
    && Rekeys(w.up, p, w.client.epoch, RotationOf(w.client), w.host.epoch, w.host.reading)
    && Acks(w.down, w.hist, w.host.alive, w.host.epoch)
    && AcceptedDown(w.down, w.downAcc)
    && AcceptedUp(w.up, w.upAcc, p)
  }

  lemma EstablishedCore(v2: bool)
    ensures Core(Established(v2), 0)
  {
  }
}
