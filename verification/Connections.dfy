/**
  The two ends as the code has them: objects whose fields the send paths and the receive loops
  update. Each method is one lock hold or one loop iteration and does to the fields exactly what the
  corresponding step of `Endpoints` does to the view of them; the session theorems are about those
  steps. The outcome of a write to the transport and a fresh ephemeral are parameters.
*/
module Connections {
  import opened Options
  import opened Endpoints

  // Client side: `Connection` and the receive state of its reader thread.
  class Connection {
    var v2: bool
    var tx: Key
    var txCounter: nat
    var epoch: nat
    var rekeyInProgress: bool
    var offering: Option<Eph>
    var pendingEph: Option<Eph>

    var rxKey: Key
    var rxEpoch: nat
    var rxCounter: nat
    var rxPending: Option<Key>
    var switching: Option<SessionKeys>
    var reading: bool

    function View(): Client
      reads this
    {
      Client(v2, tx, txCounter, epoch, offering, pendingEph, rekeyInProgress,
             Rx(rxKey, rxEpoch, rxCounter, rxPending), switching, reading)
    }

    constructor (version: nat, keys: SessionKeys)
      ensures View() == Client(version >= 2, keys.tx, 0, 0, None, None, false, Rx(keys.rx, 0, 0, None), None, true)
    {
      v2, tx, txCounter, epoch := version >= 2, keys.tx, 0, 0;
      rekeyInProgress, offering, pendingEph := false, None, None;
      rxKey, rxEpoch, rxCounter, rxPending := keys.rx, 0, 0, None;
      switching, reading := None, true;
    }

    // The counter moves on whether or not the frame could be written.
    method SendFrameLocked(ty: FrameType, plain: Plain) returns (f: Frame)
      modifies this`txCounter
      ensures f == ClientFrame(old(View()), ty, plain)
      ensures View() == ClientSent(old(View()))
    {
      f := SealFrame(v2, tx, txCounter, epoch, ty, plain);
      txCounter := (txCounter + 1) % U64;
    }

    method OfferRekey(eph: Eph, ok: bool) returns (f: Frame)
      requires offering.None?
      modifies this`txCounter, this`offering
      ensures f == ClientFrame(old(View()), Rekey, PublicKey(eph))
      ensures View() == ClientOffered(old(View()), eph, ok)
    {
      f := SendFrameLocked(Rekey, PublicKey(eph));
      if ok { offering := Some(eph); }
    }

    method StoreOffer()
      requires offering.Some?
      modifies this`offering, this`pendingEph, this`rekeyInProgress
      ensures View() == ClientStored(old(View()))
    {
      pendingEph := offering;
      offering := None;
      rekeyInProgress := true;
    }

    // `due` is the verdict of the rotation policy on time and bytes.
    method MaybeBeginRekeyLocked(due: bool, eph: Eph, ok: bool) returns (sent: Option<Frame>)
      requires offering.None?
      modifies this`txCounter, this`offering, this`pendingEph, this`rekeyInProgress
      ensures sent.Some? <==> due && old(v2) && old(epoch) < 255 && !old(rekeyInProgress)
      ensures sent.None? ==> View() == old(View())
      ensures sent.Some? ==>
                && sent.value == ClientFrame(old(View()), Rekey, PublicKey(eph))
                && var offered := ClientOffered(old(View()), eph, ok);
                   View() == if ok then ClientStored(offered) else offered
    {
      if !v2 || rekeyInProgress || epoch >= 255 || !due { return None; }
      var f := OfferRekey(eph, ok);
      if ok { StoreOffer(); }
      return Some(f);
    }

    method OpenFrame(f: Frame) returns (o: Option<Plain>)
      modifies this`rxKey, this`rxEpoch, this`rxCounter, this`rxPending
      ensures match OpenChecked(v2, old(View()).rx, f)
              case None => o == None && View() == old(View())
              case Some((plain, rx)) => o == Some(plain) && View() == old(View()).(rx := rx)
    {
      if !v2 || f.epoch == rxEpoch {
        if f.counter != rxCounter { return None; }
        o := Open(v2, rxKey, f.counter, f.epoch, f.ty, f.body);
        if o.Some? { rxCounter := (rxCounter + 1) % U64; }
        return o;
      }
      if rxPending.Some? && f.epoch == (rxEpoch + 1) % EPOCHS {
        if f.counter != 0 { return None; }
        o := Open(v2, rxPending.value, 0, f.epoch, f.ty, f.body);
        if o.Some? {
          rxKey := rxPending.value;
          rxPending := None;
          rxEpoch := (rxEpoch + 1) % EPOCHS;
          rxCounter := 1;
        }
        return o;
      }
      return None;
    }

    // One iteration of the reader; a REKEY_ACK leaves the derived keys for `SwitchKeys`.
    method ReadFrame(f: Frame) returns (accepted: bool)
      requires reading && switching.None?
      modifies this`rxKey, this`rxEpoch, this`rxCounter, this`rxPending, this`pendingEph, this`switching, this`reading
      ensures (View(), accepted) == ClientReceived(old(View()), f)
    {
      if f.ty !in {RekeyAck, Error, StreamChunk, Response} { return false; }
      var o := OpenFrame(f);
      if o.None? { reading := false; return false; }
      if f.ty == RekeyAck {
        if !o.value.PublicKey? { reading := false; return true; }
        var eph := pendingEph;
        if eph.None? { reading := false; return true; }
        pendingEph := None;
        switching := Some(ClientKeys(eph.value, o.value.eph));
      } else if f.ty == Error {
        reading := false;
      }
      return true;
    }

    method SwitchKeys()
      requires switching.Some?
      modifies this`tx, this`epoch, this`txCounter, this`rekeyInProgress, this`rxPending, this`switching
      ensures View() == ClientSwitched(old(View()))
    {
      tx := switching.value.tx;
      epoch := (epoch + 1) % EPOCHS;
      txCounter := 0;
      rekeyInProgress := false;
      rxPending := Some(switching.value.rx);
      switching := None;
    }
  }

  // Host side: `ConnState` and the receive state of the connection's thread.
  class ConnState {
    var v2: bool
    var tx: Key
    var txCounter: nat
    var epoch: nat
    var alive: bool

    var rxKey: Key
    var rxEpoch: nat
    var rxCounter: nat
    var rxPending: Option<Key>
    var reading: bool

    function View(): Host
      reads this
    {
      Host(v2, tx, txCounter, epoch, alive, Rx(rxKey, rxEpoch, rxCounter, rxPending), reading)
    }

    constructor (version: nat, keys: SessionKeys)
      ensures View() == Host(version >= 2, keys.tx, 0, 0, true, Rx(keys.rx, 0, 0, None), true)
    {
      v2, tx, txCounter, epoch, alive := version >= 2, keys.tx, 0, 0, true;
      rxKey, rxEpoch, rxCounter, rxPending, reading := keys.rx, 0, 0, None, true;
    }

    method SendSealed(ty: FrameType, plain: Plain, ok: bool) returns (sent: Option<Frame>)
      modifies this`txCounter, this`alive
      ensures sent.Some? <==> old(alive)
      ensures sent.None? ==> View() == old(View())
      ensures sent.Some? ==> sent.value == HostFrame(old(View()), ty, plain) && View() == HostSent(old(View()), ok)
    {
      if !alive { return None; }
      var f := SealFrame(v2, tx, txCounter, epoch, ty, plain);
      txCounter := (txCounter + 1) % U64;
      if !ok { alive := false; }
      return Some(f);
    }

    // A failed ack does not advance the counter: nothing is sealed after it.
    method SendRekeyAckAndSwitch(eph: Eph, newTx: Key, ok: bool) returns (sent: Option<Frame>)
      modifies this`tx, this`txCounter, this`epoch, this`alive
      ensures sent.Some? <==> old(alive)
      ensures sent.Some? ==>
                sent.value == SealFrame(true, old(tx), old(txCounter), old(epoch), RekeyAck, PublicKey(eph))
      ensures View() == if !old(alive) then old(View())
                        else if !ok then old(View()).(alive := false)
                        else old(View()).(tx := newTx, epoch := NextEpoch(old(epoch)), txCounter := 0)
    {
      if !alive { return None; }
      var f := SealFrame(true, tx, txCounter, epoch, RekeyAck, PublicKey(eph));
      if !ok { alive := false; return Some(f); }
      tx := newTx;
      epoch := (epoch + 1) % EPOCHS;
      txCounter := 0;
      return Some(f);
    }

    method OpenFrame(f: Frame) returns (o: Option<Plain>)
      modifies this`rxKey, this`rxEpoch, this`rxCounter, this`rxPending
      ensures match OpenChecked(v2, old(View()).rx, f)
              case None => o == None && View() == old(View())
              case Some((plain, rx)) => o == Some(plain) && View() == old(View()).(rx := rx)
    {
      if !v2 || f.epoch == rxEpoch {
        if f.counter != rxCounter { return None; }
        o := Open(v2, rxKey, f.counter, f.epoch, f.ty, f.body);
        if o.Some? { rxCounter := (rxCounter + 1) % U64; }
        return o;
      }
      if rxPending.Some? && f.epoch == (rxEpoch + 1) % EPOCHS {
        if f.counter != 0 { return None; }
        o := Open(v2, rxPending.value, 0, f.epoch, f.ty, f.body);
        if o.Some? {
          rxKey := rxPending.value;
          rxPending := None;
          rxEpoch := (rxEpoch + 1) % EPOCHS;
          rxCounter := 1;
        }
        return o;
      }
      return None;
    }

    // One iteration of the receive loop; the ack is what goes back to the client, if anything sealed.
    method ReadFrame(f: Frame, eph: Eph, ok: bool) returns (accepted: bool, ack: Option<Frame>)
      requires reading
      modifies this
      ensures (View(), accepted) == HostReceived(old(View()), f, eph, ok)
      ensures ack == if old(HostAcks(View(), f)) then Some(HostFrame(old(View()), RekeyAck, PublicKey(eph))) else None
    {
      ack := None;
      if f.ty == Bye { reading := false; return false, None; }
      if f.ty !in {Rekey, StreamChunk, Request} { return false, None; }
      if f.ty == Rekey && !v2 { reading := false; return false, None; }
      var o := OpenFrame(f);
      if o.None? { reading := false; return false, None; }
      if f.ty == Rekey {
        if !o.value.PublicKey? || epoch >= 255 { reading := false; return true, None; }
        var nk := HostKeys(eph, o.value.eph);
        ack := SendRekeyAckAndSwitch(eph, nk.tx, ok);
        if ack.None? || !ok { reading := false; return true, ack; }
        rxPending := Some(nk.rx);
      }
      return true, ack;
    }
  }
}
