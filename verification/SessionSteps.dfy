/** Every action keeps the session invariant. */
module SessionSteps {
  import opened Options
  import opened Endpoints
  import opened Session

  // ---- one more sealed frame -------------------------------------------------

  lemma FramesAppend(log: seq<Entry>, e: Entry)
    ensures Frames(log + [e]) == Frames(log) + [e.frame]
  {
  }

  lemma AppendLog(log: seq<Entry>, e: Entry, hist: seq<Pair>, v2: bool, dir: Direction)
    requires Log(Frames(log), hist, v2, dir)
    requires Continues(Frames(log), e.frame.epoch, e.frame.counter) && Proper(e.frame, hist, v2, dir)
    ensures Log(Frames(log + [e]), hist, v2, dir)
    ensures Continues(Frames(log + [e]), e.frame.epoch, Next(e.frame.counter))
    ensures Continues(Frames(log + [e]), e.frame.epoch + 1, 0)
  {
    FramesAppend(log, e);
    var fs, gs := Frames(log), Frames(log) + [e.frame];
    forall i | 0 <= i < |gs| ensures Follows(gs, i) && Proper(gs[i], hist, v2, dir) {
      if i < |fs| { assert Follows(fs, i) && Proper(fs[i], hist, v2, dir); }
    }
  }

  lemma LiveAppend(log: seq<Entry>, e: Entry, i: nat)
    requires i < |log|
    ensures Live(log + [e], i) <==> Live(log, i)
  {
    var log' := log + [e];
    forall k | 0 <= k <= i ensures log'[k] == log[k] {}
  }

  lemma AppendAcceptedUp(up: seq<Entry>, e: Entry, upAcc: seq<Frame>, p: nat)
    requires AcceptedUp(up, upAcc, p)
    ensures AcceptedUp(up + [e], upAcc, p)
  {
    FramesAppend(up, e);
    if p > 0 { LiveAppend(up, e, p - 1); }
  }

  lemma AppendAcceptedDown(down: seq<Entry>, e: Entry, downAcc: seq<Frame>)
    requires AcceptedDown(down, downAcc)
    ensures AcceptedDown(down + [e], downAcc)
  {
    FramesAppend(down, e);
  }

  lemma AppendReceiver(rx: Rx, epoch: nat, hist: seq<Pair>, dir: Direction, log: seq<Entry>, e: Entry, p: nat)
    requires Receiver(rx, epoch, hist, dir, Frames(log), p)
    ensures Receiver(rx, epoch, hist, dir, Frames(log + [e]), p)
    ensures AckLast(Frames(log + [e]), p) <==> AckLast(Frames(log), p)
  {
    FramesAppend(log, e);
  }

  // A new entry leaves the facts about earlier REKEYs as they are; a REKEY must be the first live one
  // of its epoch.
  lemma AppendRekeys(up: seq<Entry>, e: Entry, p: nat, ce: nat, r: Rotation, r': Rotation, he: nat, reading: bool)
    requires Rekeys(up, p, ce, r, he, reading) && p <= |up| && (r == r' || r == Idle)
    requires LiveRekey(up + [e], |up|) ==> RekeyFacts(e.frame, false, ce, r', he, reading) && r == Idle
    ensures Rekeys(up + [e], p, ce, r', he, reading)
  {
    var up' := up + [e];
    forall i: nat | LiveRekey(up', i) && i < |up| ensures LiveRekey(up, i) && up'[i] == up[i] {
      LiveAppend(up, e, i);
    }
  }

  lemma AppendAcks(down: seq<Entry>, e: Entry, hist: seq<Pair>, hist': seq<Pair>, alive: bool, epoch: nat)
    requires Acks(down, hist, true, e.frame.epoch) && hist <= hist'
    requires e.frame.ty == RekeyAck && e.written ==> AckFacts([e], hist', 0)
    requires alive ==> Ends(e, epoch)
    ensures Acks(down + [e], hist', alive, epoch)
  {
    var down' := down + [e];
    forall i: nat | i < |down'| ensures AckFacts(down', hist', i) {
      if i < |down| { assert AckFacts(down, hist, i); }
    }
  }

  // ---- client actions --------------------------------------------------------

  // One more frame of the client, under its current key, epoch and counter.
  lemma ClientSeals(w: World, p: nat, e: Entry)
    requires Core(w, p) && e.frame.body.Sealed? && e.frame == ClientFrame(w.client, e.frame.ty, e.frame.body.box.plain)
    ensures var up := w.up + [e];
            && Log(Frames(up), w.hist, w.host.v2, ToHost)
            && Sender(w.client.tx, w.client.epoch, Next(w.client.txCounter), true, w.hist, ToHost, Frames(up))
            && Receiver(w.host.rx, w.host.epoch, w.hist, ToHost, Frames(up), p)
            && AcceptedUp(up, w.upAcc, p) && p <= |w.up|
  {
    assert Proper(e.frame, w.hist, w.host.v2, ToHost);
    AppendLog(w.up, e, w.hist, w.host.v2, ToHost);
    AppendAcceptedUp(w.up, e, w.upAcc, p);
    AppendReceiver(w.host.rx, w.host.epoch, w.hist, ToHost, w.up, e, p);
  }

  // What the client controls after one more frame of its epoch; `eph` if it was an offer.
  lemma ControlAfterSend(c: Client, he: nat, hist: seq<Pair>, up: seq<Entry>, e: Entry, n: nat, n': nat, c': Client)
    requires Control(c, he, hist, Frames(up), n) && n <= n' && e.frame.epoch == c.epoch
    requires c' == c.(txCounter := c'.txCounter)
             || (c.offering.None? && MayRekey(c) && he == c.epoch && n < n'
                 && c' == c.(txCounter := c'.txCounter, offering := Some(Honest(n))))
    ensures Control(c', he, hist, Frames(up + [e]), n')
  {
    FramesAppend(up, e);
  }

  lemma HistoryLater(hist: seq<Pair>, n: nat, n': nat, v2: bool, ce: nat, he: nat)
    requires History(hist, n, v2, ce, he) && n <= n'
    ensures History(hist, n', v2, ce, he)
  {
    forall i | 0 <= i < |hist| ensures FreshEph(hist[i].client, n') && FreshEph(hist[i].host, n') {
      assert FreshEph(hist[i].client, n) && FreshEph(hist[i].host, n);
    }
  }

  lemma ClientSendCore(w: World, p: nat, a: Action)
    requires Core(w, p) && a.ClientSend? && Sendable(a) && Enabled(w, a)
    ensures Core(Step(w, a), p)
  {
    hide History, Log, Sender, Receiver, AckSeen, Control, Rekeys, Acks, AcceptedUp, AcceptedDown;
    var w' := Step(w, a);
    var e := Entry(ClientFrame(w.client, a.ty, a.plain), a.ok);
    ClientSeals(w, p, e);
    AppendRekeys(w.up, e, p, w.client.epoch, RotationOf(w.client), RotationOf(w'.client), w.host.epoch, w.host.reading);
    ControlAfterSend(w.client, w.host.epoch, w.hist, w.up, e, w.nextEph, w'.nextEph, w'.client);
  }

  // A client that may offer is in the epoch of the host, which has taken no REKEY of it.
  lemma MayOffer(w: World, p: nat)
    requires Core(w, p) && w.client.offering.None? && MayRekey(w.client)
    ensures w.host.epoch == w.client.epoch && RotationOf(w.client) == Idle && p <= |w.up|
  {
  }

  lemma ClientOfferCore(w: World, p: nat, a: Action)
    requires Core(w, p) && a.ClientOffer? && Enabled(w, a)
    ensures Core(Step(w, a), p)
  {
    MayOffer(w, p);
    hide History, Log, Sender, Receiver, AckSeen, Control, Rekeys, Acks, AcceptedUp, AcceptedDown;
    var w' := Step(w, a);
    var e := Entry(ClientFrame(w.client, Rekey, PublicKey(Honest(w.nextEph))), a.ok);
    ClientSeals(w, p, e);
    assert LiveRekey(w.up + [e], |w.up|) ==> e.written by { assert (w.up + [e])[|w.up|] == e; }
    AppendRekeys(w.up, e, p, w.client.epoch, RotationOf(w.client), RotationOf(w'.client), w.host.epoch, w.host.reading);
    HistoryLater(w.hist, w.nextEph, w'.nextEph, w.host.v2, w.client.epoch, w.host.epoch);
    ControlAfterSend(w.client, w.host.epoch, w.hist, w.up, e, w.nextEph, w'.nextEph, w'.client);
  }

  lemma ClientStoreCore(w: World, p: nat, a: Action)
    requires Core(w, p) && a.ClientStore? && Enabled(w, a)
    ensures Core(Step(w, a), p)
  {
    var w' := Step(w, a);
  }

  // The client's own parts after the switch.
  lemma ClientSwitchParts(w: World, p: nat)
    requires Core(w, p) && w.client.switching.Some?
    ensures var c, c' := w.client, ClientSwitched(w.client);
            && w.host.epoch == c.epoch + 1 == c'.epoch && RotationOf(c) == Answered && c.reading && c.rx.pending.None?
            && RotationOf(c') == Idle
            && History(w.hist, w.nextEph, w.host.v2, c'.epoch, w.host.epoch)
            && Sender(c'.tx, c'.epoch, 0, true, w.hist, ToHost, Frames(w.up))
            && Receiver(c'.rx, c'.epoch, w.hist, ToClient, Frames(w.down), |w.downAcc|)
            && Control(c', w.host.epoch, w.hist, Frames(w.up), w.nextEph)
  {
  }

  lemma ClientSwitchCore(w: World, p: nat, a: Action)
    requires Core(w, p) && a.ClientSwitch? && Enabled(w, a)
    ensures Core(Step(w, a), p)
  {
    hide History, Log, Sender, Receiver, AckSeen, Control, Rekeys, Acks, AcceptedUp, AcceptedDown;
    ClientSwitchParts(w, p);
    RekeysProceed(w.up, p, w.client.epoch, RotationOf(w.client), w.host.epoch, w.host.reading);
  }

  // ---- host actions ----------------------------------------------------------

  // One more frame of the host, under its current key, epoch and counter.
  lemma HostSeals(w: World, p: nat, e: Entry)
    requires Core(w, p) && w.host.alive
    requires e.frame.body.Sealed? && e.frame == HostFrame(w.host, e.frame.ty, e.frame.body.box.plain)
    ensures var down := w.down + [e];
            && Log(Frames(down), w.hist, w.host.v2, ToClient)
            && Sender(w.host.tx, w.host.epoch, Next(w.host.txCounter), true, w.hist, ToClient, Frames(down))
            && AcceptedDown(down, w.downAcc)
            && (w.client.reading ==>
                  && Receiver(w.client.rx, w.client.epoch, w.hist, ToClient, Frames(down), |w.downAcc|)
                  && AckSeen(Frames(down), |w.downAcc|, w.client.rx.pending.Some? || w.client.switching.Some?))
  {
    assert Proper(e.frame, w.hist, w.host.v2, ToClient);
    AppendLog(w.down, e, w.hist, w.host.v2, ToClient);
    AppendAcceptedDown(w.down, e, w.downAcc);
    if w.client.reading { AppendReceiver(w.client.rx, w.client.epoch, w.hist, ToClient, w.down, e, |w.downAcc|); }
  }

  lemma SenderStops(tx: Key, epoch: nat, counter: nat, counter': nat, sending: bool, hist: seq<Pair>, dir: Direction, fs: seq<Frame>)
    requires Sender(tx, epoch, counter, true, hist, dir, fs) && (sending ==> counter' == counter)
    ensures Sender(tx, epoch, counter', sending, hist, dir, fs)
  {
  }

  lemma HostSendCore(w: World, p: nat, a: Action)
    requires Core(w, p) && a.HostSend? && Sendable(a) && Enabled(w, a)
    ensures Core(Step(w, a), p)
  {
    hide History, Log, Sender, Receiver, AckSeen, Control, Rekeys, Acks, AcceptedUp, AcceptedDown;
    var w' := Step(w, a);
    var e := Entry(HostFrame(w.host, a.ty, a.plain), a.ok);
    HostSeals(w, p, e);
    SenderStops(w.host.tx, w.host.epoch, Next(w.host.txCounter), w'.host.txCounter, w'.host.alive, w.hist, ToClient, Frames(w'.down));
    AppendAcks(w.down, e, w.hist, w.hist, w'.host.alive, w'.host.epoch);
  }

  lemma HostQuietCore(w: World, p: nat, a: Action)
    requires Core(w, p) && (a.HostPing? || a.HostClose?) && Enabled(w, a)
    ensures Core(Step(w, a), p)
  {
  }

  // ---- receiving -------------------------------------------------------------

  // Epochs never go down along a numbered log.
  lemma EpochsAscend(fs: seq<Frame>, i: nat, j: nat)
    requires Numbered(fs) && i <= j < |fs|
    ensures fs[i].epoch <= fs[j].epoch
    decreases j
  {
    if i < j {
      EpochsAscend(fs, i, j - 1);
      assert Follows(fs, j);
    }
  }

  // Opening the frame at position j leaves the receiver right after it, one key generation further
  // when the frame belongs to the next epoch.
  lemma OpenAt(v2: bool, rx: Rx, epoch: nat, hist: seq<Pair>, dir: Direction, fs: seq<Frame>, p: nat, j: nat)
    requires Receiver(rx, epoch, hist, dir, fs, p) && Log(fs, hist, v2, dir) && |hist| <= EPOCHS
    requires j < |fs| && OpenChecked(v2, rx, fs[j]).Some?
    ensures var (plain, rx') := OpenChecked(v2, rx, fs[j]).value;
            && Receiver(rx', epoch, hist, dir, fs, j + 1)
            && plain == fs[j].body.box.plain
            && rx'.epoch == fs[j].epoch
            && (rx'.pending.Some? ==> rx' == rx.(counter := rx'.counter))
  {
    assert Proper(fs[j], hist, v2, dir);
  }

  // The frame the client opens next is of its own epoch, and ends it exactly when it is an ack.
  lemma ClientOpens(w: World, p: nat)
    requires Core(w, p) && w.client.reading && w.client.switching.None?
    requires |w.downAcc| < |w.down|
    requires OpenChecked(w.client.v2, w.client.rx, w.down[|w.downAcc|].frame).Some?
    ensures var f := w.down[|w.downAcc|].frame;
            var (plain, rx) := OpenChecked(w.client.v2, w.client.rx, f).value;
            && Receiver(rx, w.client.epoch, w.hist, ToClient, Frames(w.down), |w.downAcc| + 1)
            && rx.pending.None? && rx.epoch == f.epoch == w.client.epoch
            && (f.ty == RekeyAck && w.down[|w.downAcc|].written ==>
                  w.host.epoch == w.client.epoch + 1 && plain == PublicKey(w.hist[w.host.epoch].host))
  {
    var c, q, fs := w.client, |w.downAcc|, Frames(w.down);
    OpenAt(c.v2, c.rx, c.epoch, w.hist, ToClient, fs, q, q);
    assert AckFacts(w.down, w.hist, q) && Follows(fs, q);
    if q > 0 { assert AckFacts(w.down, w.hist, q - 1); }
  }

  lemma RekeysStop(up: seq<Entry>, p: nat, ce: nat, r: Rotation, he: nat, reading: bool)
    requires Rekeys(up, p, ce, r, he, reading)
    ensures Rekeys(up, p, ce, r, he, false)
  {
    forall i: nat | LiveRekey(up, i) ensures RekeyFacts(up[i].frame, i < p, ce, r, he, false) {
      assert RekeyFacts(up[i].frame, i < p, ce, r, he, reading);
    }
  }

  // Moving past a rotation, or taking its answer, keeps what is known about REKEYs.
  lemma RekeysProceed(up: seq<Entry>, p: nat, ce: nat, r: Rotation, he: nat, reading: bool)
    requires Rekeys(up, p, ce, r, he, reading)
    ensures r.Offered? ==> Rekeys(up, p, ce, Answered, he, reading)
    ensures r.Answered? && he == ce + 1 ==> Rekeys(up, p, ce + 1, Idle, he, reading)
  {
    forall i: nat | LiveRekey(up, i)
      ensures r.Offered? ==> RekeyFacts(up[i].frame, i < p, ce, Answered, he, reading)
      ensures r.Answered? && he == ce + 1 ==> RekeyFacts(up[i].frame, i < p, ce + 1, Idle, he, reading)
    {
      assert RekeyFacts(up[i].frame, i < p, ce, r, he, reading);
    }
  }

  lemma StopReading(w: World, p: nat)
    requires Core(w, p)
    ensures w.client.switching.None? ==> Core(w.(client := w.client.(reading := false)), p)
    ensures Core(w.(host := w.host.(reading := false)), p)
  {
    RekeysStop(w.up, p, w.client.epoch, RotationOf(w.client), w.host.epoch, w.host.reading);
    var c := w.client.(reading := false);
    assert w.client.switching.None? ==> Control(c, w.host.epoch, w.hist, Frames(w.up), w.nextEph);
    hide History, Log, Sender, Receiver, AckSeen, Control, Rekeys, Acks, AcceptedUp, AcceptedDown;
  }

  lemma AcceptDown(down: seq<Entry>, acc: seq<Frame>, f: Frame)
    requires AcceptedDown(down, acc) && |acc| < |down| && down[|acc|] == Entry(f, true)
    ensures AcceptedDown(down, acc + [f])
  {
    assert Frames(down)[|acc|] == f;
  }

  lemma AckSeenNext(down: seq<Entry>, q: nat)
    requires q < |down|
    ensures AckSeen(Frames(down), q + 1, down[q].frame.ty == RekeyAck)
  {
  }

  lemma ControlReceives(c: Client, he: nat, hist: seq<Pair>, up: seq<Frame>, n: nat, rx: Rx)
    requires Control(c, he, hist, up, n) && c.switching.None?
    ensures Control(c.(rx := rx), he, hist, up, n)
  {
  }

  // The client took the next frame, which is no ack.
  lemma ClientTakes(w: World, p: nat, f: Frame, rx: Rx)
    requires Core(w, p) && w.client.reading && w.client.switching.None?
    requires |w.downAcc| < |w.down| && w.down[|w.downAcc|] == Entry(f, true) && f.ty != RekeyAck
    requires OpenChecked(w.client.v2, w.client.rx, f).Some? && rx == OpenChecked(w.client.v2, w.client.rx, f).value.1
    ensures Core(w.(client := w.client.(rx := rx), downAcc := w.downAcc + [f]), p)
  {
    hide History, Log, Sender, Receiver, AckSeen, Control, Rekeys, Acks, AcceptedUp, AcceptedDown, OpenChecked;
    ClientOpens(w, p);
    AcceptDown(w.down, w.downAcc, f);
    AckSeenNext(w.down, |w.downAcc|);
    ControlReceives(w.client, w.host.epoch, w.hist, Frames(w.up), w.nextEph, rx);
  }

  // The client took an ack while it had no ephemeral stored, and stopped.
  lemma ClientTakesStrayAck(w: World, p: nat, f: Frame, rx: Rx)
    requires Core(w, p) && w.client.reading && w.client.switching.None?
    requires |w.downAcc| < |w.down| && w.down[|w.downAcc|] == Entry(f, true)
    requires OpenChecked(w.client.v2, w.client.rx, f).Some?
    ensures Core(w.(client := w.client.(rx := rx, reading := false), downAcc := w.downAcc + [f]), p)
  {
    AcceptDown(w.down, w.downAcc, f);
  }

  // The keys it derives are those of the host's epoch.
  lemma ControlAnswered(c: Client, he: nat, hist: seq<Pair>, up: seq<Frame>, n: nat, rx: Rx)
    requires Control(c, he, hist, up, n) && c.pendingEph.Some? && c.reading && he == c.epoch + 1 && rx.pending.None?
    ensures var nk := ClientKeys(c.pendingEph.value, hist[he].host);
            Control(c.(rx := rx, pendingEph := None, switching := Some(nk)), he, hist, up, n)
    ensures RotationOf(c).Offered? && c.switching.None?
  {
  }

  // The client took an ack for the ephemeral it stored: it now holds the host's newest keys.
  lemma ClientTakesAck(w: World, p: nat, f: Frame, rx: Rx)
    requires Core(w, p) && w.client.reading && w.client.pendingEph.Some? && w.client.switching.None?
    requires |w.downAcc| < |w.down| && w.down[|w.downAcc|] == Entry(f, true) && f.ty == RekeyAck
    requires OpenChecked(w.client.v2, w.client.rx, f).Some? && rx == OpenChecked(w.client.v2, w.client.rx, f).value.1
    ensures var plain := OpenChecked(w.client.v2, w.client.rx, f).value.0;
            && plain.PublicKey?
            && var nk := ClientKeys(w.client.pendingEph.value, plain.eph);
               var c := w.client.(rx := rx, pendingEph := None, switching := Some(nk));
               Core(w.(client := c, downAcc := w.downAcc + [f]), p)
  {
    hide History, Log, Sender, Receiver, AckSeen, Control, Rekeys, Acks, AcceptedUp, AcceptedDown, OpenChecked;
    ClientOpens(w, p);
    AcceptDown(w.down, w.downAcc, f);
    AckSeenNext(w.down, |w.downAcc|);
    ControlAnswered(w.client, w.host.epoch, w.hist, Frames(w.up), w.nextEph, rx);
    RekeysProceed(w.up, p, w.client.epoch, RotationOf(w.client), w.host.epoch, w.host.reading);
  }

  lemma ClientReceiveCore(w: World, p: nat, a: Action)
    requires Core(w, p) && a.ClientReceive? && Enabled(w, a)
    requires ClientReceived(w.client, a.f).1 ==>
               |w.downAcc| < |w.down| && w.down[|w.downAcc|] == Entry(a.f, true)
    ensures Core(Step(w, a), p)
  {
    var o := OpenChecked(w.client.v2, w.client.rx, a.f);
    if ClientReceived(w.client, a.f).1 { ClientOpens(w, p); }
    assert w.client.pendingEph.Some? ==> w.client.switching.None?;
    hide Core;
    if !ClientReceived(w.client, a.f).1 {
      StopReading(w, p);
      assert Step(w, a) == w || Step(w, a) == w.(client := w.client.(reading := false));
    } else if a.f.ty == RekeyAck && w.client.pendingEph.Some? {
      ClientTakesAck(w, p, a.f, o.value.1);
    } else if a.f.ty == RekeyAck {
      ClientTakesStrayAck(w, p, a.f, o.value.1);
    } else {
      ClientTakes(w, p, a.f, o.value.1);
      var w1 := w.(client := w.client.(rx := o.value.1), downAcc := w.downAcc + [a.f]);
      StopReading(w1, p);
      assert Step(w, a) == w1 || Step(w, a) == w1.(client := w1.client.(reading := false));
    }
  }

  // Position j of the client's log is where the host may continue: the next frame, or the first
  // frame of the epoch it holds a pending key for.
  ghost predicate HostNext(w: World, p: nat, j: nat) {
    && p <= j < |w.up| && w.up[j].written
    && (j == p || (w.up[j].frame.epoch == w.host.rx.epoch + 1 == w.up[j - 1].frame.epoch + 1))
  }

  lemma StaysLive(w: World, p: nat, j: nat)
    requires Core(w, p) && HostNext(w, p, j)
    ensures Live(w.up, j)
  {
    var fs := Frames(w.up);
    forall k | 0 <= k <= j && w.up[k].frame.epoch == w.up[j].frame.epoch ensures w.up[k].written {
      if k < j {
        EpochsAscend(fs, k, j - 1);
        assert Follows(fs, j);
        assert fs[k] == w.up[k].frame && fs[j - 1] == w.up[j - 1].frame;
        assert j == p && w.up[k].frame.epoch == w.up[p - 1].frame.epoch;
      }
    }
  }

  // The frame the host opens continues the numbering of those it accepted.
  lemma OpenedContinues(w: World, p: nat, j: nat)
    requires Core(w, p) && HostNext(w, p, j)
    requires OpenChecked(w.host.v2, w.host.rx, w.up[j].frame).Some?
    ensures Continues(w.upAcc, w.up[j].frame.epoch, w.up[j].frame.counter)
  {
    var fs := Frames(w.up);
    assert fs[j] == w.up[j].frame && Proper(fs[j], w.hist, w.host.v2, ToHost);
    if p > 0 { assert fs[p - 1] == w.up[p - 1].frame; }
  }

  lemma AcceptOne(up: seq<Entry>, upAcc: seq<Frame>, p: nat, j: nat)
    requires AcceptedUp(up, upAcc, p) && j < |up| && Live(up, j)
    requires Continues(upAcc, up[j].frame.epoch, up[j].frame.counter)
    ensures AcceptedUp(up, upAcc + [up[j].frame], j + 1)
  {
    var fs, acc := Frames(up), upAcc + [up[j].frame];
    assert fs[j] == up[j].frame;
    forall i | 0 <= i < |acc| ensures Follows(acc, i) && acc[i] in fs {
      if i < |upAcc| { assert Follows(upAcc, i); }
    }
  }

  lemma AcceptUp(w: World, p: nat, j: nat)
    requires Core(w, p) && HostNext(w, p, j)
    requires OpenChecked(w.host.v2, w.host.rx, w.up[j].frame).Some?
    ensures AcceptedUp(w.up, w.upAcc + [w.up[j].frame], j + 1)
  {
    StaysLive(w, p, j);
    OpenedContinues(w, p, j);
    hide Live, Continues, AcceptedUp;
    AcceptOne(w.up, w.upAcc, p, j);
  }

  // No live REKEY lies between the host's position and the frame it takes next.
  lemma SkipsNoRekey(w: World, p: nat, j: nat, i: nat)
    requires Core(w, p) && HostNext(w, p, j) && p <= i < j
    ensures !LiveRekey(w.up, i)
  {
    var fs := Frames(w.up);
    EpochsAscend(fs, i, j - 1);
    assert fs[i] == w.up[i].frame && fs[j - 1] == w.up[j - 1].frame && fs[j] == w.up[j].frame;
    assert Proper(fs[j], w.hist, w.host.v2, ToHost);
  }

  lemma RekeysAfterTake(w: World, p: nat, j: nat, reading: bool)
    requires Core(w, p) && w.host.reading && HostNext(w, p, j) && (w.up[j].frame.ty == Rekey ==> !reading)
    ensures Rekeys(w.up, j + 1, w.client.epoch, RotationOf(w.client), w.host.epoch, reading)
  {
    var ce, r, he := w.client.epoch, RotationOf(w.client), w.host.epoch;
    forall i: nat | LiveRekey(w.up, i) ensures RekeyFacts(w.up[i].frame, i < j + 1, ce, r, he, reading) {
      if p <= i < j { SkipsNoRekey(w, p, j, i); }
      assert RekeyFacts(w.up[i].frame, i < p, ce, r, he, true);
    }
  }

  lemma HostOpens(w: World, p: nat, j: nat)
    requires Core(w, p) && HostNext(w, p, j)
    requires OpenChecked(w.host.v2, w.host.rx, w.up[j].frame).Some?
    ensures var rx := OpenChecked(w.host.v2, w.host.rx, w.up[j].frame).value.1;
            Receiver(rx, w.host.epoch, w.hist, ToHost, Frames(w.up), j + 1)
  {
    assert Frames(w.up)[j] == w.up[j].frame;
    OpenAt(w.host.v2, w.host.rx, w.host.epoch, w.hist, ToHost, Frames(w.up), p, j);
  }

  // The host took the frame at position j; over a REKEY it goes no further this way.
  lemma HostTakes(w: World, p: nat, j: nat, rx: Rx, reading: bool)
    requires Core(w, p) && w.host.reading && HostNext(w, p, j)
    requires OpenChecked(w.host.v2, w.host.rx, w.up[j].frame).Some?
    requires rx == OpenChecked(w.host.v2, w.host.rx, w.up[j].frame).value.1
    requires w.up[j].frame.ty == Rekey ==> !reading
    ensures Core(w.(host := w.host.(rx := rx, reading := reading), upAcc := w.upAcc + [w.up[j].frame]), j + 1)
  {
    hide History, Log, Sender, Receiver, AckSeen, Control, Rekeys, Acks, AcceptedUp, AcceptedDown, OpenChecked;
    HostOpens(w, p, j);
    AcceptUp(w, p, j);
    RekeysAfterTake(w, p, j, reading);
  }

  // A REKEY the host takes is the outstanding offer of a client in the same epoch, and opening it
  // leaves no pending key.
  lemma RekeyTaken(w: World, p: nat, j: nat)
    requires Core(w, p) && HostNext(w, p, j) && w.up[j].frame.ty == Rekey
    ensures var f := w.up[j].frame;
            && f.body.Sealed? && f.body.box.plain.PublicKey?
            && w.client.epoch == w.host.epoch == f.epoch < 255
            && RotationOf(w.client) == Offered(f.body.box.plain.eph)
            && var o := OpenChecked(w.host.v2, w.host.rx, f); (o.Some? ==> o.value.1.pending.None?)
  {
    if OpenChecked(w.host.v2, w.host.rx, w.up[j].frame).Some? {
      assert Frames(w.up)[j] == w.up[j].frame;
      OpenAt(w.host.v2, w.host.rx, w.host.epoch, w.hist, ToHost, Frames(w.up), p, j);
    }
    StaysLive(w, p, j);
    assert LiveRekey(w.up, j);
    assert RekeyFacts(w.up[j].frame, false, w.client.epoch, RotationOf(w.client), w.host.epoch, w.host.reading);
  }

  lemma MoreHistory(fs: seq<Frame>, hist: seq<Pair>, hist': seq<Pair>, v2: bool, dir: Direction)
    requires Log(fs, hist, v2, dir) && hist <= hist'
    ensures Log(fs, hist', v2, dir)
  {
    forall i | 0 <= i < |fs| ensures Proper(fs[i], hist', v2, dir) {
      assert Proper(fs[i], hist, v2, dir);
    }
  }

  // Keys of earlier epochs do not move when the history grows.
  lemma MoreHistoryReceiver(rx: Rx, epoch: nat, hist: seq<Pair>, hist': seq<Pair>, dir: Direction, fs: seq<Frame>, p: nat)
    requires Receiver(rx, epoch, hist, dir, fs, p) && hist <= hist'
    ensures Receiver(rx, epoch, hist', dir, fs, p)
  {
  }

  lemma HistoryGrows(hist: seq<Pair>, n: nat, v2: bool, epoch: nat, client: Eph)
    requires History(hist, n, v2, epoch, epoch) && v2 && epoch < 255 && FreshEph(client, n)
    ensures History(hist + [Pair(client, Honest(n))], n + 1, v2, epoch, epoch + 1)
  {
    var hist' := hist + [Pair(client, Honest(n))];
    forall i | 0 <= i < |hist'| ensures FreshEph(hist'[i].client, n + 1) && FreshEph(hist'[i].host, n + 1) {
      if i < |hist| { assert FreshEph(hist[i].client, n); }
    }
  }

  lemma RekeysAfterAck(w: World, p: nat, j: nat)
    requires Core(w, p) && HostNext(w, p, j) && w.up[j].frame.ty == Rekey && w.host.reading
    ensures Rekeys(w.up, j + 1, w.client.epoch, RotationOf(w.client), w.host.epoch + 1, true)
  {
    RekeyTaken(w, p, j);
    StaysLive(w, p, j);
    assert LiveRekey(w.up, j);
    var ce, r, he := w.client.epoch, RotationOf(w.client), w.host.epoch;
    forall i: nat | LiveRekey(w.up, i) ensures RekeyFacts(w.up[i].frame, i < j + 1, ce, r, he + 1, true) {
      if p <= i < j { SkipsNoRekey(w, p, j, i); }
      assert RekeyFacts(w.up[i].frame, i < p, ce, r, he, true);
    }
  }

  function Switched(h: Host, rx: Rx, own: Eph, peer: Eph): Host {
    var nk := HostKeys(own, peer);
    h.(tx := nk.tx, epoch := h.epoch + 1, txCounter := 0, rx := rx.(pending := Some(nk.rx)))
  }

  // The host's half of a switch: its keys, its position and what it expects.
  lemma HostSwitchesKeys(w: World, p: nat, j: nat, rx: Rx, eph: Eph)
    requires Core(w, p) && HostNext(w, p, j) && w.up[j].frame.ty == Rekey
    requires OpenChecked(w.host.v2, w.host.rx, w.up[j].frame).Some?
    requires rx == OpenChecked(w.host.v2, w.host.rx, w.up[j].frame).value.1
    ensures Offer(w.client).Some?
    ensures var hist' := w.hist + [Pair(Offer(w.client).value, eph)];
            var h' := Switched(w.host, rx, eph, Offer(w.client).value);
            && Receiver(h'.rx, h'.epoch, hist', ToHost, Frames(w.up), j + 1)
            && h'.tx == KeyAt(hist', h'.epoch, ToClient)
            && Control(w.client, h'.epoch, hist', Frames(w.up), w.nextEph + 1)
  {
    var h := w.host;
    RekeyTaken(w, p, j);
    OpenAt(h.v2, h.rx, h.epoch, w.hist, ToHost, Frames(w.up), p, j);
  }

  // The other half of a switch: the ack closes the old epoch of the host's log.
  lemma HostSwitchesLog(w: World, p: nat, pair: Pair)
    requires Core(w, p) && w.host.alive && w.host.v2
    ensures w.host.epoch + 1 == |w.hist|
    ensures var down' := w.down + [Entry(HostFrame(w.host, RekeyAck, PublicKey(pair.host)), true)];
            var hist' := w.hist + [pair];
            && Log(Frames(w.up), hist', w.host.v2, ToHost)
            && Log(Frames(down'), hist', w.host.v2, ToClient)
            && Sender(KeyAt(hist', w.host.epoch + 1, ToClient), w.host.epoch + 1, 0, true, hist', ToClient, Frames(down'))
            && Sender(w.client.tx, w.client.epoch, w.client.txCounter, true, hist', ToHost, Frames(w.up))
            && AcceptedDown(down', w.downAcc)
            && Acks(down', hist', true, w.host.epoch + 1)
            && (w.client.reading ==>
                  && Receiver(w.client.rx, w.client.epoch, hist', ToClient, Frames(down'), |w.downAcc|)
                  && AckSeen(Frames(down'), |w.downAcc|, w.client.rx.pending.Some? || w.client.switching.Some?))
  {
    var h, c, hist' := w.host, w.client, w.hist + [pair];
    var e := Entry(HostFrame(h, RekeyAck, PublicKey(pair.host)), true);
    MoreHistory(Frames(w.up), w.hist, hist', h.v2, ToHost);
    MoreHistory(Frames(w.down), w.hist, hist', h.v2, ToClient);
    AppendLog(w.down, e, hist', h.v2, ToClient);
    AppendAcceptedDown(w.down, e, w.downAcc);
    AppendAcks(w.down, e, w.hist, hist', true, h.epoch + 1);
    if c.reading {
      AppendReceiver(c.rx, c.epoch, w.hist, ToClient, w.down, e, |w.downAcc|);
      MoreHistoryReceiver(c.rx, c.epoch, w.hist, hist', ToClient, Frames(w.down + [e]), |w.downAcc|);
    }
  }

  lemma RekeyOpens(w: World, p: nat, j: nat)
    requires Core(w, p) && HostNext(w, p, j) && w.up[j].frame.ty == Rekey
    requires OpenChecked(w.host.v2, w.host.rx, w.up[j].frame).Some?
    ensures w.client.epoch == w.host.epoch < 255 && w.host.v2
    ensures Offer(w.client).Some? && FreshEph(Offer(w.client).value, w.nextEph)
    ensures OpenChecked(w.host.v2, w.host.rx, w.up[j].frame).value.0 == PublicKey(Offer(w.client).value)
  {
    RekeyTaken(w, p, j);
    OpenAt(w.host.v2, w.host.rx, w.host.epoch, w.hist, ToHost, Frames(w.up), p, j);
  }

  // The host answered a REKEY and moved to the next epoch.
  lemma HostSwitches(w: World, p: nat, j: nat, rx: Rx, w': World)
    requires Core(w, p) && w.host.reading && w.host.alive && HostNext(w, p, j) && w.up[j].frame.ty == Rekey
    requires OpenChecked(w.host.v2, w.host.rx, w.up[j].frame).Some? && Offer(w.client).Some?
    requires rx == OpenChecked(w.host.v2, w.host.rx, w.up[j].frame).value.1
    requires var eph := Honest(w.nextEph);
             w' == w.(host := Switched(w.host, rx, eph, Offer(w.client).value),
                      upAcc := w.upAcc + [w.up[j].frame], nextEph := w.nextEph + 1,
                      down := w.down + [Entry(HostFrame(w.host, RekeyAck, PublicKey(eph)), true)],
                      hist := w.hist + [Pair(Offer(w.client).value, eph)])
    ensures Core(w', j + 1)
  {
    hide History, Log, Sender, Receiver, AckSeen, Control, Rekeys, Acks, AcceptedUp, AcceptedDown, OpenChecked;
    var h, eph, peer := w.host, Honest(w.nextEph), Offer(w.client).value;
    RekeyOpens(w, p, j);
    AcceptUp(w, p, j);
    HistoryGrows(w.hist, w.nextEph, h.v2, h.epoch, peer);
    HostSwitchesKeys(w, p, j, rx, eph);
    RekeysAfterAck(w, p, j);
    HostSwitchesLog(w, p, Pair(peer, eph));
  }

  // The host sealed an ack but could not write it.
  lemma HostFailsAck(w: World, p: nat, eph: Eph)
    requires Core(w, p) && w.host.alive && w.host.v2
    ensures Core(w.(host := w.host.(alive := false), nextEph := w.nextEph + 1,
                    down := w.down + [Entry(HostFrame(w.host, RekeyAck, PublicKey(eph)), false)]), p)
  {
    hide History, Log, Sender, Receiver, AckSeen, Control, Rekeys, Acks, AcceptedUp, AcceptedDown;
    var h := w.host;
    var e := Entry(HostFrame(h, RekeyAck, PublicKey(eph)), false);
    HostSeals(w, p, e);
    SenderStops(h.tx, h.epoch, Next(h.txCounter), h.txCounter, false, w.hist, ToClient, Frames(w.down + [e]));
    AppendAcks(w.down, e, w.hist, w.hist, false, h.epoch);
    HistoryLater(w.hist, w.nextEph, w.nextEph + 1, h.v2, w.client.epoch, h.epoch);
    ControlLater(w.client, h.epoch, w.hist, Frames(w.up), w.nextEph);
  }

  lemma ControlLater(c: Client, he: nat, hist: seq<Pair>, up: seq<Frame>, n: nat)
    requires Control(c, he, hist, up, n)
    ensures Control(c, he, hist, up, n + 1)
  {
  }

  lemma HostReceiveCore(w: World, p: nat, a: Action, j: nat)
    requires Core(w, p) && a.HostReceive? && Enabled(w, a)
    requires HostReceived(w.host, a.f, Honest(w.nextEph), a.ok).1 ==> HostNext(w, p, j) && w.up[j].frame == a.f
    ensures Core(Step(w, a), if HostReceived(w.host, a.f, Honest(w.nextEph), a.ok).1 then j + 1 else p)
  {
    hide Core;
    var h, o := w.host, OpenChecked(w.host.v2, w.host.rx, a.f);
    if !HostReceived(h, a.f, Honest(w.nextEph), a.ok).1 {
      StopReading(w, p);
      assert Step(w, a) == w || Step(w, a) == w.(host := h.(reading := false));
    } else if a.f.ty != Rekey {
      HostTakes(w, p, j, o.value.1, true);
    } else if !HostAcks(h, a.f) {
      HostTakes(w, p, j, o.value.1, false);
    } else if a.ok {
      RekeyOpens(w, p, j);
      HostSwitches(w, p, j, o.value.1, Step(w, a));
    } else {
      HostTakes(w, p, j, o.value.1, false);
      var w1 := w.(host := h.(rx := o.value.1, reading := false), upAcc := w.upAcc + [a.f]);
      HostFailsAck(w1, j + 1, Honest(w.nextEph));
    }
  }
}
