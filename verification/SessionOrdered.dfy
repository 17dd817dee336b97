/**
  The session over two ordered, loss-free byte streams: a write appends to a queue, a read takes its
  head. No honest frame is ever refused, through any number of rotations and any interleaving of
  the threads of both ends.
*/
module SessionOrdered {
  import opened Options
  import opened Endpoints
  import opened Session
  import opened SessionSteps

  datatype Link = Link(w: World, up: seq<Frame>, down: seq<Frame>)

  datatype Move = Do(a: Action) | DeliverUp | DeliverDown | PeerPing

  const PING := Frame(Ping, 0, 0, Clear)
  const PONG := Frame(Pong, 0, 0, Clear)

  predicate Possible(s: Link, m: Move) {
    match m
    case Do(a) =>
      && Enabled(s.w, a) && Sendable(a) && !a.ClientReceive? && !a.HostReceive?
      && (a.ClientSend? || a.ClientOffer? || a.HostSend? || a.HostPing? ==> a.ok)
    case DeliverUp => s.w.host.reading && s.up != []
    case DeliverDown => s.w.client.reading && s.w.client.switching.None? && s.down != []
    case PeerPing => true
  }

  function After(s: Link, m: Move): Link
    requires Possible(s, m)
  {
    match m
    case Do(a) =>
      var w := Step(s.w, a);
      Link(w, s.up + Sealing(s.w.up, w.up), s.down + Sealing(s.w.down, w.down) + if a.HostPing? then [PING] else [])
    case DeliverUp =>
      var w := Step(s.w, HostReceive(s.up[0], true));
      Link(w, s.up[1..], s.down + Sealing(s.w.down, w.down) + if s.up[0].ty == Ping then [PONG] else [])
    case DeliverDown =>
      Link(Step(s.w, ClientReceive(s.down[0])), s.up, s.down[1..])
    case PeerPing => s.(up := s.up + [PING])
  }

  // The frames sealed since.
  function Sealing(was: seq<Entry>, now: seq<Entry>): seq<Frame> {
    if |was| < |now| then Frames(now[|was|..]) else []
  }

  ghost predicate Run(ss: seq<Link>, ms: seq<Move>) {
    && |ss| == |ms| + 1
    && forall i :: 0 <= i < |ms| ==> Possible(ss[i], ms[i]) && ss[i + 1] == After(ss[i], ms[i])
  }

  // ---- the invariant ---------------------------------------------------------

  ghost function SealedOf(q: seq<Frame>): seq<Frame> {
    if q == [] then []
    else if q[0].body.Sealed? then [q[0]] + SealedOf(q[1..])
    else SealedOf(q[1..])
  }

  lemma SealedAppend(q: seq<Frame>, r: seq<Frame>)
    ensures SealedOf(q + r) == SealedOf(q) + SealedOf(r)
  {
    if q == [] {
      assert q + r == r;
    } else {
      assert (q + r)[1..] == q[1..] + r;
      SealedAppend(q[1..], r);
    }
  }

  ghost predicate Clean(log: seq<Entry>, types: set<FrameType>) {
    forall i :: 0 <= i < |log| ==> log[i].written && log[i].frame.ty in types
  }

  // A queue holds exactly the frames its reader has not accepted yet, and cleartext probes.
  ghost predicate Carries(q: seq<Frame>, log: seq<Entry>, p: nat) {
    && p <= |log|
    && SealedOf(q) == Frames(log)[p..]
    && forall i :: 0 <= i < |q| ==> !q[i].body.Sealed? ==> q[i].ty in {Ping, Pong}
  }

  const UP_TYPES := {Request, StreamChunk, Rekey}
  const DOWN_TYPES := {Response, StreamChunk, Error, RekeyAck}

  // The host has accepted everything up to its position, and the queues hold the rest.
  ghost predicate Queues(s: Link) {
    && s.w.upAcc <= Frames(s.w.up)
    && Clean(s.w.up, UP_TYPES) && Clean(s.w.down, DOWN_TYPES)
    && Carries(s.up, s.w.up, |s.w.upAcc|) && Carries(s.down, s.w.down, |s.w.downAcc|)
    && (s.w.host.reading ==> s.w.host.alive)
  }

  ghost predicate LinkInv(s: Link) {
    Core(s.w, |s.w.upAcc|) && Queues(s)
  }

  // ---- the next frame opens --------------------------------------------------

  lemma HostOpensNext(w: World, p: nat)
    requires Core(w, p) && p < |w.up|
    ensures OpenChecked(w.host.v2, w.host.rx, w.up[p].frame).Some?
    ensures w.up[p].frame.epoch <= w.client.epoch
  {
    hide AckSeen, Control, Rekeys, Acks, AcceptedDown;
    var fs := Frames(w.up);
    assert fs[p] == w.up[p].frame && Proper(fs[p], w.hist, w.host.v2, ToHost) && Follows(fs, p);
    EpochsAscend(fs, p, |fs| - 1);
    if p > 0 { assert fs[p - 1] == w.up[p - 1].frame; }
  }

  lemma ClientOpensNext(w: World, p: nat)
    requires Core(w, p) && w.client.reading && w.client.switching.None?
    requires |w.downAcc| < |w.down|
    ensures OpenChecked(w.client.v2, w.client.rx, w.down[|w.downAcc|].frame).Some?
  {
    hide Sender, Control, Rekeys, AcceptedUp, AcceptedDown;
    var fs, q := Frames(w.down), |w.downAcc|;
    assert fs[q] == w.down[q].frame && Proper(fs[q], w.hist, w.host.v2, ToClient) && Follows(fs, q);
    if q > 0 { assert AckFacts(w.down, w.hist, q - 1) && fs[q - 1] == w.down[q - 1].frame; }
  }

  // The head of a queue is the frame its reader accepts next.
  lemma Head(q: seq<Frame>, log: seq<Entry>, p: nat)
    requires Carries(q, log, p) && q != []
    ensures q[0].body.Sealed? ==> p < |log| && log[p].frame == q[0] && Carries(q[1..], log, p + 1)
    ensures !q[0].body.Sealed? ==> q[0].ty in {Ping, Pong} && Carries(q[1..], log, p)
  {
    if q[0].body.Sealed? {
      assert SealedOf(q)[0] == q[0];
      assert Frames(log)[p..][1..] == Frames(log)[p + 1..];
    }
  }

  lemma EnqueueProbe(q: seq<Frame>, log: seq<Entry>, p: nat, f: Frame)
    requires Carries(q, log, p) && (f == PING || f == PONG)
    ensures Carries(q + [f], log, p)
  {
    SealedAppend(q, [f]);
  }

  lemma EnqueueSealed(q: seq<Frame>, log: seq<Entry>, p: nat, e: Entry)
    requires Carries(q, log, p) && e.frame.body.Sealed?
    ensures Carries(q + Sealing(log, log + [e]), log + [e], p)
  {
    assert (log + [e])[|log|..] == [e];
    assert Frames([e]) == [e.frame];
    SealedAppend(q, [e.frame]);
    assert Frames(log + [e])[p..] == Frames(log)[p..] + [e.frame];
  }

  lemma EnqueueNothing(q: seq<Frame>, log: seq<Entry>)
    ensures q + Sealing(log, log) == q && q + [] == q
  {
  }

  lemma CleanAppend(log: seq<Entry>, e: Entry, types: set<FrameType>)
    requires Clean(log, types) && e.written && e.frame.ty in types
    ensures Clean(log + [e], types)
  {
  }

  // ---- every move keeps the invariant ----------------------------------------

  lemma DoCore(w: World, p: nat, a: Action)
    requires Core(w, p) && Enabled(w, a) && Sendable(a) && !a.ClientReceive? && !a.HostReceive?
    ensures Core(Step(w, a), p)
  {
    match a
    case ClientSend(_, _, _) => ClientSendCore(w, p, a);
    case ClientOffer(_) => ClientOfferCore(w, p, a);
    case ClientStore => ClientStoreCore(w, p, a);
    case ClientSwitch => ClientSwitchCore(w, p, a);
    case HostSend(_, _, _) => HostSendCore(w, p, a);
    case HostPing(_) => HostQuietCore(w, p, a);
    case HostClose => HostQuietCore(w, p, a);
  }

  lemma DoQueues(s: Link, m: Move)
    requires Queues(s) && Possible(s, m) && m.Do?
    ensures Queues(After(s, m))
  {
    var w, a := s.w, m.a;
    EnqueueNothing(s.up, w.up);
    EnqueueNothing(s.down, w.down);
    if a.ClientSend? || a.ClientOffer? {
      var e := Step(w, a).up[|w.up|];
      EnqueueSealed(s.up, w.up, |w.upAcc|, e);
      CleanAppend(w.up, e, UP_TYPES);
      FramesAppend(w.up, e);
      EnqueueNothing(s.down + Sealing(w.down, w.down), w.down);
    } else if a.HostSend? {
      var e := Step(w, a).down[|w.down|];
      EnqueueSealed(s.down, w.down, |w.downAcc|, e);
      CleanAppend(w.down, e, DOWN_TYPES);
      EnqueueNothing(s.down + Sealing(w.down, w.down + [e]), w.down);
    } else if a.HostPing? {
      EnqueueProbe(s.down, w.down, |w.downAcc|, PING);
    }
  }

  // The head of the host's queue is a probe, or a frame that opens; a REKEY gets answered.
  lemma HostHead(s: Link)
    requires LinkInv(s) && Possible(s, DeliverUp)
    ensures var f, h := s.up[0], s.w.host;
            if f.body.Sealed? then
              && f.ty in UP_TYPES && OpenChecked(h.v2, h.rx, f).Some? && (f.ty == Rekey ==> HostAcks(h, f))
              && HostNext(s.w, |s.w.upAcc|, |s.w.upAcc|) && s.w.up[|s.w.upAcc|].frame == f
            else f.ty in {Ping, Pong}
  {
    var w, f, p := s.w, s.up[0], |s.w.upAcc|;
    Head(s.up, w.up, p);
    if f.body.Sealed? {
      assert w.up[p].written && f.ty in UP_TYPES;
      HostOpensNext(w, p);
      if f.ty == Rekey {
        OpenAt(w.host.v2, w.host.rx, w.host.epoch, w.hist, ToHost, Frames(w.up), p, p);
        RekeyTaken(w, p, p);
      }
    }
  }

  // What reading such a head does.
  lemma HostReads(w: World, f: Frame)
    requires w.host.reading && w.host.alive
    requires if f.body.Sealed? then f.ty in UP_TYPES && OpenChecked(w.host.v2, w.host.rx, f).Some? && (f.ty == Rekey ==> HostAcks(w.host, f))
             else f.ty in {Ping, Pong}
    ensures HostReceived(w.host, f, Honest(w.nextEph), true).1 <==> f.body.Sealed?
    ensures var w' := Step(w, HostReceive(f, true));
            && w'.host.reading && w'.host.alive
            && w'.upAcc == (if f.body.Sealed? then w.upAcc + [f] else w.upAcc)
            && w'.up == w.up && w'.downAcc == w.downAcc
            && w'.down == (if f.ty == Rekey then w.down + [Entry(HostFrame(w.host, RekeyAck, PublicKey(Honest(w.nextEph))), true)] else w.down)
  {
  }

  lemma DeliverUpCore(s: Link)
    requires LinkInv(s) && Possible(s, DeliverUp)
    ensures Core(After(s, DeliverUp).w, |After(s, DeliverUp).w.upAcc|)
  {
    hide Core, HostReceived, OpenChecked, HostAcks, Carries, Clean;
    HostHead(s);
    HostReads(s.w, s.up[0]);
    HostReceiveCore(s.w, |s.w.upAcc|, HostReceive(s.up[0], true), |s.w.upAcc|);
  }

  lemma Advance(fs: seq<Frame>, acc: seq<Frame>, f: Frame)
    requires acc <= fs && |acc| < |fs| && fs[|acc|] == f
    ensures acc + [f] <= fs
  {
  }

  // What joins the client's queue: an ack, a pong, or nothing.
  lemma Replies(q: seq<Frame>, log: seq<Entry>, p: nat, e: Entry)
    requires Carries(q, log, p) && Clean(log, DOWN_TYPES) && e.written && e.frame.ty == RekeyAck && e.frame.body.Sealed?
    ensures Carries(q + Sealing(log, log + [e]) + [], log + [e], p) && Clean(log + [e], DOWN_TYPES)
    ensures Carries(q + Sealing(log, log) + [PONG], log, p) && Carries(q + Sealing(log, log) + [], log, p)
  {
    EnqueueNothing(q, log);
    EnqueueSealed(q, log, p, e);
    CleanAppend(log, e, DOWN_TYPES);
    EnqueueNothing(q + Sealing(log, log + [e]), log);
    EnqueueProbe(q, log, p, PONG);
  }

  lemma DeliverUpQueues(s: Link)
    requires LinkInv(s) && Possible(s, DeliverUp)
    ensures Queues(After(s, DeliverUp))
  {
    hide Core, HostReceived, OpenChecked, HostAcks, Step, Clean, Sealing;
    var w, f, q := s.w, s.up[0], |s.w.downAcc|;
    HostHead(s);
    HostReads(w, f);
    Head(s.up, w.up, |w.upAcc|);
    Replies(s.down, w.down, q, Entry(HostFrame(w.host, RekeyAck, PublicKey(Honest(w.nextEph))), true));
    if f.body.Sealed? { Advance(Frames(w.up), w.upAcc, f); }
    hide Carries, Frames, HostFrame;
  }

  // The head of the client's queue is a probe, or a frame that opens; an ack answers an offer.
  lemma ClientHead(s: Link)
    requires LinkInv(s) && Possible(s, DeliverDown)
    ensures var f, c, q := s.down[0], s.w.client, |s.w.downAcc|;
            if f.body.Sealed? then
              && f.ty in DOWN_TYPES && OpenChecked(c.v2, c.rx, f).Some?
              && q < |s.w.down| && s.w.down[q] == Entry(f, true)
              && (f.ty == RekeyAck ==>
                    OpenChecked(c.v2, c.rx, f).value.0.PublicKey? && (c.offering.Some? <==> c.pendingEph.None?))
            else f.ty in {Ping, Pong}
  {
    var w, f, q := s.w, s.down[0], |s.w.downAcc|;
    Head(s.down, w.down, q);
    if f.body.Sealed? {
      assert w.down[q].written && f.ty in DOWN_TYPES;
      ClientOpensNext(w, |w.upAcc|);
      ClientOpens(w, |w.upAcc|);
    }
  }

  // What reading such a head does.
  lemma ClientReads(w: World, f: Frame)
    requires w.client.reading && w.client.switching.None?
    requires if f.body.Sealed? then
               && f.ty in DOWN_TYPES && OpenChecked(w.client.v2, w.client.rx, f).Some?
               && (f.ty == RekeyAck ==>
                     && OpenChecked(w.client.v2, w.client.rx, f).value.0.PublicKey?
                     && (w.client.offering.Some? <==> w.client.pendingEph.None?))
             else f.ty in {Ping, Pong}
    ensures ClientReceived(w.client, f).1 <==> f.body.Sealed?
    ensures var w' := Step(w, ClientReceive(f));
            && w' == w.(client := w'.client, downAcc := w'.downAcc)
            && w'.downAcc == (if f.body.Sealed? then w.downAcc + [f] else w.downAcc)
            && (w'.client.reading <==> !(f.ty == Error || (f.ty == RekeyAck && w.client.offering.Some?)))
  {
  }

  lemma DeliverDownInv(s: Link)
    requires LinkInv(s) && Possible(s, DeliverDown)
    ensures LinkInv(After(s, DeliverDown))
    ensures After(s, DeliverDown).w.client.reading <==>
              !(s.down[0].ty == Error || (s.down[0].ty == RekeyAck && s.w.client.offering.Some?))
  {
    hide Core, ClientReceived, OpenChecked, Carries, Clean, Frames;
    ClientHead(s);
    ClientReads(s.w, s.down[0]);
    Head(s.down, s.w.down, |s.w.downAcc|);
    ClientReceiveCore(s.w, |s.w.upAcc|, ClientReceive(s.down[0]));
  }

  lemma MoveInv(s: Link, m: Move)
    requires LinkInv(s) && Possible(s, m)
    ensures LinkInv(After(s, m))
  {
    match m
    case Do(a) =>
      DoCore(s.w, |s.w.upAcc|, a);
      DoQueues(s, m);
    case DeliverUp =>
      DeliverUpCore(s);
      DeliverUpQueues(s);
    case DeliverDown => DeliverDownInv(s);
    case PeerPing => EnqueueProbe(s.up, s.w.up, |s.w.upAcc|, PING);
  }

  lemma {:induction false} RunInv(ss: seq<Link>, ms: seq<Move>, v2: bool)
    requires Run(ss, ms) && ss[0] == Link(Established(v2), [], [])
    ensures LinkInv(ss[|ms|])
  {
    if |ms| == 0 {
      EstablishedCore(v2);
    } else {
      var n := |ms| - 1;
      RunInv(ss[..n + 1], ms[..n], v2);
      MoveInv(ss[n], ms[n]);
    }
  }

  // ---- the theorems ----------------------------------------------------------

  /**
    No honest frame is dropped. At any point of any run the next sealed frame of each queue passes
    its reader's `open_checked`; the host always goes on reading; the client goes on reading unless
    the host said why it closes, or the ack overtakes the store of the ephemeral it answers - the
    window between the write of a REKEY and the store into `pending_eph`.
  */
  lemma NoFrameDropped(ss: seq<Link>, ms: seq<Move>, v2: bool)
    requires Run(ss, ms) && ss[0] == Link(Established(v2), [], [])
    ensures var s := ss[|ms|];
            && (Possible(s, DeliverUp) ==>
                  && (s.up[0].body.Sealed? ==> OpenChecked(s.w.host.v2, s.w.host.rx, s.up[0]).Some?)
                  && After(s, DeliverUp).w.host.reading)
            && (Possible(s, DeliverDown) ==>
                  && (s.down[0].body.Sealed? ==> OpenChecked(s.w.client.v2, s.w.client.rx, s.down[0]).Some?)
                  && (After(s, DeliverDown).w.client.reading <==>
                        !(s.down[0].ty == Error || (s.down[0].ty == RekeyAck && s.w.client.offering.Some?))))
  {
    RunInv(ss, ms, v2);
    var s := ss[|ms|];
    if Possible(s, DeliverUp) { HostHead(s); HostReads(s.w, s.up[0]); }
    if Possible(s, DeliverDown) { ClientHead(s); DeliverDownInv(s); }
  }

  lemma AcceptedFirst(w: World, p: nat)
    requires Core(w, p)
    ensures w.downAcc <= Frames(w.down)
  {
  }

  lemma QueueIsRest(q: seq<Frame>, log: seq<Entry>, acc: seq<Frame>)
    requires acc <= Frames(log) && Carries(q, log, |acc|)
    ensures acc + SealedOf(q) == Frames(log)
  {
    assert Frames(log)[..|acc|] + Frames(log)[|acc|..] == Frames(log);
  }

  /** What was accepted followed by what is in flight is what was sent, in both directions. */
  lemma NothingLost(ss: seq<Link>, ms: seq<Move>, v2: bool)
    requires Run(ss, ms) && ss[0] == Link(Established(v2), [], [])
    ensures var s := ss[|ms|];
            && s.w.upAcc + SealedOf(s.up) == Frames(s.w.up)
            && s.w.downAcc + SealedOf(s.down) == Frames(s.w.down)
  {
    RunInv(ss, ms, v2);
    var s := ss[|ms|];
    AcceptedFirst(s.w, |s.w.upAcc|);
    hide Core, Run, Carries, Clean, SealedOf;
    QueueIsRest(s.up, s.w.up, s.w.upAcc);
    QueueIsRest(s.down, s.w.down, s.w.downAcc);
  }

  // The receiver still holds, or will hold, the key this frame was sealed under.
  ghost predicate Holds(rx: Rx, f: Frame) {
    f.body.Sealed? &&
    (if f.epoch == rx.epoch then f.body.box.key == rx.key
     else f.epoch == rx.epoch + 1 && rx.pending == Some(f.body.box.key))
  }

  lemma AscendingRest(fs: seq<Frame>, p: nat)
    requires Numbered(fs) && p <= |fs|
    ensures Ascending(fs[p..])
  {
    var gs := fs[p..];
    forall i, j | 0 <= i <= j < |gs| ensures gs[i].epoch <= gs[j].epoch { EpochsAscend(fs, p + i, p + j); }
  }

  lemma HostHolds(w: World, p: nat, i: nat)
    requires Core(w, p) && p <= i < |w.up|
    ensures Holds(w.host.rx, w.up[i].frame)
  {
    var fs := Frames(w.up);
    assert fs[i] == w.up[i].frame && Proper(fs[i], w.hist, w.host.v2, ToHost);
    EpochsAscend(fs, i, |fs| - 1);
    if p > 0 { EpochsAscend(fs, p - 1, i); }
  }

  // A frame towards the client is of its epoch or the next, sealed under the key of that epoch, which
  // is none the client has wiped.
  ghost predicate InFlight(c: Client, hist: seq<Pair>, f: Frame) {
    && c.epoch <= f.epoch <= c.epoch + 1 && f.epoch < |hist| && f.body.Sealed?
    && f.body.box.key == KeyAt(hist, f.epoch, ToClient)
    && forall k :: 0 <= k < c.rx.epoch && k < |hist| ==> f.body.box.key != KeyAt(hist, k, ToClient)
  }

  // A client that still reads has that key - its receive key, the pending one, or the one it is about
  // to switch to - or will derive it from its outstanding offer.
  ghost predicate Expected(c: Client, hist: seq<Pair>, f: Frame) {
    f.body.Sealed? &&
    var key := f.body.box.key;
    if f.epoch == c.rx.epoch then key == c.rx.key
    else if f.epoch == c.epoch then c.rx.pending == Some(key)
    else if c.switching.Some? then key == c.switching.value.rx
    else c.epoch + 1 < |hist| && Offer(c) == Some(hist[c.epoch + 1].client)
  }

  // Nothing behind the client's epoch waits for it, even when it has given up reading.
  ghost predicate Ahead(w: World) {
    && w.client.rx.epoch <= w.client.epoch
    && forall i :: |w.downAcc| <= i < |w.down| ==> w.client.epoch <= w.down[i].frame.epoch
  }

  lemma ReadingIsAhead(w: World, p: nat)
    requires Core(w, p) && w.client.reading
    ensures Ahead(w)
  {
    hide History, Sender, Rekeys, AcceptedUp, Proper;
    var fs, q := Frames(w.down), |w.downAcc|;
    forall i | q <= i < |fs| ensures w.client.epoch <= fs[i].epoch {
      if q > 0 {
        EpochsAscend(fs, q, i);
        assert AckFacts(w.down, w.hist, q - 1) && fs[q - 1] == w.down[q - 1].frame && fs[q] == w.down[q].frame;
      }
    }
  }

  // What a client that does not read any more can still see change: more frames of the host.
  ghost predicate Stopped(w: World, w': World) {
    && !w'.client.reading
    && w'.client.epoch == w.client.epoch && w'.client.rx.epoch <= w.client.epoch
    && |w.downAcc| <= |w'.downAcc|
    && (w'.down == w.down || (|w'.down| == |w.down| + 1 && w'.down[..|w.down|] == w.down
                              && w'.down[|w.down|].frame.epoch == w.host.epoch))
  }

  lemma StoppedIsAhead(w: World, w': World)
    requires Ahead(w) && Stopped(w, w') && w.client.epoch <= w.host.epoch
    ensures Ahead(w')
  {
    forall i | |w'.downAcc| <= i < |w'.down| ensures w'.client.epoch <= w'.down[i].frame.epoch {
      if i < |w.down| { assert w'.down[i] == w'.down[..|w.down|][i]; }
    }
  }

  // The receive epoch after any step of a client that does not read after it.
  lemma StepStops(w: World, p: nat, a: Action)
    requires Core(w, p) && Enabled(w, a) && Ahead(w) && !Step(w, a).client.reading
    ensures Stopped(w, Step(w, a)) && w.client.epoch <= w.host.epoch
  {
    hide Core, Ahead, OpenChecked, ClientReceived, HostReceived;
    StaysStill(w, p);
    if a.ClientReceive? { ReceiveStops(w, a.f); }
    else if a.HostReceive? { HostReadStops(w, a); }
    else if a.HostSend? { HostSendStops(w, a); }
  }

  lemma HostReadStops(w: World, a: Action)
    requires a.HostReceive? && Enabled(w, a) && !w.client.reading && w.client.rx.epoch <= w.client.epoch
    ensures Stopped(w, Step(w, a))
  {
    hide OpenChecked, HostReceived;
    var e := Entry(HostFrame(w.host, RekeyAck, PublicKey(Honest(w.nextEph))), a.ok);
    assert (w.down + [e])[..|w.down|] == w.down;
  }

  lemma HostSendStops(w: World, a: Action)
    requires a.HostSend? && Enabled(w, a) && !w.client.reading && w.client.rx.epoch <= w.client.epoch
    ensures Stopped(w, Step(w, a))
  {
    var e := Entry(HostFrame(w.host, a.ty, a.plain), a.ok);
    assert (w.down + [e])[..|w.down|] == w.down;
  }

  lemma StaysStill(w: World, p: nat)
    requires Core(w, p)
    ensures w.client.epoch <= w.host.epoch < EPOCHS
    ensures !w.client.reading ==> w.client.switching.None?
    ensures w.client.reading && w.client.rx.pending.Some? ==> w.client.rx.epoch < w.client.epoch
    ensures Ahead(w) ==> w.client.rx.epoch <= w.client.epoch
  {
  }

  lemma ReceiveStops(w: World, f: Frame)
    requires w.client.reading && w.client.rx.epoch <= w.client.epoch < EPOCHS
    requires w.client.rx.pending.Some? ==> w.client.rx.epoch < w.client.epoch
    ensures ClientReceived(w.client, f).0.rx.epoch <= w.client.epoch
    ensures ClientReceived(w.client, f).0.epoch == w.client.epoch
  {
  }

  lemma {:induction false} RunAhead(ss: seq<Link>, ms: seq<Move>, v2: bool)
    requires Run(ss, ms) && ss[0] == Link(Established(v2), [], [])
    ensures LinkInv(ss[|ms|]) && Ahead(ss[|ms|].w)
  {
    RunInv(ss, ms, v2);
    var s := ss[|ms|];
    if s.w.client.reading {
      ReadingIsAhead(s.w, |s.w.upAcc|);
    } else {
      var n := |ms| - 1;
      RunAhead(ss[..n + 1], ms[..n], v2);
      MoveAhead(ss[n], ms[n]);
    }
  }

  ghost function ActionOf(s: Link, m: Move): (a: Action)
    requires Possible(s, m) && m != PeerPing
    ensures Enabled(s.w, a) && After(s, m).w == Step(s.w, a)
  {
    match m
    case Do(a) => a
    case DeliverUp => HostReceive(s.up[0], true)
    case DeliverDown => ClientReceive(s.down[0])
  }

  lemma MoveAhead(s: Link, m: Move)
    requires LinkInv(s) && Possible(s, m) && Ahead(s.w) && !After(s, m).w.client.reading
    ensures Ahead(After(s, m).w)
  {
    hide Core, Queues, Ahead, Stopped, Step, Enabled, Sendable;
    if m != PeerPing {
      var a := ActionOf(s, m);
      hide After;
      StepStops(s.w, |s.w.upAcc|, a);
      StoppedIsAhead(s.w, Step(s.w, a));
    }
  }

  lemma ClientInFlight(w: World, p: nat, i: nat)
    requires Core(w, p) && Ahead(w) && |w.downAcc| <= i < |w.down|
    ensures InFlight(w.client, w.hist, w.down[i].frame)
  {
    var fs := Frames(w.down);
    assert fs[i] == w.down[i].frame && Proper(fs[i], w.hist, w.host.v2, ToClient);
    assert History(w.hist, w.nextEph, w.host.v2, w.client.epoch, w.host.epoch);
    hide Log, Sender, Receiver, AckSeen, Control, Rekeys, Acks, AcceptedUp, AcceptedDown;
  }

  lemma ClientExpects(w: World, p: nat, i: nat)
    requires Core(w, p) && Ahead(w) && w.client.reading && |w.downAcc| <= i < |w.down|
    ensures Expected(w.client, w.hist, w.down[i].frame)
  {
    var fs := Frames(w.down);
    hide Sender, Rekeys, Acks, AcceptedUp, AcceptedDown;
    assert fs[i] == w.down[i].frame && Proper(fs[i], w.hist, w.host.v2, ToClient);
    hide Log, AckSeen;
  }

  lemma UpKeysInFlight(s: Link, i: nat)
    requires LinkInv(s)
    ensures i < |SealedOf(s.up)| ==> Holds(s.w.host.rx, SealedOf(s.up)[i])
  {
    var p := |s.w.upAcc|;
    hide Core, Holds, SealedOf, Clean;
    if i < |SealedOf(s.up)| {
      assert SealedOf(s.up)[i] == s.w.up[p + i].frame;
      HostHolds(s.w, p, p + i);
    }
  }

  lemma DownKeysInFlight(s: Link, i: nat)
    requires LinkInv(s) && Ahead(s.w) && i < |SealedOf(s.down)|
    ensures InFlight(s.w.client, s.w.hist, SealedOf(s.down)[i])
    ensures s.w.client.reading ==> Expected(s.w.client, s.w.hist, SealedOf(s.down)[i])
  {
    var q := |s.w.downAcc|;
    hide Core, InFlight, Expected, Ahead, SealedOf, Clean;
    assert SealedOf(s.down)[i] == s.w.down[q + i].frame;
    ClientInFlight(s.w, |s.w.upAcc|, q + i);
    if s.w.client.reading { ClientExpects(s.w, |s.w.upAcc|, q + i); }
  }

  // What this says about epochs.
  lemma TwoEpochs(s: Link)
    requires LinkInv(s) && Ahead(s.w)
    ensures forall i :: 0 <= i < |SealedOf(s.up)| ==> s.w.host.rx.epoch <= SealedOf(s.up)[i].epoch <= s.w.host.rx.epoch + 1
    ensures forall i :: 0 <= i < |SealedOf(s.down)| ==> s.w.client.epoch <= SealedOf(s.down)[i].epoch <= s.w.client.epoch + 1
  {
    hide LinkInv, SealedOf, KeyAt, Expected, Ahead;
    forall i: nat | i < |SealedOf(s.up)|
      ensures s.w.host.rx.epoch <= SealedOf(s.up)[i].epoch <= s.w.host.rx.epoch + 1
    {
      UpKeysInFlight(s, i);
    }
    forall i: nat | i < |SealedOf(s.down)| ensures s.w.client.epoch <= SealedOf(s.down)[i].epoch <= s.w.client.epoch + 1 {
      DownKeysInFlight(s, i);
    }
  }

  lemma QueuesAscend(s: Link)
    requires LinkInv(s)
    ensures Ascending(SealedOf(s.up)) && Ascending(SealedOf(s.down))
  {
    hide SealedOf, Clean;
    AscendingRest(Frames(s.w.up), |s.w.upAcc|);
    AscendingRest(Frames(s.w.down), |s.w.downAcc|);
    hide Numbered, Ascending;
  }

  // A REKEY at the head of the host's queue finds no pending key.
  lemma NeverOverwritten(s: Link)
    requires LinkInv(s) && Possible(s, DeliverUp) && s.up[0].ty == Rekey
    ensures var h := s.w.host;
            && OpenChecked(h.v2, h.rx, s.up[0]).Some?
            && OpenChecked(h.v2, h.rx, s.up[0]).value.1.pending.None? && h.epoch < 255
  {
    HostHead(s);
    RekeyTaken(s.w, |s.w.upAcc|, |s.w.upAcc|);
    hide Core, OpenChecked, Queues;
  }

  /**
    Epochs: the ends differ by at most one and the 8-bit epoch never wraps; each queue holds at most
    two epochs, in order; a pending receive key is never overwritten.
  */
  lemma EpochWindows(ss: seq<Link>, ms: seq<Move>, v2: bool)
    requires Run(ss, ms) && ss[0] == Link(Established(v2), [], [])
    ensures var s := ss[|ms|];
            var c, h := s.w.client, s.w.host;
            && c.epoch <= h.epoch <= c.epoch + 1 && h.epoch < EPOCHS && |s.w.hist| == h.epoch + 1
            && Ascending(SealedOf(s.up)) && Ascending(SealedOf(s.down))
            && (forall i :: 0 <= i < |SealedOf(s.up)| ==> h.rx.epoch <= SealedOf(s.up)[i].epoch <= h.rx.epoch + 1)
            && (forall i :: 0 <= i < |SealedOf(s.down)| ==> c.epoch <= SealedOf(s.down)[i].epoch <= c.epoch + 1)
            && (c.switching.Some? ==> c.rx.pending.None? && c.epoch < 255)
            && (Possible(s, DeliverUp) && s.up[0].ty == Rekey ==>
                  && OpenChecked(h.v2, h.rx, s.up[0]).Some?
                  && OpenChecked(h.v2, h.rx, s.up[0]).value.1.pending.None? && h.epoch < 255)
  {
    RunAhead(ss, ms, v2);
    var s := ss[|ms|];
    QueuesAscend(s);
    TwoEpochs(s);
    if Possible(s, DeliverUp) && s.up[0].ty == Rekey { NeverOverwritten(s); }
    hide Run, SealedOf, Ascending, OpenChecked, Ahead, Queues, Log, Sender, Receiver, AckSeen, Rekeys, Acks, AcceptedUp, AcceptedDown;
  }

  /**
    Every frame in flight was sealed under a key that its receiver has, or will derive from the offer
    it has made; none under a key it has wiped. What a client that gave up leaves in its queue is of
    its epoch or the next.
  */
  lemma KeysInFlight(ss: seq<Link>, ms: seq<Move>, v2: bool, i: nat)
    requires Run(ss, ms) && ss[0] == Link(Established(v2), [], [])
    ensures var s := ss[|ms|];
            && (i < |SealedOf(s.up)| ==> Holds(s.w.host.rx, SealedOf(s.up)[i]))
            && (i < |SealedOf(s.down)| ==>
                  && InFlight(s.w.client, s.w.hist, SealedOf(s.down)[i])
                  && (s.w.client.reading ==> Expected(s.w.client, s.w.hist, SealedOf(s.down)[i])))
  {
    hide Holds, InFlight, Expected, SealedOf, LinkInv, Ahead;
    RunAhead(ss, ms, v2);
    UpKeysInFlight(ss[|ms|], i);
    if i < |SealedOf(ss[|ms|].down)| { DownKeysInFlight(ss[|ms|], i); }
  }

  /**
    The window is real: a client whose reader sees the ack before its sender has stored the offered
    ephemeral takes it for unsolicited and gives the connection up.
  */
  lemma AckOvertakesStore()
    ensures var ms := [Do(ClientOffer(true)), DeliverUp, DeliverDown];
            exists ss: seq<Link> :: Run(ss, ms) && ss[0] == Link(Established(true), [], []) && !ss[3].w.client.reading
  {
    hide After, Possible, Established, ClientOffered, HostFrame, ClientFrame;
    var ms := [Do(ClientOffer(true)), DeliverUp, DeliverDown];
    var s0 := Link(Established(true), [], []);
    OfferOnTheWire(s0);
    var s1 := After(s0, ms[0]);
    AckOnTheWire(s1);
    var s2 := After(s1, DeliverUp);
    StrayAck(s2);
    var s3 := After(s2, DeliverDown);
    var ss := [s0, s1, s2, s3];
    assert Run(ss, ms);
  }

  lemma OfferOnTheWire(s: Link)
    requires s == Link(Established(true), [], [])
    ensures Possible(s, Do(ClientOffer(true)))
    ensures var s1 := After(s, Do(ClientOffer(true)));
            && s1.up == [ClientFrame(s.w.client, Rekey, PublicKey(Honest(2)))] && s1.down == []
            && s1.w.client == ClientOffered(s.w.client, Honest(2), true) && s1.w.host == s.w.host && s1.w.down == []
  {
    var e := Entry(ClientFrame(s.w.client, Rekey, PublicKey(Honest(2))), true);
    assert Sealing([], [e]) == [e.frame];
  }

  // Any established host that reads the first REKEY answers it.
  lemma AckOnTheWire(s: Link)
    requires var e := Established(true);
             && s.up == [ClientFrame(e.client, Rekey, PublicKey(Honest(2)))] && s.down == []
             && s.w.client == ClientOffered(e.client, Honest(2), true) && s.w.host == e.host && s.w.down == []
    ensures Possible(s, DeliverUp)
    ensures var s2 := After(s, DeliverUp);
            && s2.down == [HostFrame(s.w.host, RekeyAck, PublicKey(Honest(s.w.nextEph)))] && s2.w.client == s.w.client
  {
    var e := Entry(HostFrame(s.w.host, RekeyAck, PublicKey(Honest(s.w.nextEph))), true);
    assert HostAcks(s.w.host, s.up[0]);
    assert Sealing([], [e]) == [e.frame];
  }

  // A client that has offered and not yet stored takes the ack for unsolicited.
  lemma StrayAck(s: Link)
    requires var e := Established(true);
             && s.w.client == ClientOffered(e.client, Honest(2), true)
             && |s.down| == 1 && exists eph :: s.down[0] == HostFrame(e.host, RekeyAck, PublicKey(eph))
    ensures Possible(s, DeliverDown) && !After(s, DeliverDown).w.client.reading
  {
  }
}
