/**
  Rotations go through, and messages arrive. Over ordered streams a client that has no rotation under
  way may offer one in every epoch but the last, an offer is answered once it is read, and when nothing
  is in flight any more both ends are in one epoch with mirrored keys.
*/
module SessionRotation {
  import opened Options
  import opened Endpoints
  import opened Session
  import opened SessionSteps
  import opened SessionOrdered

  // No rotation is under way at this client.
  predicate AtRest(c: Client) {
    c.offering.None? && c.pendingEph.None? && c.switching.None?
  }

  // What a receiver opens frames of this epoch with.
  predicate Opens(rx: Rx, epoch: nat, key: Key) {
    if rx.epoch == epoch then rx.key == key else rx.epoch + 1 == epoch && rx.pending == Some(key)
  }

  predicate Mirrored(c: Client, h: Host) {
    c.epoch == h.epoch && Opens(h.rx, c.epoch, c.tx) && Opens(c.rx, h.epoch, h.tx)
  }

  predicate NoErrors(q: seq<Frame>) {
    forall i :: 0 <= i < |q| ==> q[i].ty != Error
  }

  // ---- when a rotation can start ---------------------------------------------

  lemma {:induction false} RunVersion(ss: seq<Link>, ms: seq<Move>, v2: bool)
    requires Run(ss, ms) && ss[0] == Link(Established(v2), [], [])
    ensures ss[|ms|].w.client.v2 == v2
  {
    var n := |ms| - 1;
    if n >= 0 {
      RunVersion(ss[..n + 1], ms[..n], v2);
      hide OpenChecked, HostReceived;
    }
  }

  /**
    In every reachable state the client may offer a rotation if and only if the session is version 2,
    its epoch is below 255 and no rotation is under way.
  */
  lemma OfferPossibleIff(ss: seq<Link>, ms: seq<Move>, v2: bool)
    requires Run(ss, ms) && ss[0] == Link(Established(v2), [], [])
    ensures var s := ss[|ms|];
            Possible(s, Do(ClientOffer(true))) <==> v2 && s.w.client.epoch < 255 && AtRest(s.w.client)
  {
    RunInv(ss, ms, v2);
    RunVersion(ss, ms, v2);
    var c := ss[|ms|].w.client;
    assert c.rekeyInProgress <==> c.pendingEph.Some? || c.switching.Some?;
    hide Core, Queues, Run;
  }

  // ---- an offer is answered --------------------------------------------------

  // The REKEY of an offer that the client remembers has been written in this epoch.
  ghost predicate Asked(w: World) {
    Offer(w.client).Some? ==> exists i :: 0 <= i < |w.up| && AskedAt(w, i)
  }

  ghost predicate AskedAt(w: World, i: nat)
    requires i < |w.up|
  {
    w.up[i].frame.ty == Rekey && w.up[i].frame.epoch == w.client.epoch
  }

  lemma OffersApart(w: World, p: nat)
    requires Core(w, p)
    ensures w.client.offering.Some? ==> w.client.pendingEph.None?
    ensures w.client.switching.Some? ==> Offer(w.client).None?
  {
  }

  // No step but an offer adds an offer to remember, or moves the client on while it remembers one.
  lemma OfferKept(w: World, a: Action)
    requires Enabled(w, a) && !a.ClientOffer?
    requires w.client.offering.Some? ==> w.client.pendingEph.None?
    requires w.client.switching.Some? ==> Offer(w.client).None?
    ensures var c := Step(w, a).client; Offer(c).Some? ==> Offer(w.client).Some? && c.epoch == w.client.epoch
    ensures w.up <= Step(w, a).up
  {
    hide OpenChecked, HostReceived, HostAcks;
  }

  lemma StepAsked(w: World, p: nat, a: Action)
    requires Core(w, p) && Enabled(w, a) && Asked(w) && (a.ClientOffer? ==> a.ok)
    ensures Asked(Step(w, a))
  {
    hide Core, ClientReceived, HostReceived, HostAcks;
    OffersApart(w, p);
    var w' := Step(w, a);
    if a.ClientOffer? {
      assert AskedAt(w', |w.up|);
    } else {
      OfferKept(w, a);
      hide Step;
      if Offer(w'.client).Some? {
        var i :| 0 <= i < |w.up| && AskedAt(w, i);
        assert AskedAt(w', i);
      }
    }
  }

  lemma MoveAsked(s: Link, m: Move)
    requires LinkInv(s) && Possible(s, m) && Asked(s.w)
    ensures Asked(After(s, m).w)
  {
    hide Core, Queues, Asked, Step, Enabled;
    if m != PeerPing {
      var a := ActionOf(s, m);
      hide After;
      StepAsked(s.w, |s.w.upAcc|, a);
    }
  }

  lemma {:induction false} RunAsked(ss: seq<Link>, ms: seq<Move>, v2: bool)
    requires Run(ss, ms) && ss[0] == Link(Established(v2), [], [])
    ensures LinkInv(ss[|ms|]) && Asked(ss[|ms|].w)
  {
    RunInv(ss, ms, v2);
    var n := |ms| - 1;
    if n >= 0 {
      RunAsked(ss[..n + 1], ms[..n], v2);
      hide LinkInv, Asked, After, Possible;
      MoveAsked(ss[n], ms[n]);
    }
  }

  // A host that has read everything has answered.
  lemma HostAnswered(s: Link)
    requires LinkInv(s) && Asked(s.w) && s.up == [] && s.w.host.reading && Offer(s.w.client).Some?
    ensures s.w.host.epoch == s.w.client.epoch + 1
  {
    var w, p := s.w, |s.w.upAcc|;
    assert |Frames(w.up)[p..]| == 0;
    var i :| 0 <= i < |w.up| && AskedAt(w, i);
    assert LiveRekey(w.up, i);
    assert RekeyFacts(w.up[i].frame, i < p, w.client.epoch, RotationOf(w.client), w.host.epoch, true);
  }

  // A client that has read everything has taken the answer.
  lemma ClientAnswered(s: Link)
    requires LinkInv(s) && s.down == [] && s.w.client.reading && s.w.host.alive && s.w.host.epoch == s.w.client.epoch + 1
    ensures s.w.client.switching.Some?
  {
    var w, q := s.w, |s.w.downAcc|;
    var fs := Frames(w.down);
    assert |fs[q..]| == 0;
    hide Log, Control, Rekeys, AcceptedUp;
    assert w.down != [] && Ends(w.down[|w.down| - 1], w.host.epoch);
    assert fs[q - 1] == w.down[q - 1].frame;
  }

  lemma RestIsMirrored(w: World, p: nat)
    requires Core(w, p) && AtRest(w.client) && w.client.reading
    ensures w.client.epoch == w.host.epoch && Mirrored(w.client, w.host)
  {
    hide Log, AckSeen, Rekeys, Acks, AcceptedUp, AcceptedDown;
  }

  /**
    Rotations settle. Whenever both ends read and nothing is in flight, no offer is unanswered: the
    client is about to switch, or has no rotation under way; and then, or after the switch, the ends
    are in one epoch with mirrored keys.
  */
  lemma RotationsSettle(ss: seq<Link>, ms: seq<Move>, v2: bool)
    requires Run(ss, ms) && ss[0] == Link(Established(v2), [], [])
    requires var s := ss[|ms|]; s.up == [] && s.down == [] && s.w.client.reading && s.w.host.reading
    ensures var s := ss[|ms|];
            if AtRest(s.w.client) then Mirrored(s.w.client, s.w.host)
            else
              && Possible(s, Do(ClientSwitch))
              && var t := After(s, Do(ClientSwitch)).w;
                 AtRest(t.client) && t.client.epoch == s.w.client.epoch + 1 && Mirrored(t.client, t.host)
  {
    RunAsked(ss, ms, v2);
    var s := ss[|ms|];
    if AtRest(s.w.client) {
      RestIsMirrored(s.w, |s.w.upAcc|);
    } else {
      if Offer(s.w.client).Some? {
        HostAnswered(s);
        ClientAnswered(s);
      }
      SwitchRests(s);
    }
  }

  lemma SwitchRests(s: Link)
    requires LinkInv(s) && s.w.client.switching.Some?
    ensures Possible(s, Do(ClientSwitch))
    ensures var t := After(s, Do(ClientSwitch));
            && LinkInv(t) && AtRest(t.w.client) && t.w.client.reading && t.w.client.epoch == s.w.client.epoch + 1
            && Mirrored(t.w.client, t.w.host)
            && t.w.client.tx == s.w.client.switching.value.tx && t.w.host == s.w.host && t.up == s.up && t.down == s.down
  {
    var w := s.w;
    assert Control(w.client, w.host.epoch, w.hist, Frames(w.up), w.nextEph);
    hide Core, Queues;
    MoveInv(s, Do(ClientSwitch));
    EnqueueNothing(s.up, w.up);
    EnqueueNothing(s.down + Sealing(w.down, w.down), w.down);
    EnqueueNothing(s.down, w.down);
    RestIsMirrored(After(s, Do(ClientSwitch)).w, |s.w.upAcc|);
  }

  // ---- a rotation from its offer to its end ----------------------------------

  lemma RunCons(s: Link, m: Move, ts: seq<Link>, ns: seq<Move>)
    requires Run(ts, ns) && Possible(s, m) && ts[0] == After(s, m)
    ensures Run([s] + ts, [m] + ns) && ([s] + ts)[|[m] + ns|] == ts[|ns|]
  {
    hide Possible, After;
  }

  lemma RunAppend(ss: seq<Link>, ms: seq<Move>, ts: seq<Link>, ns: seq<Move>)
    requires Run(ss, ms) && Run(ts, ns) && ts[0] == ss[|ms|]
    ensures Run(ss[..|ms|] + ts, ms + ns) && (ss[..|ms|] + ts)[|ms + ns|] == ts[|ns|] && (ss[..|ms|] + ts)[0] == ss[0]
  {
    hide Possible, After;
  }

  // The host reads everything that is on its way.
  lemma DrainUp(s: Link) returns (ss: seq<Link>, ms: seq<Move>)
    requires LinkInv(s) && s.w.host.reading && NoErrors(s.down)
    ensures Run(ss, ms) && ss[0] == s && forall i :: 0 <= i < |ms| ==> ms[i] == DeliverUp
    ensures var t := ss[|ms|];
            LinkInv(t) && t.up == [] && t.w.client == s.w.client && t.w.up == s.w.up && t.w.host.reading && NoErrors(t.down)
    decreases |s.up|
  {
    hide LinkInv, After, NoErrors, Step, Enabled;
    if s.up == [] {
      ss, ms := [s], [];
    } else {
      var t := After(s, DeliverUp);
      ReadUp(s);
      hide Possible;
      var ts, ns := DrainUp(t);
      RunCons(s, DeliverUp, ts, ns);
      ss, ms := [s] + ts, [DeliverUp] + ns;
    }
  }

  lemma ReadUp(s: Link)
    requires LinkInv(s) && Possible(s, DeliverUp) && NoErrors(s.down)
    ensures var t := After(s, DeliverUp);
            && LinkInv(t) && t.w.host.reading && t.w.client == s.w.client && t.w.up == s.w.up
            && t.up == s.up[1..] && NoErrors(t.down)
  {
    hide Core, OpenChecked, HostReceived, HostAcks, Carries, Clean, Step;
    MoveInv(s, DeliverUp);
    HostHead(s);
    HostReads(s.w, s.up[0]);
    var e := Entry(HostFrame(s.w.host, RekeyAck, PublicKey(Honest(s.w.nextEph))), true);
    NoErrorJoins(s.down, s.w.down, e);
    HostKeepsClient(s.w, s.up[0]);
    hide LinkInv, Sealing, NoErrors, HostFrame;
  }

  lemma HostKeepsClient(w: World, f: Frame)
    requires w.host.reading
    ensures Step(w, HostReceive(f, true)).client == w.client
  {
    hide HostReceived, HostAcks;
  }

  lemma NoErrorJoins(q: seq<Frame>, log: seq<Entry>, e: Entry)
    requires NoErrors(q) && e.frame.ty == RekeyAck
    ensures NoErrors(q + Sealing(log, log) + []) && NoErrors(q + Sealing(log, log) + [PONG])
    ensures NoErrors(q + Sealing(log, log + [e]) + [])
  {
    assert (log + [e])[|log|..] == [e];
  }

  // The client reads what is on its way, up to an answer.
  lemma DrainDown(s: Link) returns (ss: seq<Link>, ms: seq<Move>)
    requires LinkInv(s) && s.w.client.reading && s.w.client.offering.None? && NoErrors(s.down)
    ensures Run(ss, ms) && ss[0] == s && forall i :: 0 <= i < |ms| ==> ms[i] == DeliverDown
    ensures var t := ss[|ms|];
            && LinkInv(t) && t.up == s.up && t.w.host == s.w.host && t.w.hist == s.w.hist && NoErrors(t.down)
            && t.w.client.reading && t.w.client.offering.None? && t.w.client.epoch == s.w.client.epoch && t.w.client.tx == s.w.client.tx
            && (AtRest(s.w.client) ==> AtRest(t.w.client))
            && (t.down == [] || t.w.client.switching.Some?)
    decreases |s.down|
  {
    hide LinkInv, After, NoErrors, Step, Enabled;
    if s.down == [] || s.w.client.switching.Some? {
      ss, ms := [s], [];
    } else {
      var t := After(s, DeliverDown);
      ReadDown(s);
      hide Possible;
      var ts, ns := DrainDown(t);
      RunCons(s, DeliverDown, ts, ns);
      ss, ms := [s] + ts, [DeliverDown] + ns;
    }
  }

  lemma ReadDown(s: Link)
    requires LinkInv(s) && Possible(s, DeliverDown) && s.w.client.offering.None? && NoErrors(s.down)
    ensures var t := After(s, DeliverDown);
            && LinkInv(t) && t.up == s.up && t.w.host == s.w.host && t.w.hist == s.w.hist && t.down == s.down[1..] && NoErrors(t.down)
            && t.w.client.reading && t.w.client.offering.None? && t.w.client.epoch == s.w.client.epoch && t.w.client.tx == s.w.client.tx
            && (AtRest(s.w.client) ==> AtRest(t.w.client))
  {
    hide Core, Queues, OpenChecked, ClientReceived, Step;
    DeliverDownInv(s);
    ClientHead(s);
    ClientReads(s.w, s.down[0]);
    ClientKeepsOn(s.w, s.down[0]);
  }

  lemma ClientKeepsOn(w: World, f: Frame)
    requires w.client.reading && w.client.switching.None? && w.client.offering.None?
    ensures var c := Step(w, ClientReceive(f)).client;
            && c.offering.None? && c.epoch == w.client.epoch && c.tx == w.client.tx
            && (AtRest(w.client) ==> AtRest(c))
  {
    hide OpenChecked;
  }

  // Offering and storing.
  lemma OfferAndStore(s: Link) returns (ss: seq<Link>)
    requires LinkInv(s) && Possible(s, Do(ClientOffer(true))) && AtRest(s.w.client)
    ensures Run(ss, [Do(ClientOffer(true)), Do(ClientStore)]) && ss[0] == s
    ensures var t := ss[2];
            && LinkInv(t) && Asked(t.w) && t.down == s.down && t.w.host == s.w.host
            && t.w.client.reading == s.w.client.reading && t.w.client.epoch == s.w.client.epoch
            && t.w.client.offering.None? && t.w.client.switching.None? && t.w.client.pendingEph == Some(Honest(s.w.nextEph))
  {
    hide Core, Queues;
    var w := s.w;
    var s1 := After(s, Do(ClientOffer(true)));
    MoveInv(s, Do(ClientOffer(true)));
    MoveAsked(s, Do(ClientOffer(true)));
    var s2 := After(s1, Do(ClientStore));
    MoveInv(s1, Do(ClientStore));
    MoveAsked(s1, Do(ClientStore));
    EnqueueNothing(s.down, w.down);
    ss := [s, s1, s2];
    assert s1.down == s.down;
    assert s2.down == s.down;
  }

  // The answer is on its way, or taken.
  lemma OfferTaken(s: Link)
    requires LinkInv(s) && Asked(s.w) && s.up == [] && s.w.host.reading && s.w.client.pendingEph.Some?
    ensures s.w.host.epoch == s.w.client.epoch + 1 && s.w.host.epoch < |s.w.hist|
    ensures Some(s.w.hist[s.w.host.epoch].client) == s.w.client.pendingEph
  {
    HostAnswered(s);
    assert Control(s.w.client, s.w.host.epoch, s.w.hist, Frames(s.w.up), s.w.nextEph);
    hide Core;
  }

  lemma SwitchingKey(s: Link)
    requires LinkInv(s) && s.w.client.switching.Some? && s.w.host.epoch < |s.w.hist|
    ensures s.w.client.switching.value.tx.client == s.w.hist[s.w.host.epoch].client
  {
    assert Control(s.w.client, s.w.host.epoch, s.w.hist, Frames(s.w.up), s.w.nextEph);
    hide Core;
  }

  lemma AskedKept(w: World, w': World)
    requires Asked(w) && w'.up == w.up && w'.client == w.client
    ensures Asked(w')
  {
    if Offer(w.client).Some? {
      var i :| 0 <= i < |w.up| && AskedAt(w, i);
      assert AskedAt(w', i);
    }
  }

  // The client takes the answer, switches, and reads the rest.
  lemma TakeAnswer(s: Link) returns (ss: seq<Link>, ms: seq<Move>)
    requires LinkInv(s) && s.w.client.reading && s.w.client.offering.None? && NoErrors(s.down)
    requires s.up == [] && s.w.host.reading && s.w.host.epoch == s.w.client.epoch + 1 && s.w.host.epoch < |s.w.hist|
    ensures Run(ss, ms) && ss[0] == s && forall i :: 0 <= i < |ms| ==> ms[i] in {DeliverDown, Do(ClientSwitch)}
    ensures var t := ss[|ms|];
            && t.up == [] && t.down == [] && t.w.client.reading && t.w.host.reading && AtRest(t.w.client)
            && t.w.client.epoch == s.w.client.epoch + 1 && Mirrored(t.w.client, t.w.host)
            && t.w.client.tx.client == s.w.hist[s.w.host.epoch].client
  {
    hide LinkInv, Possible, After, Mirrored, NoErrors, Enabled;
    var ss1, ms1 := DrainDown(s);
    var s1 := ss1[|ms1|];
    hide Run;
    AliveReader(s1);
    if s1.w.client.switching.None? { ClientAnswered(s1); }
    SwitchingKey(s1);
    SwitchRests(s1);
    var s2 := After(s1, Do(ClientSwitch));
    var ss2, ms2 := DrainDown(s2);
    RunCons(s1, Do(ClientSwitch), ss2, ms2);
    RunAppend(ss1, ms1, [s1] + ss2, [Do(ClientSwitch)] + ms2);
    ss, ms := ss1[..|ms1|] + ([s1] + ss2), ms1 + ([Do(ClientSwitch)] + ms2);
    var t := ss[|ms|];
    assert t == ss2[|ms2|];
    LinkRests(t);
  }

  lemma AliveReader(s: Link)
    requires LinkInv(s)
    ensures s.w.host.reading ==> s.w.host.alive
  {
    hide Core, Carries, Clean;
  }

  lemma LinkRests(s: Link)
    requires LinkInv(s) && AtRest(s.w.client) && s.w.client.reading
    ensures Mirrored(s.w.client, s.w.host)
  {
    hide Core, Mirrored, Queues;
    RestIsMirrored(s.w, |s.w.upAcc|);
  }

  /**
    A rotation that is offered goes through: from any reachable state in which both ends read, no
    rotation is under way, the epoch is below 255 and no ERROR waits for the client, the offer and its
    store, deliveries and the switch empty both queues and leave both ends reading in the next epoch,
    with mirrored keys made of the ephemeral that was offered.
  */
  lemma RotationCompletes(ss: seq<Link>, ms: seq<Move>) returns (ts: seq<Link>, ns: seq<Move>)
    requires Run(ss, ms) && ss[0] == Link(Established(true), [], [])
    requires var s := ss[|ms|];
             && s.w.client.epoch < 255 && AtRest(s.w.client) && s.w.client.reading && s.w.host.reading && NoErrors(s.down)
    ensures Run(ts, ns) && ts[0] == ss[|ms|]
    ensures |ns| >= 2 && ns[0] == Do(ClientOffer(true)) && ns[1] == Do(ClientStore)
    ensures forall i :: 2 <= i < |ns| ==> ns[i] in {DeliverUp, DeliverDown, Do(ClientSwitch)}
    ensures var s, t := ss[|ms|], ts[|ns|];
            && t.up == [] && t.down == [] && t.w.client.reading && t.w.host.reading && AtRest(t.w.client)
            && t.w.client.epoch == s.w.client.epoch + 1 && Mirrored(t.w.client, t.w.host)
            && t.w.client.tx.client == Honest(s.w.nextEph)
  {
    hide Possible, After, Opens, LinkInv, Mirrored, Asked, NoErrors, Established, Enabled;
    var s := ss[|ms|];
    RunInv(ss, ms, true);
    OfferPossibleIff(ss, ms, true);
    var ss1 := OfferAndStore(s);
    var ss2, ms2 := DrainUp(ss1[2]);
    var s2 := ss2[|ms2|];
    AskedKept(ss1[2].w, s2.w);
    OfferTaken(s2);
    var ss3, ms3 := TakeAnswer(s2);
    RunAppend(ss2, ms2, ss3, ms3);
    RunAppend(ss1, [Do(ClientOffer(true)), Do(ClientStore)], ss2[..|ms2|] + ss3, ms2 + ms3);
    ts := ss1[..2] + (ss2[..|ms2|] + ss3);
    ns := [Do(ClientOffer(true)), Do(ClientStore)] + (ms2 + ms3);
  }

  // ---- messages arrive -------------------------------------------------------

  /**
    A message gets through, from client to host: whenever the host reads and no offer is halfway, the
    client may send, and once the host has read what is on its way, that message is the last it accepted.
  */
  lemma SentArrives(ss: seq<Link>, ms: seq<Move>, v2: bool, ty: FrameType, plain: Plain) returns (ts: seq<Link>, ns: seq<Move>)
    requires Run(ss, ms) && ss[0] == Link(Established(v2), [], [])
    requires ty in {Request, StreamChunk} && plain.Payload?
    requires var s := ss[|ms|]; s.w.host.reading && s.w.client.offering.None? && NoErrors(s.down)
    ensures Run(ts, ns) && ts[0] == ss[|ms|] && |ns| >= 1 && ns[0] == Do(ClientSend(ty, plain, true))
    ensures forall i :: 1 <= i < |ns| ==> ns[i] == DeliverUp
    ensures var t := ts[|ns|];
            && t.up == [] && t.w.upAcc != []
            && var f := t.w.upAcc[|t.w.upAcc| - 1];
               f.ty == ty && f.body.Sealed? && f.body.box.plain == plain
  {
    hide LinkInv, NoErrors, After, Possible, Step, Enabled, Established;
    var s := ss[|ms|];
    RunInv(ss, ms, v2);
    var m := Do(ClientSend(ty, plain, true));
    SendJoins(s, ty, plain);
    var s1 := After(s, m);
    var ts1, ns1 := DrainUp(s1);
    RunCons(s, m, ts1, ns1);
    ts, ns := [s] + ts1, [m] + ns1;
    LastAccepted(ts1[|ns1|]);
  }

  lemma SendJoins(s: Link, ty: FrameType, plain: Plain)
    requires LinkInv(s) && s.w.client.offering.None? && ty in {Request, StreamChunk} && plain.Payload?
    ensures Possible(s, Do(ClientSend(ty, plain, true)))
    ensures var t := After(s, Do(ClientSend(ty, plain, true)));
            && LinkInv(t) && t.w.host == s.w.host && t.down == s.down
            && t.w.up != [] && t.w.up[|t.w.up| - 1].frame == ClientFrame(s.w.client, ty, plain)
  {
    hide LinkInv;
    MoveInv(s, Do(ClientSend(ty, plain, true)));
    EnqueueNothing(s.down, s.w.down);
    EnqueueNothing(s.down + Sealing(s.w.down, s.w.down), s.w.down);
  }

  lemma LastAccepted(s: Link)
    requires LinkInv(s) && s.up == [] && s.w.up != []
    ensures s.w.upAcc != [] && s.w.upAcc[|s.w.upAcc| - 1] == s.w.up[|s.w.up| - 1].frame
  {
    hide Core, Clean;
    assert |Frames(s.w.up)[|s.w.upAcc|..]| == 0;
  }

  /**
    And from host to client: whenever the client reads, no rotation is under way and no ERROR waits, what
    a live host sends is the last the client has accepted once it has read what is on its way.
  */
  lemma SentBackArrives(ss: seq<Link>, ms: seq<Move>, v2: bool, ty: FrameType, plain: Plain) returns (ts: seq<Link>, ns: seq<Move>)
    requires Run(ss, ms) && ss[0] == Link(Established(v2), [], [])
    requires ty in {Response, StreamChunk} && plain.Payload?
    requires var s := ss[|ms|]; s.w.host.alive && s.w.client.reading && AtRest(s.w.client) && NoErrors(s.down)
    ensures Run(ts, ns) && ts[0] == ss[|ms|] && |ns| >= 1 && ns[0] == Do(HostSend(ty, plain, true))
    ensures forall i :: 1 <= i < |ns| ==> ns[i] == DeliverDown
    ensures var t := ts[|ns|];
            && t.down == [] && t.w.client.reading && t.w.downAcc != []
            && var f := t.w.downAcc[|t.w.downAcc| - 1];
               f.ty == ty && f.body.Sealed? && f.body.box.plain == plain
  {
    hide LinkInv, NoErrors, After, Possible, Step, Enabled, Established;
    var s := ss[|ms|];
    RunInv(ss, ms, v2);
    var m := Do(HostSend(ty, plain, true));
    SendBackJoins(s, ty, plain);
    var s1 := After(s, m);
    var ts1, ns1 := DrainDown(s1);
    RunCons(s, m, ts1, ns1);
    ts, ns := [s] + ts1, [m] + ns1;
    DownStays(ts1, ns1);
    LastRead(ts1[|ns1|]);
  }

  lemma SendBackJoins(s: Link, ty: FrameType, plain: Plain)
    requires LinkInv(s) && s.w.host.alive && ty in {Response, StreamChunk} && plain.Payload? && NoErrors(s.down)
    ensures Possible(s, Do(HostSend(ty, plain, true)))
    ensures var t := After(s, Do(HostSend(ty, plain, true)));
            && LinkInv(t) && t.w.client == s.w.client && NoErrors(t.down)
            && t.w.down != [] && t.w.down[|t.w.down| - 1].frame == HostFrame(s.w.host, ty, plain)
  {
    hide LinkInv;
    MoveInv(s, Do(HostSend(ty, plain, true)));
    var e := Entry(HostFrame(s.w.host, ty, plain), true);
    assert (s.w.down + [e])[|s.w.down|..] == [e];
  }

  lemma {:induction false} DownStays(ss: seq<Link>, ms: seq<Move>)
    requires Run(ss, ms) && forall i :: 0 <= i < |ms| ==> ms[i] == DeliverDown
    ensures ss[|ms|].w.down == ss[0].w.down
  {
    var n := |ms| - 1;
    if n >= 0 {
      DownStays(ss[..n + 1], ms[..n]);
      hide ClientReceived, Enabled;
    }
  }

  lemma LastRead(s: Link)
    requires LinkInv(s) && s.down == [] && s.w.down != []
    ensures s.w.downAcc != [] && s.w.downAcc[|s.w.downAcc| - 1] == s.w.down[|s.w.down| - 1].frame
  {
    AcceptedFirst(s.w, |s.w.upAcc|);
    hide Core, Clean;
    assert |Frames(s.w.down)[|s.w.downAcc|..]| == 0;
  }

  /** A host that has failed a write or a probe, or is closed, sends nothing any more; and it can be closed at any time. */
  lemma StoppedHostIsSilent(w: World, a: Action, b: Action)
    requires a == HostClose || a == HostPing(false) || (a.HostSend? && !a.ok)
    ensures a == HostClose ==> Enabled(w, a) && !Step(w, a).host.reading
    ensures Enabled(w, a) && (b.HostSend? || b.HostPing?) ==> !Enabled(Step(w, a), b)
  {
  }

  /** A probe of the client is answered when the host reads it. */
  lemma ProbesAnswered(s: Link)
    ensures Possible(s, PeerPing) && After(s, PeerPing) == s.(up := s.up + [PING])
    ensures s.w.host.reading && s.up != [] && s.up[0] == PING ==>
            Possible(s, DeliverUp) && After(s, DeliverUp) == s.(up := s.up[1..], down := s.down + [PONG])
  {
    hide OpenChecked;
    assert s.down + [] == s.down;
  }
}
