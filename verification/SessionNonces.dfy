/**
  Nonces. No key ever seals two frames with the same counter, whatever arrives at either end, as
  long as no key seals more than 2^64 frames - and only then. Nothing is assumed about the cipher
  here: only that ephemerals are fresh.
*/
module SessionNonces {
  import opened Options
  import opened Endpoints
  import opened Session

  // Any schedule, any received frames, any write outcomes.
  ghost predicate Run(ws: seq<World>, acts: seq<Action>) {
    && |ws| == |acts| + 1
    && forall i :: 0 <= i < |acts| ==> Enabled(ws[i], acts[i]) && ws[i + 1] == Step(ws[i], acts[i])
  }

  ghost predicate AllSealed(log: seq<Entry>) {
    forall i :: 0 <= i < |log| ==> log[i].frame.body.Sealed?
  }

  ghost function Boxes(log: seq<Entry>): (bs: seq<Box>)
    requires AllSealed(log)
    ensures |bs| == |log| && forall i :: 0 <= i < |log| ==> bs[i] == log[i].frame.body.box
  {
    seq(|log|, i requires 0 <= i < |log| => log[i].frame.body.box)
  }

  ghost predicate NoncesDiffer(bs: seq<Box>) {
    forall i, j :: 0 <= i < j < |bs| ==> bs[i].key != bs[j].key || bs[i].counter != bs[j].counter
  }

  // ---- numbering by key ------------------------------------------------------

  ghost predicate Unused(bs: seq<Box>, key: Key) {
    forall i :: 0 <= i < |bs| ==> bs[i].key != key
  }

  // What may be sealed after bs: the next counter of the last key, or counter 0 of a new key.
  ghost predicate MaySeal(bs: seq<Box>, key: Key, counter: nat) {
    || (bs != [] && key == bs[|bs| - 1].key && counter == Next(bs[|bs| - 1].counter))
    || (counter == 0 && Unused(bs, key))
  }

  ghost predicate KeyFollows(bs: seq<Box>, i: nat)
    requires i < |bs|
  {
    || (i > 0 && bs[i].key == bs[i - 1].key && bs[i].counter == Next(bs[i - 1].counter))
    || (bs[i].counter == 0 && forall k :: 0 <= k < i ==> bs[k].key != bs[i].key)
  }

  ghost predicate KeyNumbered(bs: seq<Box>) {
    forall i: nat :: i < |bs| ==> KeyFollows(bs, i)
  }

  // How many frames its key sealed before frame i.
  ghost function Uses(bs: seq<Box>, i: nat): nat
    requires i < |bs|
  {
    if i == 0 || bs[i].key != bs[i - 1].key then 0 else Uses(bs, i - 1) + 1
  }

  ghost predicate UsesBounded(bs: seq<Box>) {
    forall i: nat :: i < |bs| ==> Uses(bs, i) < U64
  }

  lemma Wrap(n: nat)
    ensures Next(n % U64) == (n + 1) % U64 == Next(n)
    ensures n >= U64 ==> (n - U64) % U64 == n % U64
    ensures n < U64 ==> n % U64 == n
  {
  }

  lemma {:induction false} CounterIsUses(bs: seq<Box>, i: nat)
    requires KeyNumbered(bs) && i < |bs|
    ensures bs[i].counter == Uses(bs, i) % U64
  {
    assert KeyFollows(bs, i);
    if i > 0 && bs[i].key == bs[i - 1].key {
      CounterIsUses(bs, i - 1);
      Wrap(Uses(bs, i - 1));
    }
  }

  // The frames of one key are consecutive.
  lemma {:induction false} UsesDistance(bs: seq<Box>, i: nat, j: nat)
    requires KeyNumbered(bs) && i <= j < |bs| && bs[i].key == bs[j].key
    ensures Uses(bs, j) == Uses(bs, i) + (j - i)
    decreases j
  {
    if i < j {
      assert KeyFollows(bs, j);
      UsesDistance(bs, i, j - 1);
    }
  }

  // The exact condition under which nonces do not repeat.
  lemma NoncesDifferIff(bs: seq<Box>)
    requires KeyNumbered(bs)
    ensures NoncesDiffer(bs) <==> UsesBounded(bs)
  {
    if UsesBounded(bs) {
      forall i: nat, j: nat | i < j < |bs| && bs[i].key == bs[j].key ensures bs[i].counter != bs[j].counter {
        UsesDistance(bs, i, j);
        CounterIsUses(bs, i);
        CounterIsUses(bs, j);
        Wrap(Uses(bs, i));
        Wrap(Uses(bs, j));
      }
    } else {
      var j: nat :| j < |bs| && Uses(bs, j) >= U64;
      UsesBack(bs, j, U64);
      CounterIsUses(bs, j);
      CounterIsUses(bs, j - U64);
      Wrap(Uses(bs, j));
    }
  }

  lemma {:induction false} UsesBack(bs: seq<Box>, j: nat, n: nat)
    requires j < |bs| && n <= Uses(bs, j)
    ensures n <= j && bs[j - n].key == bs[j].key && Uses(bs, j - n) == Uses(bs, j) - n
    decreases n
  {
    if n > 0 { UsesBack(bs, j - 1, n - 1); }
  }

  // ---- the invariant ---------------------------------------------------------

  // An ephemeral the client made for a rotation: it is in no key used so far.
  ghost predicate Spare(e: Eph, tx: Key, bs: seq<Box>, nextEph: nat) {
    && FreshEph(e, nextEph) && tx.client != e
    && forall i :: 0 <= i < |bs| ==> bs[i].key.client != e
  }

  // The ephemeral of a rotation in progress, wherever it is kept.
  ghost function Kept(c: Client): Option<Eph> {
    if c.offering.Some? then c.offering
    else if c.pendingEph.Some? then c.pendingEph
    else if c.switching.Some? then Some(c.switching.value.tx.client)
    else None
  }

  // One place at a time.
  ghost predicate Tidy(c: Client) {
    && (c.offering.Some? ==> c.pendingEph.None? && c.switching.None?)
    && (c.pendingEph.Some? ==> c.rekeyInProgress && c.switching.None?)
    && (c.switching.Some? ==> c.rekeyInProgress && c.switching.value.tx.dir == ToHost)
  }

  ghost predicate ClientSeals(tx: Key, counter: nat, kept: Option<Eph>, bs: seq<Box>, nextEph: nat) {
    && KeyNumbered(bs) && MaySeal(bs, tx, counter)
    && tx.dir == ToHost && FreshEph(tx.client, nextEph)
    && (forall i :: 0 <= i < |bs| ==> bs[i].key.dir == ToHost && FreshEph(bs[i].key.client, nextEph))
    && (kept.Some? ==> Spare(kept.value, tx, bs, nextEph))
  }

  ghost predicate HostSeals(tx: Key, counter: nat, alive: bool, bs: seq<Box>, nextEph: nat) {
    && KeyNumbered(bs) && (alive ==> MaySeal(bs, tx, counter))
    && tx.dir == ToClient && FreshEph(tx.host, nextEph)
    && (forall i :: 0 <= i < |bs| ==> bs[i].key.dir == ToClient && FreshEph(bs[i].key.host, nextEph))
  }

  ghost predicate SealInv(w: World) {
    && AllSealed(w.up) && AllSealed(w.down) && Tidy(w.client)
    && ClientSeals(w.client.tx, w.client.txCounter, Kept(w.client), Boxes(w.up), w.nextEph)
    && HostSeals(w.host.tx, w.host.txCounter, w.host.alive, Boxes(w.down), w.nextEph)
  }

  lemma AppendSeal(bs: seq<Box>, b: Box)
    requires KeyNumbered(bs) && MaySeal(bs, b.key, b.counter)
    ensures KeyNumbered(bs + [b]) && MaySeal(bs + [b], b.key, Next(b.counter))
  {
    var cs := bs + [b];
    forall i: nat | i < |cs| ensures KeyFollows(cs, i) {
      if i < |bs| { assert KeyFollows(bs, i); }
    }
  }

  lemma BoxesAppend(log: seq<Entry>, e: Entry)
    requires AllSealed(log) && e.frame.body.Sealed?
    ensures AllSealed(log + [e]) && Boxes(log + [e]) == Boxes(log) + [e.frame.body.box]
  {
  }

  lemma MoreEphs(w: World)
    requires SealInv(w)
    ensures ClientSeals(w.client.tx, w.client.txCounter, Kept(w.client), Boxes(w.up), w.nextEph + 1)
    ensures HostSeals(w.host.tx, w.host.txCounter, w.host.alive, Boxes(w.down), w.nextEph + 1)
  {
  }

  lemma ClientSealInv(w: World, a: Action)
    requires SealInv(w) && Enabled(w, a) && (a.ClientSend? || a.ClientOffer?)
    ensures SealInv(Step(w, a))
  {
    var e := Step(w, a).up[|w.up|];
    BoxesAppend(w.up, e);
    AppendSeal(Boxes(w.up), e.frame.body.box);
    MoreEphs(w);
  }

  lemma ClientSwitchInv(w: World, a: Action)
    requires SealInv(w) && Enabled(w, a) && a.ClientSwitch?
    ensures SealInv(Step(w, a))
  {
    assert Unused(Boxes(w.up), w.client.switching.value.tx);
  }

  lemma HostSendInv(w: World, a: Action)
    requires SealInv(w) && Enabled(w, a) && a.HostSend?
    ensures SealInv(Step(w, a))
  {
    var e := Step(w, a).down[|w.down|];
    BoxesAppend(w.down, e);
    AppendSeal(Boxes(w.down), e.frame.body.box);
  }

  // The host's side of an ack: its entry, and either a dead sender or a key never used before.
  lemma HostAckSeals(w: World, peer: Eph, plain: Plain, ok: bool)
    requires SealInv(w) && w.host.alive
    ensures var e := Entry(HostFrame(w.host, RekeyAck, plain), ok);
            && AllSealed(w.down + [e])
            && HostSeals(w.host.tx, w.host.txCounter, false, Boxes(w.down + [e]), w.nextEph + 1)
            && HostSeals(HostKeys(Honest(w.nextEph), peer).tx, 0, true, Boxes(w.down + [e]), w.nextEph + 1)
  {
    var e := Entry(HostFrame(w.host, RekeyAck, plain), ok);
    BoxesAppend(w.down, e);
    AppendSeal(Boxes(w.down), e.frame.body.box);
    assert Unused(Boxes(w.down + [e]), HostKeys(Honest(w.nextEph), peer).tx);
  }

  lemma HostAckInv(w: World, a: Action)
    requires SealInv(w) && Enabled(w, a) && a.HostReceive? && HostAcks(w.host, a.f)
    ensures SealInv(Step(w, a))
  {
    MoreEphs(w);
    HostAckSeals(w, OpenChecked(w.host.v2, w.host.rx, a.f).value.0.eph, PublicKey(Honest(w.nextEph)), a.ok);
    hide ClientSeals, HostSeals;
  }

  lemma StopSealing(tx: Key, counter: nat, alive: bool, bs: seq<Box>, nextEph: nat)
    requires HostSeals(tx, counter, alive, bs, nextEph)
    ensures HostSeals(tx, counter, false, bs, nextEph)
  {
  }

  lemma StepSealInv(w: World, a: Action)
    requires SealInv(w) && Enabled(w, a)
    ensures SealInv(Step(w, a))
  {
    hide ClientSeals, HostSeals;
    StopSealing(w.host.tx, w.host.txCounter, w.host.alive, Boxes(w.down), w.nextEph);
    if a.ClientSend? || a.ClientOffer? {
      ClientSealInv(w, a);
    } else if a.ClientSwitch? {
      ClientSwitchInv(w, a);
    } else if a.HostSend? {
      HostSendInv(w, a);
    } else if a.HostReceive? && HostAcks(w.host, a.f) {
      HostAckInv(w, a);
    }
  }

  lemma {:induction false} RunSealInv(ws: seq<World>, acts: seq<Action>, cv2: bool, hv2: bool, cPeer: Eph, hPeer: Eph)
    requires Run(ws, acts) && ws[0] == Opened(cv2, hv2, cPeer, hPeer)
    ensures SealInv(ws[|acts|])
  {
    if |acts| > 0 {
      var n := |acts| - 1;
      RunSealInv(ws[..n + 1], acts[..n], cv2, hv2, cPeer, hPeer);
      StepSealInv(ws[n], acts[n]);
    }
  }

  /**
    In every run - any interleaving, any frames received, failed writes and failed acks included - a
    nonce repeats under a key, in either direction or across the two, exactly when some key seals
    more than 2^64 frames.
  */
  lemma NoNonceReuse(ws: seq<World>, acts: seq<Action>, cv2: bool, hv2: bool, cPeer: Eph, hPeer: Eph)
    requires Run(ws, acts) && ws[0] == Opened(cv2, hv2, cPeer, hPeer)
    ensures var w := ws[|acts|];
            && AllSealed(w.up) && AllSealed(w.down)
            && (NoncesDiffer(Boxes(w.up) + Boxes(w.down)) <==> UsesBounded(Boxes(w.up)) && UsesBounded(Boxes(w.down)))
  {
    RunSealInv(ws, acts, cv2, hv2, cPeer, hPeer);
    var w := ws[|acts|];
    var bs, cs := Boxes(w.up), Boxes(w.down);
    NoncesDifferIff(bs);
    NoncesDifferIff(cs);
    if NoncesDiffer(bs + cs) {
      forall i, j | 0 <= i < j < |bs| ensures bs[i].key != bs[j].key || bs[i].counter != bs[j].counter {
        assert (bs + cs)[i] == bs[i] && (bs + cs)[j] == bs[j];
      }
      forall i, j | 0 <= i < j < |cs| ensures cs[i].key != cs[j].key || cs[i].counter != cs[j].counter {
        assert (bs + cs)[|bs| + i] == cs[i] && (bs + cs)[|bs| + j] == cs[j];
      }
    }
  }
}
