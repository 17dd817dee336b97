/**
  Safety of the session over a network that may drop, duplicate, reorder and alter frames: what is
  accepted is what was sent, in order. The network can copy any sealed body it has seen here, can bring
  any frame of another connection, and can seal under any key that is not made of two ephemerals of
  these ends.
*/
module SessionAdversary {
  import opened Options
  import opened Endpoints
  import opened Session
  import opened SessionSteps

  ghost predicate Seen(log: seq<Entry>, body: Body) {
    exists i :: 0 <= i < |log| && log[i].written && log[i].frame.body == body
  }

  // A key of another connection, or of the network's own.
  predicate Foreign(k: Key) {
    !k.client.Honest? || !k.host.Honest?
  }

  ghost predicate Deliverable(w: World, f: Frame) {
    && f.epoch < EPOCHS
    && (!w.host.v2 ==> f.epoch == 0)
    && (f.body.Sealed? ==> Seen(w.up, f.body) || Seen(w.down, f.body) || Foreign(f.body.box.key))
  }

  ghost predicate Allowed(w: World, a: Action) {
    && Enabled(w, a) && Sendable(a)
    && (a.ClientReceive? || a.HostReceive? ==> Deliverable(w, a.f))
  }

  ghost predicate Run(ws: seq<World>, acts: seq<Action>) {
    && |ws| == |acts| + 1
    && forall i :: 0 <= i < |acts| ==> Allowed(ws[i], acts[i]) && ws[i + 1] == Step(ws[i], acts[i])
  }

  // ---- numbering -------------------------------------------------------------

  // How many frames of its epoch precede frame i.
  ghost function Pos(fs: seq<Frame>, i: nat): nat
    requires i < |fs|
  {
    if i == 0 || fs[i].epoch != fs[i - 1].epoch then 0 else Pos(fs, i - 1) + 1
  }

  // No epoch has more than n frames.
  ghost predicate Bounded(fs: seq<Frame>, n: nat) {
    forall i: nat :: i < |fs| ==> Pos(fs, i) < n
  }

  lemma {:induction false} CounterIsPos(fs: seq<Frame>, i: nat)
    requires Numbered(fs) && i < |fs|
    ensures fs[i].counter == Pos(fs, i) % U64
  {
    assert Follows(fs, i);
    if i > 0 {
      CounterIsPos(fs, i - 1);
      if fs[i].epoch == fs[i - 1].epoch {
        var n := Pos(fs, i - 1);
        assert (n % U64 + 1) % U64 == (n + 1) % U64;
      }
    }
  }

  lemma {:induction false} PosDistance(fs: seq<Frame>, i: nat, j: nat)
    requires Numbered(fs) && i <= j < |fs| && fs[i].epoch == fs[j].epoch
    ensures Pos(fs, j) == Pos(fs, i) + (j - i)
    decreases j
  {
    if i < j {
      EpochsAscend(fs, i, j - 1);
      EpochsAscend(fs, j - 1, j);
      PosDistance(fs, i, j - 1);
    }
  }

  lemma {:induction false} PosPrefix(fs: seq<Frame>, gs: seq<Frame>, i: nat)
    requires fs <= gs && i < |fs|
    ensures Pos(fs, i) == Pos(gs, i)
  {
    if i > 0 { PosPrefix(fs, gs, i - 1); }
  }

  lemma BoundedPrefix(fs: seq<Frame>, gs: seq<Frame>, n: nat)
    requires fs <= gs && Bounded(gs, n)
    ensures Bounded(fs, n)
  {
    forall i: nat | i < |fs| ensures Pos(fs, i) < n { PosPrefix(fs, gs, i); }
  }

  // Within 2^64 frames per epoch, epoch and counter name one frame.
  lemma NumberUnique(fs: seq<Frame>, i: nat, j: nat)
    requires Numbered(fs) && Bounded(fs, U64) && i < |fs| && j < |fs|
    requires fs[i].epoch == fs[j].epoch && fs[i].counter == fs[j].counter
    ensures i == j
  {
    CounterIsPos(fs, i);
    CounterIsPos(fs, j);
    if i < j { PosDistance(fs, i, j); } else { PosDistance(fs, j, i); }
  }

  // ---- what a receiver can be made to accept ---------------------------------

  lemma KeyEpoch(hist: seq<Pair>, i: nat, j: nat, dir: Direction)
    requires i < |hist| && j < |hist| && KeyAt(hist, i, dir) == KeyAt(hist, j, dir)
    requires forall i, j :: 0 <= i < j < |hist| ==> hist[i].host != hist[j].host
    ensures i == j
  {
  }

  ghost function Opposite(dir: Direction): Direction {
    if dir == ToHost then ToClient else ToHost
  }

  // A frame that opens was sent by the peer, unaltered.
  lemma Authentic(hist: seq<Pair>, v2: bool, dir: Direction, log: seq<Entry>, other: seq<Entry>,
                  rx: Rx, epoch: nat, q: nat, f: Frame) returns (j: nat)
    requires forall i, j :: 0 <= i < j < |hist| ==> hist[i].host != hist[j].host
    requires forall i :: 0 <= i < |hist| ==> hist[i].client.Honest? && hist[i].host.Honest?
    requires Log(Frames(log), hist, v2, dir) && Log(Frames(other), hist, v2, Opposite(dir)) && |hist| <= EPOCHS
    requires Receiver(rx, epoch, hist, dir, Frames(log), q) && OpenChecked(v2, rx, f).Some?
    requires !v2 ==> f.epoch == rx.epoch == 0
    requires Seen(log, f.body) || Seen(other, f.body) || Foreign(f.body.box.key)
    ensures j < |log| && log[j] == Entry(f, true)
  {
    var e := if f.epoch == rx.epoch then rx.epoch else rx.epoch + 1;
    assert f.body.box.key == KeyAt(hist, e, dir);
    forall i | 0 <= i < |other| ensures other[i].frame.body != f.body {
      assert Proper(Frames(other)[i], hist, v2, Opposite(dir));
    }
    j :| 0 <= j < |log| && log[j].written && log[j].frame.body == f.body;
    assert Proper(Frames(log)[j], hist, v2, dir);
    KeyEpoch(hist, log[j].frame.epoch, e, dir);
  }

  // The only frame that continues the numbering of frame q - 1 in its epoch is frame q.
  lemma OnlyNext(fs: seq<Frame>, q: nat, j: nat)
    requires Numbered(fs) && Bounded(fs, U64 - 1) && 0 < q <= |fs| && j < |fs|
    requires fs[j].epoch == fs[q - 1].epoch && fs[j].counter == Next(fs[q - 1].counter)
    ensures j == q
  {
    hide Numbered, Pos;
    CounterIsPos(fs, j);
    CounterIsPos(fs, q - 1);
    assert Pos(fs, q - 1) < U64 - 1 && Pos(fs, j) < U64 - 1;
    hide Bounded;
    if j < q { PosDistance(fs, j, q - 1); } else { PosDistance(fs, q - 1, j); }
  }

  // It is the next one, or the first of the epoch whose key is pending.
  lemma InOrder(fs: seq<Frame>, rx: Rx, epoch: nat, hist: seq<Pair>, dir: Direction, v2: bool, q: nat, j: nat)
    requires Log(fs, hist, v2, dir) && Bounded(fs, U64 - 1) && |hist| <= EPOCHS
    requires Receiver(rx, epoch, hist, dir, fs, q)
    requires j < |fs| && OpenChecked(v2, rx, fs[j]).Some? && (!v2 ==> rx.epoch == 0)
    ensures q <= j
    ensures j == q || (fs[j].epoch == rx.epoch + 1 == fs[j - 1].epoch + 1)
  {
    assert Proper(fs[j], hist, v2, dir);
    if fs[j].epoch == rx.epoch {
      if q > 0 {
        OnlyNext(fs, q, j);
      } else {
        assert Follows(fs, 0);
        NumberUnique(fs, 0, j);
      }
    } else {
      if j < q { EpochsAscend(fs, j, q - 1); }
      FirstOfEpoch(fs, j);
    }
  }

  // Counter 0 is the first frame of its epoch.
  lemma FirstOfEpoch(fs: seq<Frame>, j: nat)
    requires Numbered(fs) && Bounded(fs, U64 - 1) && j < |fs| && fs[j].counter == 0
    ensures j > 0 ==> fs[j].epoch == fs[j - 1].epoch + 1
  {
    CounterIsPos(fs, j);
    assert Pos(fs, j) < U64 && Follows(fs, j);
  }

  lemma OnlySealedOpens(v2: bool, rx: Rx, f: Frame)
    ensures OpenChecked(v2, rx, f).Some? ==> f.body.Sealed?
  {
  }

  // Whatever the network delivers, the client accepts nothing but the next frame.
  lemma ClientAcceptsNext(w: World, p: nat, f: Frame)
    requires Core(w, p) && w.client.reading && w.client.switching.None? && Deliverable(w, f)
    requires Bounded(Frames(w.down), U64 - 1) && OpenChecked(w.client.v2, w.client.rx, f).Some?
    ensures |w.downAcc| < |w.down| && w.down[|w.downAcc|] == Entry(f, true)
  {
    hide OpenChecked, Log, Sender, Control, Rekeys, Acks, AcceptedUp, AcceptedDown, Bounded, Seen, Foreign;
    var c, q := w.client, |w.downAcc|;
    OnlySealedOpens(c.v2, c.rx, f);
    var j := Authentic(w.hist, w.host.v2, ToClient, w.down, w.up, c.rx, c.epoch, q, f);
    InOrder(Frames(w.down), c.rx, c.epoch, w.hist, ToClient, w.host.v2, q, j);
    AckedNext(w, p, j);
  }

  lemma ClientReceiveAnything(w: World, p: nat, a: Action)
    requires Core(w, p) && Allowed(w, a) && a.ClientReceive?
    requires Bounded(Frames(w.down), U64 - 1)
    ensures Core(Step(w, a), p)
  {
    hide Core, Deliverable, Bounded, OpenChecked;
    if ClientReceived(w.client, a.f).1 { ClientAcceptsNext(w, p, a.f); }
    ClientReceiveCore(w, p, a);
  }

  lemma HostReceiveAnything(w: World, p: nat, a: Action) returns (p': nat)
    requires Core(w, p) && Allowed(w, a) && a.HostReceive?
    requires Bounded(Frames(w.up), U64 - 1)
    ensures Core(Step(w, a), p')
  {
    var h := w.host;
    var j := p;
    if HostReceived(h, a.f, Honest(w.nextEph), a.ok).1 {
      j := Authentic(w.hist, h.v2, ToHost, w.up, w.down, h.rx, h.epoch, p, a.f);
      InOrder(Frames(w.up), h.rx, h.epoch, w.hist, ToHost, h.v2, p, j);
    }
    hide Core;
    HostReceiveCore(w, p, a, j);
    p' := if HostReceived(h, a.f, Honest(w.nextEph), a.ok).1 then j + 1 else p;
  }

  // Towards the client no frame can be skipped: only the ack, the last frame of its epoch, arms the
  // next key.
  lemma AckedNext(w: World, p: nat, j: nat)
    requires Core(w, p) && w.client.reading && |w.downAcc| <= j < |w.down|
    requires j == |w.downAcc| ||
             w.down[j].frame.epoch == w.client.rx.epoch + 1 == w.down[j - 1].frame.epoch + 1
    requires w.client.switching.None? && OpenChecked(w.client.v2, w.client.rx, w.down[j].frame).Some?
    ensures j == |w.downAcc|
  {
    hide Sender, Control, Rekeys, AcceptedUp;
    var q, fs := |w.downAcc|, Frames(w.down);
    assert Proper(fs[j], w.hist, w.host.v2, ToClient);
    if j > q {
      assert AckLast(fs, q);
      assert AckFacts(w.down, w.hist, q - 1);
      EpochsAscend(fs, q, j - 1);
    }
  }

  lemma StepCore(w: World, p: nat, a: Action) returns (p': nat)
    requires Core(w, p) && Allowed(w, a)
    requires Bounded(Frames(w.up), U64 - 1) && Bounded(Frames(w.down), U64 - 1)
    ensures Core(Step(w, a), p')
  {
    hide Core, Deliverable, Bounded, Sendable;
    p' := p;
    match a
    case ClientSend(_, _, _) => ClientSendCore(w, p, a);
    case ClientOffer(_) => ClientOfferCore(w, p, a);
    case ClientStore => ClientStoreCore(w, p, a);
    case ClientSwitch => ClientSwitchCore(w, p, a);
    case HostSend(_, _, _) => HostSendCore(w, p, a);
    case HostPing(_) => HostQuietCore(w, p, a);
    case HostClose => HostQuietCore(w, p, a);
    case ClientReceive(_) => ClientReceiveAnything(w, p, a);
    case HostReceive(_, _) => p' := HostReceiveAnything(w, p, a);
  }

  lemma LogsGrow(w: World, a: Action)
    requires Enabled(w, a)
    ensures Frames(w.up) <= Frames(Step(w, a).up) && Frames(w.down) <= Frames(Step(w, a).down)
  {
  }

  // The invariant holds at the end of every run that seals fewer than 2^64 frames per epoch.
  lemma {:induction false} RunCore(ws: seq<World>, acts: seq<Action>, v2: bool) returns (p: nat)
    requires Run(ws, acts) && ws[0] == Established(v2)
    requires var w := ws[|acts|]; Bounded(Frames(w.up), U64 - 1) && Bounded(Frames(w.down), U64 - 1)
    ensures Core(ws[|acts|], p)
  {
    var n := |acts|;
    if n == 0 {
      EstablishedCore(v2);
      p := 0;
    } else {
      var w := ws[n - 1];
      LogsGrow(w, acts[n - 1]);
      BoundedPrefix(Frames(w.up), Frames(ws[n].up), U64 - 1);
      BoundedPrefix(Frames(w.down), Frames(ws[n].down), U64 - 1);
      var p0 := RunCore(ws[..n], acts[..n - 1], v2);
      p := StepCore(w, p0, acts[n - 1]);
    }
  }

  // ---- the two prefix theorems -----------------------------------------------

  ghost function OfEpoch(fs: seq<Frame>, e: nat): seq<Frame> {
    if fs == [] then []
    else if fs[|fs| - 1].epoch == e then OfEpoch(fs[..|fs| - 1], e) + [fs[|fs| - 1]]
    else OfEpoch(fs[..|fs| - 1], e)
  }

  lemma {:induction false} NoneOfEpoch(fs: seq<Frame>, e: nat)
    requires forall i :: 0 <= i < |fs| ==> fs[i].epoch != e
    ensures OfEpoch(fs, e) == []
  {
    if fs != [] { NoneOfEpoch(fs[..|fs| - 1], e); }
  }

  lemma NumberedPrefix(fs: seq<Frame>, n: nat)
    requires Numbered(fs) && n <= |fs|
    ensures Numbered(fs[..n])
  {
    forall i | 0 <= i < n ensures Follows(fs[..n], i) { assert Follows(fs, i); }
  }

  // When the last frame is of epoch e, its position counts the frames of e before it.
  lemma {:induction false} OfEpochLast(fs: seq<Frame>, e: nat)
    requires Numbered(fs) && fs != [] && fs[|fs| - 1].epoch == e
    ensures |OfEpoch(fs, e)| == Pos(fs, |fs| - 1) + 1
  {
    var n := |fs| - 1;
    var gs := fs[..n];
    NumberedPrefix(fs, n);
    assert Follows(fs, n);
    if n > 0 {
      assert gs[n - 1] == fs[n - 1];
      if fs[n - 1].epoch == e {
        OfEpochLast(gs, e);
        PosPrefix(gs, fs, n - 1);
      } else {
        forall i | 0 <= i < n ensures gs[i].epoch != e { EpochsAscend(fs, i, n - 1); }
        NoneOfEpoch(gs, e);
      }
    }
  }

  // The frames of an epoch are listed by position.
  lemma {:induction false} OfEpochAt(fs: seq<Frame>, e: nat, i: nat)
    requires Numbered(fs) && i < |fs| && fs[i].epoch == e
    ensures Pos(fs, i) < |OfEpoch(fs, e)| && OfEpoch(fs, e)[Pos(fs, i)] == fs[i]
  {
    var n := |fs| - 1;
    if i == n {
      OfEpochLast(fs, e);
    } else {
      NumberedPrefix(fs, n);
      OfEpochAt(fs[..n], e, i);
      PosPrefix(fs[..n], fs, i);
    }
  }

  lemma {:induction false} EpochPrefix(acc: seq<Frame>, fs: seq<Frame>, e: nat)
    requires Numbered(acc) && Numbered(fs) && Bounded(fs, U64) && Bounded(acc, U64)
    requires forall i :: 0 <= i < |acc| ==> acc[i] in fs
    ensures OfEpoch(acc, e) <= OfEpoch(fs, e)
  {
    if acc != [] {
      var n := |acc| - 1;
      NumberedPrefix(acc, n);
      BoundedPrefix(acc[..n], acc, U64);
      EpochPrefix(acc[..n], fs, e);
      if acc[n].epoch == e {
        var j: nat :| j < |fs| && fs[j] == acc[n];
        OfEpochLast(acc, e);
        OfEpochAt(fs, e, j);
        CounterIsPos(acc, n);
        CounterIsPos(fs, j);
      }
    }
  }

  // Numbered frames taken from a log of bounded epochs have bounded epochs themselves.
  lemma BoundedSelection(acc: seq<Frame>, fs: seq<Frame>)
    requires Numbered(acc) && Numbered(fs) && Bounded(fs, U64 - 1)
    requires forall i :: 0 <= i < |acc| ==> acc[i] in fs
    ensures Bounded(acc, U64 - 1)
  {
    forall i: nat | i < |acc| ensures Pos(acc, i) < U64 - 1 { PositionBelow(acc, fs, i); }
  }

  lemma {:induction false} PositionBelow(acc: seq<Frame>, fs: seq<Frame>, i: nat)
    requires Numbered(acc) && Numbered(fs) && Bounded(fs, U64 - 1) && i < |acc|
    requires forall i :: 0 <= i < |acc| ==> acc[i] in fs
    ensures Pos(acc, i) < U64 - 1
  {
    if i > 0 && acc[i].epoch == acc[i - 1].epoch {
      PositionBelow(acc, fs, i - 1);
      CounterIsPos(acc, i);
      var j: nat :| j < |fs| && fs[j] == acc[i];
      CounterIsPos(fs, j);
      assert Pos(fs, j) < U64 - 1;
    }
  }

  /** Towards the client: what it accepted is a prefix of what the host sealed, in every run. */
  lemma ClientAcceptsPrefix(ws: seq<World>, acts: seq<Action>, v2: bool)
    requires Run(ws, acts) && ws[0] == Established(v2)
    requires var w := ws[|acts|]; Bounded(Frames(w.up), U64 - 1) && Bounded(Frames(w.down), U64 - 1)
    ensures ws[|acts|].downAcc <= Frames(ws[|acts|].down)
  {
    var p := RunCore(ws, acts, v2);
  }

  /**
    Towards the host: in every run the accepted frames are, epoch after epoch, a prefix of what the
    client sealed in that epoch.
  */
  lemma HostAcceptsEpochPrefixes(ws: seq<World>, acts: seq<Action>, v2: bool, e: nat)
    requires Run(ws, acts) && ws[0] == Established(v2)
    requires var w := ws[|acts|]; Bounded(Frames(w.up), U64 - 1) && Bounded(Frames(w.down), U64 - 1)
    ensures Ascending(ws[|acts|].upAcc)
    ensures OfEpoch(ws[|acts|].upAcc, e) <= OfEpoch(Frames(ws[|acts|].up), e)
  {
    var p := RunCore(ws, acts, v2);
    var acc, fs := ws[|acts|].upAcc, Frames(ws[|acts|].up);
    BoundedSelection(acc, fs);
    assert forall i: nat :: i < |fs| ==> Pos(fs, i) < U64;
    assert forall i: nat :: i < |acc| ==> Pos(acc, i) < U64;
    EpochPrefix(acc, fs, e);
    forall i, j | 0 <= i <= j < |acc| ensures acc[i].epoch <= acc[j].epoch { EpochsAscend(acc, i, j); }
  }
}
