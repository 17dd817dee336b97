/**
  Ends that did not come out of the handshake alike. With different protocol versions the 9-byte
  associated data of one never matches the 10-byte associated data of the other; with ephemerals
  that are not one another's, the keys differ. Either way neither end ever accepts a frame.
*/
module SessionVersions {
  import opened Options
  import opened Endpoints
  import opened Session
  import opened SessionAdversary

  // The network's power, as for matching ends but with any epoch in the header.
  ghost predicate Feasible(w: World, f: Frame) {
    f.body.Sealed? ==>
      || Seen(w.up, f.body) || Seen(w.down, f.body)
      || f.body.box.key.client.Rogue? || f.body.box.key.host.Rogue?
  }

  ghost predicate Run(ws: seq<World>, acts: seq<Action>) {
    && |ws| == |acts| + 1
    && forall i :: 0 <= i < |acts| ==>
         && Enabled(ws[i], acts[i]) && ws[i + 1] == Step(ws[i], acts[i])
         && (acts[i].ClientReceive? || acts[i].HostReceive? ==> Feasible(ws[i], acts[i].f))
  }

  ghost predicate SealedBy(log: seq<Entry>, v2: bool, key: Key) {
    forall i :: 0 <= i < |log| ==>
      log[i].frame.body.Sealed? && log[i].frame.body.box.v2 == v2 && log[i].frame.body.box.key == key
  }

  // A key that the network cannot seal under.
  ghost predicate Private(k: Key, dir: Direction) {
    !k.client.Rogue? && !k.host.Rogue? && k.dir == dir
  }

  // Nothing one end seals opens at the other.
  ghost predicate Apart(w: World) {
    || w.client.v2 != w.host.v2
    || (w.client.tx != w.host.rx.key && w.host.tx != w.client.rx.key)
  }

  ghost predicate Deaf(w: World) {
    && Apart(w) && w.upAcc == [] && w.downAcc == []
    && SealedBy(w.up, w.client.v2, w.client.tx) && SealedBy(w.down, w.host.v2, w.host.tx)
    && w.client.tx.dir == ToHost && w.host.tx.dir == ToClient
    && w.client.rx.pending.None? && w.host.rx.pending.None? && w.client.switching.None?
    && Private(w.client.rx.key, ToClient) && Private(w.host.rx.key, ToHost)
  }

  lemma StepDeaf(w: World, a: Action)
    requires Deaf(w) && Enabled(w, a)
    requires a.ClientReceive? || a.HostReceive? ==> Feasible(w, a.f)
    ensures Deaf(Step(w, a))
  {
    if a.ClientReceive? {
      assert OpenChecked(w.client.v2, w.client.rx, a.f).None?;
    } else if a.HostReceive? {
      assert OpenChecked(w.host.v2, w.host.rx, a.f).None?;
    }
  }

  // Do the two ends share a version and mirrored keys?
  predicate Alike(clientV2: bool, hostV2: bool, clientPeer: Eph, hostPeer: Eph) {
    clientV2 == hostV2 && clientPeer == Honest(1) && hostPeer == Honest(0)
  }

  lemma {:induction false} StaysDeaf(ws: seq<World>, acts: seq<Action>)
    requires Run(ws, acts) && Deaf(ws[0])
    ensures Deaf(ws[|acts|])
  {
    if |acts| > 0 {
      var n := |acts| - 1;
      StaysDeaf(ws[..n + 1], acts[..n]);
      StepDeaf(ws[n], acts[n]);
    }
  }

  /**
    Two ends whose ephemerals are not the network's are either established - one version, mirrored
    keys - or never accept a sealed frame, in either direction, in any run.
  */
  lemma AlikeOrDeaf(ws: seq<World>, acts: seq<Action>, cv2: bool, hv2: bool, cPeer: Eph, hPeer: Eph)
    requires Run(ws, acts) && ws[0] == Opened(cv2, hv2, cPeer, hPeer) && !cPeer.Rogue? && !hPeer.Rogue?
    ensures if Alike(cv2, hv2, cPeer, hPeer) then ws[0] == Established(cv2)
            else ws[|acts|].upAcc == [] && ws[|acts|].downAcc == [] && Deaf(ws[|acts|])
  {
    if !Alike(cv2, hv2, cPeer, hPeer) {
      assert Deaf(ws[0]);
      StaysDeaf(ws, acts);
    }
  }

  // In particular with different versions.
  lemma VersionsMustMatch(ws: seq<World>, acts: seq<Action>, v2: bool, cPeer: Eph, hPeer: Eph)
    requires Run(ws, acts) && ws[0] == Opened(v2, !v2, cPeer, hPeer) && !cPeer.Rogue? && !hPeer.Rogue?
    ensures ws[|acts|].upAcc == [] && ws[|acts|].downAcc == []
  {
    AlikeOrDeaf(ws, acts, v2, !v2, cPeer, hPeer);
  }
}
