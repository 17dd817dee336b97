/**
  Requests get their answers. What the host puts on the channel for a request it handled, and how the
  get() that asked ends once that has been read.
*/
module DispatchProgress {
  import opened Options
  import opened Bytes
  import opened EndpointKinds
  import opened Dispatch

  // The one RESPONSE to this request, if the channel has exactly that for it.
  predicate Responded(s: State, id: nat, reply: Reply) {
    Own(s.down, id) == [Response(id, reply)]
  }

  predicate Unary(f: Facts) {
    f.kind in {Some(Receive), Some(Send)}
  }

  // A request that is handled while the host lives and wants to hear about it.
  ghost predicate Heard(s: State, id: nat) {
    && id in s.handled && s.hostAlive
    && !s.handled[id].request.oneway && s.handled[id].request.endpoint != UNSUBSCRIBE
  }

  lemma HandledIsAnswered(ss: seq<State>, acts: seq<Action>, n: nat, id: nat)
    requires Run(ss, acts) && n <= |acts| && id in ss[n].handled && ss[n].hostAlive
    ensures var h := ss[n].handled[id];
            && h.request.id == id && h.verdict == Decide(h.request, h.facts)
            && (h.verdict !in {Subscribed, Streams} ==> Own(ss[n].down, id) == Answer(h))
            && (h.verdict in {Subscribed, Streams} ==> ChunkRun(Own(ss[n].down, id), id, false))
  {
    RunFine(ss[..n + 1], acts[..n], id);
    var v := LifeOf(ss[n], id);
    assert FineHandled(v, v.handled.value, id);
    hide Own, Decide, Answer;
  }

  /**
    Answers, exactly. While the host lives, a request it has handled - not a oneway one and not for the
    internal endpoint - has exactly one RESPONSE on the channel if and only if there is no such endpoint,
    the caller is not authorized, the endpoint is unary or takes a stream, or it is a topic and the
    connection has no subscription left; and the RESPONSE says which.
  */
  lemma AnsweredIff(ss: seq<State>, acts: seq<Action>, n: nat, id: nat)
    requires Run(ss, acts) && n <= |acts| && Heard(ss[n], id)
    ensures var s, f := ss[n], ss[n].handled[id].facts;
            && ((exists reply :: Responded(s, id, reply)) <==>
                  || f.kind.None? || !f.authorized || Unary(f) || f.kind == Some(StreamReceive) || (f.kind == Some(Topic) && f.full))
            && (f.kind.None? ==> Responded(s, id, Reply(2, [])))
            && (f.kind.Some? && !f.authorized ==> Responded(s, id, Reply(3, Raw("access denied"))))
            && (f.authorized && Unary(f) ==> Responded(s, id, Reply(if f.result.ok then 0 else 1, f.result.data)))
            && (f.authorized && f.kind == Some(StreamReceive) ==> Responded(s, id, Reply(1, Raw("wrong call shape"))))
            && (f.authorized && f.kind == Some(Topic) && f.full ==> Responded(s, id, Reply(1, Raw("subscription limit exceeded"))))
  {
    HandledIsAnswered(ss, acts, n, id);
    var h := ss[n].handled[id];
    hide Own, Raw, Run;
    if h.verdict in {Subscribed, Streams} {
      var own := Own(ss[n].down, id);
      assert own != [] ==> own[0].Chunk?;
    } else if Answer(h) != [] {
      assert Responded(ss[n], id, Answer(h)[0].reply);
    }
  }

  // ---- what the client has read ----------------------------------------------

  // A get() that waits has the answer that was read for it, and asked for one.
  ghost predicate Collected(s: State, id: nat) {
    id in s.pending ==>
      && id in s.asked && !s.asked[id].oneway
      && forall k :: 0 <= k < s.seen && k < |s.down| && s.down[k].Response? && s.down[k].id == id ==> s.pending[id] == Some(s.down[k].reply)
  }

  lemma {:induction false} TwoOwn(log: seq<Frame>, i: nat, j: nat)
    requires i < j < |log| && log[i].id == log[j].id
    ensures |Own(log, log[i].id)| >= 2
  {
    var n := |log| - 1;
    if j < n {
      TwoOwn(log[..n], i, j);
    } else {
      OwnHas(log[..n], i);
      assert log[..n][i] == log[i];
    }
  }

  // A RESPONSE is the only frame for its request.
  lemma OnlyResponse(ss: seq<State>, acts: seq<Action>, n: nat, i: nat, j: nat)
    requires Run(ss, acts) && n <= |acts| && i < |ss[n].down| && j < |ss[n].down|
    requires ss[n].down[i].Response? && ss[n].down[j].id == ss[n].down[i].id
    ensures i == j && ss[n].down[i].id in ss[n].asked
  {
    var down, id := ss[n].down, ss[n].down[i].id;
    OneAnswer(ss, acts, n, id);
    hide Run;
    OwnHas(down, i);
    if i < j { TwoOwn(down, i, j); } else if j < i { TwoOwn(down, j, i); }
  }

  // Only asking and reading make a get() wait for something else.
  lemma PendingStays(s: State, a: Action, id: nat)
    requires Allowed(s, a) && id in After(s, a).pending && !a.Read? && !(a.Ask? && id == s.nextId)
    ensures id in s.pending && After(s, a).pending[id] == s.pending[id] && After(s, a).seen == s.seen
    ensures id in s.asked ==> id in After(s, a).asked && After(s, a).asked[id] == s.asked[id]
  {
    hide Down, OutcomeOf, Answer, Decide, SubsAfter, Next;
  }

  lemma CollectedNext(ss: seq<State>, acts: seq<Action>, n: nat, id: nat)
    requires Run(ss, acts) && n < |acts| && Books(ss[n]) && Collected(ss[n], id)
    ensures Collected(ss[n + 1], id)
  {
    var s, a, t := ss[n], acts[n], ss[n + 1];
    assert Allowed(s, a) && t == After(s, a);
    DownGrows(s, a);
    assert s.seen <= |s.down| && forall i :: i in s.asked ==> i < s.nextId;
    hide Run, Books, Take;
    if id in t.pending {
      if a.Ask? && id == s.nextId {
        AskedLast(ss, acts, n, id);
      } else if a.Read? {
        ReadCollects(ss, acts, n, id);
      } else {
        PendingStays(s, a, id);
        hide After, Allowed;
        assert forall k :: 0 <= k < |s.down| ==> t.down[k] == s.down[k];
      }
    }
  }

  lemma AskedLast(ss: seq<State>, acts: seq<Action>, n: nat, id: nat)
    requires Run(ss, acts) && n <= |acts| && id !in ss[n].asked
    ensures forall k :: 0 <= k < |ss[n].down| && ss[n].down[k].Response? ==> ss[n].down[k].id != id
  {
    forall k | 0 <= k < |ss[n].down| && ss[n].down[k].Response? ensures ss[n].down[k].id != id { OnlyResponse(ss, acts, n, k, k); }
  }

  lemma ReadCollects(ss: seq<State>, acts: seq<Action>, n: nat, id: nat)
    requires Run(ss, acts) && n < |acts| && acts[n] == Read && Collected(ss[n], id) && Allowed(ss[n], Read)
    requires id in After(ss[n], Read).pending
    ensures Collected(After(ss[n], Read), id)
  {
    var s := ss[n];
    hide Run;
    forall k | 0 <= k < s.seen && s.down[k].Response? && s.down[k].id == id ensures s.down[s.seen].id != id {
      if s.down[s.seen].id == id { OnlyResponse(ss, acts, n, k, s.seen); }
    }
  }

  lemma DownGrows(s: State, a: Action)
    requires Allowed(s, a)
    ensures s.down <= After(s, a).down
  {
    hide Answer, Decide;
  }

  lemma {:induction false} RunCollected(ss: seq<State>, acts: seq<Action>, n: nat, id: nat)
    requires Run(ss, acts) && n <= |acts|
    ensures Collected(ss[n], id)
  {
    if n > 0 {
      RunCollected(ss, acts, n - 1, id);
      RunFine(ss[..n], acts[..n - 1], id);
      hide Books, Collected;
      CollectedNext(ss, acts, n - 1, id);
    }
  }

  // How a get() should end, by what the host found.
  predicate EndsAs(o: Outcome, f: Facts) {
    match f.kind
    case None => o == NotFound
    case Some(kind) =>
      if !f.authorized then o == AccessDenied
      else match kind
      case Topic => f.full && o == Protocol(Raw("subscription limit exceeded"))
      case StreamSend => false
      case StreamReceive => o == Protocol(Raw("wrong call shape"))
      case _ => o == if f.result.ok then Data(f.result.data) else Protocol(f.result.data)
  }

  /**
    A get() that is collected after the RESPONSE to its request was read ends with what the host found:
    the data of the handler, or the reason there is none. It never ends as lost.
  */
  lemma GetEndsWithItsResult(ss: seq<State>, acts: seq<Action>, n: nat, id: nat, k: nat)
    requires Run(ss, acts) && n < |acts| && acts[n] == Collect(id)
    requires k < ss[n].seen && k < |ss[n].down| && ss[n].down[k].Response? && ss[n].down[k].id == id
    ensures id in ss[n].handled && id in ss[n + 1].outcomes && EndsAs(ss[n + 1].outcomes[id], ss[n].handled[id].facts)
  {
    var s, t := ss[n], ss[n + 1];
    assert t == After(s, acts[n]);
    RunCollected(ss, acts, n, id);
    assert t.outcomes[id] == OutcomeOf(s.down[k].reply);
    hide Run, Own, Raw, Answer, Decide, OutcomeOf;
    OneAnswer(ss, acts, n, id);
    OwnHas(s.down, k);
    HandledFine(ss, acts, n, id);
    assert Own(s.down, id) == [s.down[k]];
    ReplySays(s.handled[id], s.down[k].reply);
  }

  lemma HandledFine(ss: seq<State>, acts: seq<Action>, n: nat, id: nat)
    requires Run(ss, acts) && n <= |acts| && id in ss[n].handled
    ensures var h := ss[n].handled[id]; h.request.id == id && h.verdict == Decide(h.request, h.facts)
  {
    RunFine(ss[..n + 1], acts[..n], id);
    assert FineHandled(LifeOf(ss[n], id), ss[n].handled[id], id);
    hide Own, Decide, Answer;
  }

  lemma ReplySays(h: Handled, reply: Reply)
    requires h.verdict == Decide(h.request, h.facts) && Answer(h) == [Response(h.request.id, reply)]
    ensures EndsAs(OutcomeOf(reply), h.facts)
  {
    hide Raw;
    assert Answer(h)[0].reply == reply;
  }

  // ---- a get() from its start to its end -------------------------------------

  // The facts that call for a RESPONSE.
  predicate CallsForResponse(f: Facts) {
    f.kind.None? || !f.authorized || Unary(f) || f.kind == Some(StreamReceive) || (f.kind == Some(Topic) && f.full)
  }

  // Both ends live, and nothing is on its way.
  ghost predicate Quiet(s: State) {
    s.alive && s.hostAlive && s.thread == Waiting && s.taken == |s.sent| && s.seen == |s.down|
  }

  lemma RequestArrives(s: State, endpoint: string, data: seq<byte>)
    requires Books(s) && Quiet(s)
    ensures var r := Request(s.nextId, false, endpoint, data);
            && Allowed(s, Ask(true, false, endpoint, data))
            && var s1 := After(s, Ask(true, false, endpoint, data));
               && Allowed(s1, Post(r.id))
               && var s2 := After(s1, Post(r.id));
                  && s2.sent == s.sent + [r] && s2.taken == |s.sent| && s2.thread == Waiting && s2.hostAlive && s2.alive
                  && s2.down == s.down && s2.seen == |s.down| && r.id !in s2.unsent
                  && r.id in s2.pending && s2.pending[r.id] == None
  {
  }

  lemma ResponseArrives(s: State, r: Request, f: Facts)
    requires s.thread == Waiting && s.taken < |s.sent| && s.sent[s.taken] == r && s.alive && s.hostAlive
    requires s.seen == |s.down| && r.id !in s.unsent && r.id in s.pending
    requires !r.oneway && r.endpoint != UNSUBSCRIBE && CallsForResponse(f)
    ensures Allowed(s, Serve(f))
    ensures var s1 := After(s, Serve(f));
            && Allowed(s1, Read)
            && var s2 := After(s1, Read);
               && Allowed(s2, Collect(r.id))
               && var s3 := After(s2, Collect(r.id));
                  && r.id in s3.outcomes && EndsAs(s3.outcomes[r.id], f) && r.id !in s3.pending
                  && (|s.sent| == s.taken + 1 ==> Quiet(s3))
  {
    hide After, Raw, Own;
    ServeResponds(s, r, f);
    ReadAndCollect(After(s, Serve(f)), r.id);
  }

  lemma ServeResponds(s: State, r: Request, f: Facts)
    requires Allowed(s, Serve(f)) && s.sent[s.taken] == r && s.hostAlive
    requires !r.oneway && r.endpoint != UNSUBSCRIBE && CallsForResponse(f)
    ensures var t := After(s, Serve(f));
            && t.alive == s.alive && t.seen == s.seen && t.unsent == s.unsent && t.pending == s.pending
            && t.hostAlive && t.thread == Waiting && t.sent == s.sent && t.taken == s.taken + 1
            && |t.down| == |s.down| + 1 && t.down[|s.down|].Response? && t.down[|s.down|].id == r.id
            && EndsAs(OutcomeOf(t.down[|s.down|].reply), f)
  {
    hide Raw, SubsAfter;
  }

  lemma ReadAndCollect(s: State, id: nat)
    requires s.alive && |s.down| == s.seen + 1 && s.down[s.seen].Response? && s.down[s.seen].id == id
    requires id !in s.unsent && id in s.pending
    ensures Allowed(s, Read)
    ensures var t := After(s, Read);
            && Allowed(t, Collect(id))
            && var u := After(t, Collect(id));
               && id in u.outcomes && u.outcomes[id] == OutcomeOf(s.down[s.seen].reply) && id !in u.pending
               && u == s.(seen := |s.down|, pending := u.pending, outcomes := u.outcomes)
  {
    hide OutcomeOf;
  }

  /**
    A get() goes through: from any reachable state in which both ends live and nothing is on its way,
    asking, posting, serving, reading and collecting are possible one after the other, the get() ends
    with what the host finds, and nothing is on its way again.
  */
  lemma GetGoesThrough(ss: seq<State>, acts: seq<Action>, endpoint: string, data: seq<byte>, f: Facts) returns (ts: seq<State>)
    requires Run(ss, acts) && Quiet(ss[|acts|]) && endpoint != UNSUBSCRIBE && CallsForResponse(f)
    ensures var id := ss[|acts|].nextId;
            var more := [Ask(true, false, endpoint, data), Post(id), Serve(f), Read, Collect(id)];
            && |ts| == 6 && ts[0] == ss[|acts|]
            && (forall i :: 0 <= i < 5 ==> Allowed(ts[i], more[i]) && ts[i + 1] == After(ts[i], more[i]))
            && id in ts[5].outcomes && EndsAs(ts[5].outcomes[id], f) && Quiet(ts[5])
  {
    hide Books, After, Allowed, CallsForResponse, EndsAs;
    RunFine(ss, acts, 0);
    hide Run;
    var s := ss[|acts|];
    var id := s.nextId;
    RequestArrives(s, endpoint, data);
    var s1 := After(s, Ask(true, false, endpoint, data));
    var s2 := After(s1, Post(id));
    ResponseArrives(s2, Request(id, false, endpoint, data), f);
    var s3 := After(s2, Serve(f));
    var s4 := After(s3, Read);
    ts := [s, s1, s2, s3, s4, After(s4, Collect(id))];
  }

  /** When the connection is lost, every get() that still waits ends: with its answer, if it is there, or as lost. */
  lemma LossEndsEveryGet(s: State, id: nat)
    requires id in s.pending && id !in s.unsent
    ensures var t := After(s, ReaderDies);
            && Allowed(t, Collect(id)) && !Allowed(t, TimesOut(id))
            && var o := After(t, Collect(id)).outcomes[id];
               if s.pending[id].None? then o == Transport else o == OutcomeOf(s.pending[id].value)
  {
    hide OutcomeOf;
  }

  /** A request whose write failed is given up: its get() ends as lost, and it is never sent. No other get() is touched. */
  lemma FailedIsGivenUp(s: State, id: nat)
    requires id in s.unsent
    ensures Allowed(s, PostFails(id))
    ensures var t := After(s, PostFails(id));
            && !Allowed(t, Post(id)) && t.sent == s.sent && id !in t.pending && t.pending.Keys == s.pending.Keys - {id}
            && (id in s.pending ==> id in t.outcomes && t.outcomes[id] == Transport)
            && (forall k :: k in s.pending && k != id ==> t.pending[k] == s.pending[k])
  {
  }

  // ---- feeds and streams -----------------------------------------------------

  /**
    What a request starts. A subscription begins, at number 0, exactly for an authorized request to a
    topic that exists, within the limit; a stream exactly for an authorized request to a streaming
    endpoint; and no other subscription changes.
  */
  lemma RequestStarts(s: State, f: Facts)
    requires Allowed(s, Serve(f)) && s.sent[s.taken].endpoint != UNSUBSCRIBE
    ensures var r, t := s.sent[s.taken], After(s, Serve(f));
            && (f.authorized && f.kind == Some(Topic) && !f.full && f.topic ==> t.subs == s.subs[r.id := 0])
            && (!(f.authorized && f.kind == Some(Topic) && !f.full && f.topic) ==> t.subs == s.subs)
            && t.thread == if f.authorized && f.kind == Some(StreamSend) then Streaming(r.id, 0) else Waiting
  {
    hide Answer;
  }

  /**
    A request to the internal endpoint drops the subscription that its eight bytes name, and no other;
    with any other payload it does nothing. It is never answered.
  */
  lemma UnsubscribeDrops(s: State, f: Facts)
    requires Allowed(s, Serve(f)) && s.sent[s.taken].endpoint == UNSUBSCRIBE
    ensures var data, t := s.sent[s.taken].data, After(s, Serve(f));
            && t.down == s.down && t.thread == Waiting
            && (forall k: Uint64 :: data == Be(k, 8) ==> t.subs == s.subs - {k})
            && (|data| != 8 ==> t.subs == s.subs)
  {
    forall k: Uint64 | s.sent[s.taken].data == Be(k, 8) ensures ValueOf(Be(k, 8)) == k { RoundTrip64(k); }
  }

  // What was written for this request while the host lived: by its stream handler, or by a publisher.
  ghost function Written(ss: seq<State>, acts: seq<Action>, n: nat, id: nat): seq<seq<byte>>
    requires n <= |acts| < |ss|
  {
    if n == 0 then [] else Written(ss, acts, n - 1, id) + WrittenBy(ss[n - 1], acts[n - 1], id)
  }

  function WrittenBy(s: State, a: Action, id: nat): seq<seq<byte>> {
    match a
    case Emit(data) => if s.hostAlive && s.thread.Streaming? && s.thread.id == id then [data] else []
    case Publish(i, data) => if s.hostAlive && i == id then [data] else []
    case _ => []
  }

  // The data of the chunks, but for a last one.
  function DataOf(log: seq<Frame>): seq<seq<byte>> {
    if log == [] then []
    else
      var f := log[|log| - 1];
      DataOf(log[..|log| - 1]) + (if f.Chunk? && !f.last then [f.data] else [])
  }

  lemma DataAppend(log: seq<Frame>, f: Frame)
    ensures DataOf(log + [f]) == DataOf(log) + (if f.Chunk? && !f.last then [f.data] else [])
  {
    assert (log + [f])[..|log|] == log;
  }

  lemma StepWrites(s: State, a: Action, id: nat)
    requires Allowed(s, a)
    ensures DataOf(Own(After(s, a).down, id)) == DataOf(Own(s.down, id)) + WrittenBy(s, a, id)
  {
    hide Own, DataOf, Decide, ReplyFor, SubsAfter, Next;
    var t := After(s, a);
    if t.down == s.down {
    } else {
      var f := t.down[|s.down|];
      assert t.down == s.down + [f];
      OwnAppend(s.down, f, id);
      DataAppend(Own(s.down, id), f);
    }
  }

  /**
    The chunks of a stream or a feed carry exactly what the handler or the publishers wrote for it while
    the host lived, in that order.
  */
  lemma {:induction false} ChunksCarryTheData(ss: seq<State>, acts: seq<Action>, n: nat, id: nat)
    requires Run(ss, acts) && n <= |acts|
    ensures DataOf(Own(ss[n].down, id)) == Written(ss, acts, n, id)
  {
    if n > 0 {
      ChunksCarryTheData(ss, acts, n - 1, id);
      hide After, Own, DataOf;
      StepWrites(ss[n - 1], acts[n - 1], id);
    }
  }
}
