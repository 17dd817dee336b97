/**
  Requests and their answers on one connection. The two channels are ordered and lossless, which is
  what the session gives: `sent` and `down` are all frames written so far, `taken` and `seen` how far
  the other side has read. What a handler does, who is authorized, and when a wait runs out are
  parameters of the steps.
*/
module Dispatch {
  import opened Options
  import opened Bytes
  import opened EndpointKinds

  const UNSUBSCRIBE := "$epx/unsubscribe"

  datatype Request = Request(id: nat, oneway: bool, endpoint: string, data: seq<byte>)

  datatype Reply = Reply(status: nat, data: seq<byte>)

  datatype Frame =
    | Response(id: nat, reply: Reply)
    | Chunk(id: nat, seqNo: nat, last: bool, data: seq<byte>)

  // What a unary handler returns.
  datatype Result = Result(ok: bool, data: seq<byte>)

  // What the host finds out about a request while it handles it.
  datatype Facts = Facts(kind: Option<Kind>, authorized: bool, full: bool, topic: bool, result: Result)

  datatype Verdict = Internal | Missing | Refused | LimitReached | NoTopic | Subscribed | Ran(result: Result) | Streams | WrongShape

  datatype Handled = Handled(request: Request, facts: Facts, verdict: Verdict)

  // How a get() ends.
  datatype Outcome = Data(data: seq<byte>) | NotFound | AccessDenied | Protocol(message: seq<byte>) | Timeout | Transport

  datatype Thread = Waiting | Streaming(id: nat, seqNo: nat)

  datatype State = State(
    // the client
    nextId: nat, unsent: set<nat>, pending: map<nat, Option<Reply>>, alive: bool, seen: nat,
    // the channels
    sent: seq<Request>, down: seq<Frame>,
    // the host
    taken: nat, thread: Thread, subs: map<nat, nat>, hostAlive: bool,
    // history: what was asked, what the host made of it, and how each get() ended
    asked: map<nat, Request>, handled: map<nat, Handled>, outcomes: map<nat, Outcome>)

  const START := State(1, {}, map[], true, 0, [], [], 0, Waiting, map[], true, map[], map[], map[])

  // ---- the host --------------------------------------------------------------

  // The branches of the request loop, in order.
  function Decide(r: Request, f: Facts): Verdict {
    if r.endpoint == UNSUBSCRIBE then Internal
    else match f.kind
    case None => Missing
    case Some(kind) =>
      if !f.authorized then Refused
      else match kind
      case Topic => if f.full then LimitReached else if f.topic then Subscribed else NoTopic
      case Receive => Ran(f.result)
      case Send => Ran(f.result)
      case StreamSend => Streams
      case StreamReceive => WrongShape
  }

  // The RESPONSE that a verdict calls for, if any.
  function ReplyFor(v: Verdict): Option<Reply> {
    match v
    case Missing => Some(Reply(2, []))
    case Refused => Some(Reply(3, Raw("access denied")))
    case LimitReached => Some(Reply(1, Raw("subscription limit exceeded")))
    case Ran(result) => Some(Reply(if result.ok then 0 else 1, result.data))
    case WrongShape => Some(Reply(1, Raw("wrong call shape")))
    case _ => None
  }

  function Answer(h: Handled): seq<Frame> {
    match ReplyFor(h.verdict)
    case Some(reply) => if h.request.oneway then [] else [Response(h.request.id, reply)]
    case None => []
  }

  // A dead connection swallows what is sent.
  function Down(s: State, f: seq<Frame>): seq<Frame> {
    if s.hostAlive then s.down + f else s.down
  }

  function Dropped(r: Request): Option<nat> {
    if r.endpoint == UNSUBSCRIBE && |r.data| == 8 then Some(ValueOf(r.data)) else None
  }

  function Take(s: State, f: Facts): State
    requires s.taken < |s.sent|
  {
    var r := s.sent[s.taken];
    var h := Handled(r, f, Decide(r, f));
    s.(taken := s.taken + 1, handled := s.handled[r.id := h], down := Down(s, Answer(h)),
       thread := if h.verdict == Streams then Streaming(r.id, 0) else s.thread,
       subs := SubsAfter(s.subs, h))
  }

  function SubsAfter(subs: map<nat, nat>, h: Handled): map<nat, nat> {
    match h.verdict
    case Subscribed => subs[h.request.id := 0]
    case Internal => (match Dropped(h.request) case Some(k) => subs - {k} case None => subs)
    case _ => subs
  }

  function Next(n: nat): nat {
    (n + 1) % TWO32
  }

  // ---- the client ------------------------------------------------------------

  function OutcomeOf(r: Reply): Outcome {
    if r.status == 2 then NotFound
    else if r.status == 3 then AccessDenied
    else if r.status == 1 then Protocol(r.data)
    else Data(r.data)
  }

  // ---- the steps -------------------------------------------------------------

  datatype Action =
    | Ask(waits: bool, oneway: bool, endpoint: string, data: seq<byte>)
    | Post(id: nat)
    | PostFails(id: nat)
    | Serve(facts: Facts)
    | Emit(data: seq<byte>)
    | EndStream
    | Publish(id: nat, data: seq<byte>)
    | CloseFeed(id: nat)
    | Prune(id: nat)
    | HostDies
    | Read
    | ReaderDies
    | TimesOut(id: nat)
    | Collect(id: nat)

  ghost predicate Allowed(s: State, a: Action) {
    match a
    case Ask(waits, oneway, _, _) => waits ==> !oneway
    case Post(id) => id in s.unsent && id in s.asked
    case PostFails(id) => id in s.unsent
    case Serve(_) => s.thread == Waiting && s.taken < |s.sent|
    case Emit(_) => s.thread.Streaming?
    case EndStream => s.thread.Streaming?
    case Publish(id, _) => id in s.subs
    case CloseFeed(id) => id in s.subs
    case Prune(id) => true
    case HostDies => true
    case Read => s.alive && s.seen < |s.down|
    case ReaderDies => true
    case TimesOut(id) => s.alive && id in s.pending && s.pending[id] == None && id !in s.unsent
    case Collect(id) => id in s.pending && (s.pending[id].Some? || !s.alive) && id !in s.unsent
  }

  function Ends(s: State, id: nat, o: Outcome): State {
    s.(pending := s.pending - {id}, outcomes := s.outcomes[id := o])
  }

  function After(s: State, a: Action): State
    requires Allowed(s, a)
  {
    match a
    case Ask(waits, oneway, endpoint, data) =>
      var id := s.nextId;
      s.(nextId := id + 1, unsent := s.unsent + {id}, asked := s.asked[id := Request(id, oneway, endpoint, data)],
         pending := if waits then s.pending[id := None] else s.pending)
    case Post(id) => s.(unsent := s.unsent - {id}, sent := s.sent + [s.asked[id]])
    case PostFails(id) =>
      s.(unsent := s.unsent - {id}, pending := s.pending - {id},
         outcomes := if id in s.pending then s.outcomes[id := Transport] else s.outcomes)
    case Serve(facts) => Take(s, facts)
    case Emit(data) =>
      var Streaming(id, n) := s.thread;
      s.(down := Down(s, [Chunk(id, n, false, data)]), thread := Streaming(id, Next(n)))
    case EndStream =>
      var Streaming(id, n) := s.thread;
      s.(down := Down(s, [Chunk(id, n, true, [])]), thread := Waiting)
    case Publish(id, data) =>
      s.(down := Down(s, [Chunk(id, s.subs[id], false, data)]), subs := s.subs[id := Next(s.subs[id])])
    case CloseFeed(id) => s.(down := Down(s, [Chunk(id, s.subs[id], true, [])]), subs := s.subs - {id})
    case Prune(id) => s.(subs := s.subs - {id})
    case HostDies => s.(hostAlive := false)
    case Read =>
      var f := s.down[s.seen];
      s.(seen := s.seen + 1,
         pending := if f.Response? && f.id in s.pending then s.pending[f.id := Some(f.reply)] else s.pending)
    case ReaderDies => s.(alive := false)
    case TimesOut(id) => Ends(s, id, Timeout)
    case Collect(id) => Ends(s, id, if s.pending[id].Some? then OutcomeOf(s.pending[id].value) else Transport)
  }

  ghost predicate Run(ss: seq<State>, acts: seq<Action>) {
    && |ss| == |acts| + 1 && ss[0] == START
    && forall i :: 0 <= i < |acts| ==> Allowed(ss[i], acts[i]) && ss[i + 1] == After(ss[i], acts[i])
  }

  // ---- the books: which requests there are, and how far they have got ---------

  ghost predicate Books(s: State) {
    && s.taken <= |s.sent| && s.seen <= |s.down|
    && (forall id :: id in s.asked ==> id < s.nextId && s.asked[id].id == id)
    && (forall id :: id in s.unsent ==> id in s.asked && id !in s.handled)
    && (forall id :: id in s.handled ==> id in s.asked && s.handled[id].request == s.asked[id])
    && (forall i :: 0 <= i < |s.sent| ==> Booked(s, i))
    && (forall i, j :: 0 <= i < j < |s.sent| ==> s.sent[i].id != s.sent[j].id)
  }

  ghost predicate Booked(s: State, i: nat)
    requires i < |s.sent|
  {
    var r := s.sent[i];
    r.id in s.asked && s.asked[r.id] == r && r.id !in s.unsent && (r.id in s.handled <==> i < s.taken)
  }

  lemma BooksKept(s: State, a: Action)
    requires Books(s) && Allowed(s, a)
    ensures Books(After(s, a))
  {
    hide Books, Take;
    if a.Serve? {
      TakeBooks(s, a.facts);
    } else if a.Post? || a.Ask? {
      SendBooks(s, a);
    } else {
      LeavesBooks(s, a);
      hide After;
      SameBooksKept(s, After(s, a));
    }
  }

  // Nothing that the books are about changes, but that a request may be given up unsent.
  ghost predicate SameBooks(s: State, t: State) {
    && t.nextId == s.nextId && t.sent == s.sent && t.taken == s.taken && t.asked == s.asked && t.handled == s.handled
    && t.unsent <= s.unsent && (s.seen <= |s.down| ==> t.seen <= |t.down|)
  }

  lemma LeavesBooks(s: State, a: Action)
    requires Allowed(s, a) && !a.Serve? && !a.Post? && !a.Ask?
    ensures SameBooks(s, After(s, a))
  {
    hide Take, OutcomeOf, Next;
  }

  lemma SameBooksKept(s: State, t: State)
    requires Books(s) && SameBooks(s, t)
    ensures Books(t)
  {
    forall i | 0 <= i < |t.sent| ensures Booked(t, i) { assert Booked(s, i); }
  }

  lemma SendBooks(s: State, a: Action)
    requires Books(s) && Allowed(s, a) && (a.Post? || a.Ask?)
    ensures Books(After(s, a))
  {
    var t := After(s, a);
    forall i | 0 <= i < |t.sent| ensures Booked(t, i) {
      if i < |s.sent| { assert Booked(s, i); }
    }
    forall i, j | 0 <= i < j < |t.sent| ensures t.sent[i].id != t.sent[j].id { assert Booked(s, i); }
  }

  lemma TakeBooks(s: State, f: Facts)
    requires Books(s) && s.taken < |s.sent|
    ensures Books(Take(s, f))
  {
    hide Decide, Answer;
    var t := Take(s, f);
    assert Booked(s, s.taken);
    forall i | 0 <= i < |t.sent| ensures Booked(t, i) { assert Booked(s, i); }
  }

  // ---- the life of one request -----------------------------------------------

  // The frames of the host that carry this request id.
  function Own(log: seq<Frame>, id: nat): seq<Frame> {
    if log == [] then []
    else
      var own := Own(log[..|log| - 1], id);
      if log[|log| - 1].id == id then own + [log[|log| - 1]] else own
  }

  lemma OwnAppend(log: seq<Frame>, f: Frame, id: nat)
    ensures Own(log + [f], id) == if f.id == id then Own(log, id) + [f] else Own(log, id)
  {
    assert (log + [f])[..|log|] == log;
  }

  lemma {:induction false} OwnHas(log: seq<Frame>, k: nat)
    requires k < |log|
    ensures log[k] in Own(log, log[k].id)
  {
    if k < |log| - 1 { OwnHas(log[..|log| - 1], k); }
  }

  datatype Life = Life(
    handled: Option<Handled>, own: seq<Frame>, streaming: Option<nat>, sub: Option<nat>, hostAlive: bool,
    slot: Option<Option<Reply>>, outcome: Option<Outcome>)

  function At<T>(m: map<nat, T>, id: nat): Option<T> {
    if id in m then Some(m[id]) else None
  }

  function LifeOf(s: State, id: nat): Life {
    Life(At(s.handled, id), Own(s.down, id), if s.thread.Streaming? && s.thread.id == id then Some(s.thread.seqNo) else None,
         At(s.subs, id), s.hostAlive, At(s.pending, id), At(s.outcomes, id))
  }

  datatype Move =
    | Stay
    | Asks(waits: bool)
    | Gets(h: Handled)
    | Streamed(data: seq<byte>)
    | StreamEnds
    | Published(data: seq<byte>)
    | FeedEnds
    | Unsubscribed
    | Dies
    | Answered(reply: Reply)
    | Done(outcome: Outcome)

  function MoveOf(s: State, a: Action, id: nat): Move
    requires Allowed(s, a)
  {
    match a
    case Ask(waits, _, _, _) => if id == s.nextId then Asks(waits) else Stay
    case Post(_) => Stay
    case PostFails(i) => if i == id && id in s.pending then Done(Transport) else Stay
    case Serve(facts) =>
      var r := s.sent[s.taken];
      if r.id == id then Gets(Handled(r, facts, Decide(r, facts)))
      else if Dropped(r) == Some(id) then Unsubscribed else Stay
    case Emit(data) => if s.thread.id == id then Streamed(data) else Stay
    case EndStream => if s.thread.id == id then StreamEnds else Stay
    case Publish(i, data) => if i == id then Published(data) else Stay
    case CloseFeed(i) => if i == id then FeedEnds else Stay
    case Prune(i) => if i == id then Unsubscribed else Stay
    case HostDies => Dies
    case Read =>
      var f := s.down[s.seen];
      if f.Response? && f.id == id && id in s.pending then Answered(f.reply) else Stay
    case ReaderDies => Stay
    case TimesOut(i) => if i == id then Done(Timeout) else Stay
    case Collect(i) =>
      if i == id then Done(if s.pending[id].Some? then OutcomeOf(s.pending[id].value) else Transport) else Stay
  }

  function Sent(v: Life, f: seq<Frame>): seq<Frame> {
    if v.hostAlive then v.own + f else v.own
  }

  function Moved(v: Life, m: Move, id: nat): Life {
    match m
    case Stay => v
    case Asks(waits) => if waits then v.(slot := Some(None)) else v
    case Gets(h) =>
      v.(handled := Some(h), own := Sent(v, Answer(h)), streaming := if h.verdict == Streams then Some(0) else v.streaming,
         sub := if h.verdict == Subscribed then Some(0) else v.sub)
    case Streamed(data) =>
      if v.streaming.None? then v
      else v.(own := Sent(v, [Chunk(id, v.streaming.value, false, data)]), streaming := Some(Next(v.streaming.value)))
    case StreamEnds =>
      if v.streaming.None? then v else v.(own := Sent(v, [Chunk(id, v.streaming.value, true, [])]), streaming := None)
    case Published(data) =>
      if v.sub.None? then v else v.(own := Sent(v, [Chunk(id, v.sub.value, false, data)]), sub := Some(Next(v.sub.value)))
    case FeedEnds => if v.sub.None? then v else v.(own := Sent(v, [Chunk(id, v.sub.value, true, [])]), sub := None)
    case Unsubscribed => v.(sub := None)
    case Dies => v.(hostAlive := false)
    case Answered(reply) => v.(slot := Some(Some(reply)))
    case Done(outcome) => v.(slot := None, outcome := Some(outcome))
  }

  // A numbered run of chunks with at most one last, the final one.
  ghost predicate ChunkRun(own: seq<Frame>, id: nat, open: bool) {
    forall i :: 0 <= i < |own| ==>
      own[i].Chunk? && own[i].id == id && own[i].seqNo == i % TWO32 && (own[i].last ==> !open && i == |own| - 1)
  }

  // What holds of a request at any time.
  ghost predicate Fine(v: Life, id: nat) {
    && (v.handled.None? ==> v.own == [] && v.streaming.None? && v.sub.None?)
    && (v.handled.Some? ==> v.handled.value.request.id == id && FineHandled(v, v.handled.value, id))
    && (v.slot.Some? && v.slot.value.Some? ==> Response(id, v.slot.value.value) in v.own)
    && (v.outcome.Some? ==> v.outcome.value in {Timeout, Transport} || Explained(v.outcome.value, v.own, id))
  }

  ghost predicate Explained(o: Outcome, own: seq<Frame>, id: nat) {
    exists reply :: Response(id, reply) in own && o == OutcomeOf(reply)
  }

  ghost predicate FineHandled(v: Life, h: Handled, id: nat) {
    && h.verdict == Decide(h.request, h.facts)
    && (v.sub.Some? ==> h.verdict == Subscribed)
    && (v.streaming.Some? ==> h.verdict == Streams)
    && (!h.verdict.Subscribed? && !h.verdict.Streams? ==> v.own <= Answer(h) && (v.hostAlive ==> v.own == Answer(h)))
    && (h.verdict.Subscribed? || h.verdict.Streams? ==>
          ChunkRun(v.own, id, v.hostAlive && (v.sub.Some? || v.streaming.Some?)))
    && (v.hostAlive && v.sub.Some? ==> v.sub.value == |v.own| % TWO32)
    && (v.hostAlive && v.streaming.Some? ==> v.streaming.value == |v.own| % TWO32)
  }

  ghost predicate Possible(v: Life, m: Move, id: nat) {
    match m
    case Gets(h) => v.handled == None && h.request.id == id && h.verdict == Decide(h.request, h.facts)
    case Streamed(_) => v.streaming.Some?
    case StreamEnds => v.streaming.Some?
    case Published(_) => v.sub.Some?
    case FeedEnds => v.sub.Some?
    case Answered(reply) => Response(id, reply) in v.own
    case Done(o) => o in {Timeout, Transport} || (v.slot.Some? && v.slot.value.Some? && o == OutcomeOf(v.slot.value.value))
    case _ => true
  }

  // What a step means to one request.
  lemma StepMoves(s: State, a: Action, id: nat)
    requires Books(s) && Allowed(s, a) && Fine(LifeOf(s, id), id)
    ensures LifeOf(After(s, a), id) == Moved(LifeOf(s, id), MoveOf(s, a, id), id)
    ensures Possible(LifeOf(s, id), MoveOf(s, a, id), id)
  {
    hide Fine, LifeOf, MoveOf, Moved, Possible, Books, Take, Own;
    match a
    case Serve(facts) => ServeMoves(s, facts, id);
    case Emit(_) => HostMoves(s, a, id);
    case EndStream => HostMoves(s, a, id);
    case Publish(_, _) => HostMoves(s, a, id);
    case CloseFeed(_) => HostMoves(s, a, id);
    case Read => OtherMoves(s, a, id);
    case ReaderDies => OtherMoves(s, a, id);
    case HostDies => OtherMoves(s, a, id);
    case Prune(_) => OtherMoves(s, a, id);
    case Ask(_, _, _, _) => SendMoves(s, a, id);
    case Post(_) => SendMoves(s, a, id);
    case PostFails(_) => FailMoves(s, a, id);
    case _ => EndMoves(s, a, id);
  }

  lemma OtherMoves(s: State, a: Action, id: nat)
    requires Allowed(s, a) && (a.Read? || a.ReaderDies? || a.HostDies? || a.Prune?)
    ensures LifeOf(After(s, a), id) == Moved(LifeOf(s, id), MoveOf(s, a, id), id)
    ensures Possible(LifeOf(s, id), MoveOf(s, a, id), id)
  {
    hide Own;
    if a.Read? { OwnHas(s.down, s.seen); }
  }

  lemma SendMoves(s: State, a: Action, id: nat)
    requires Allowed(s, a) && (a.Ask? || a.Post?)
    ensures LifeOf(After(s, a), id) == Moved(LifeOf(s, id), MoveOf(s, a, id), id)
    ensures Possible(LifeOf(s, id), MoveOf(s, a, id), id)
  {
    hide Own, OutcomeOf;
  }

  lemma FailMoves(s: State, a: Action, id: nat)
    requires Allowed(s, a) && (a.PostFails?)
    ensures LifeOf(After(s, a), id) == Moved(LifeOf(s, id), MoveOf(s, a, id), id)
    ensures Possible(LifeOf(s, id), MoveOf(s, a, id), id)
  {
    hide Own, OutcomeOf;
  }

  lemma EndMoves(s: State, a: Action, id: nat)
    requires Allowed(s, a) && (a.TimesOut? || a.Collect?)
    ensures LifeOf(After(s, a), id) == Moved(LifeOf(s, id), MoveOf(s, a, id), id)
    ensures Possible(LifeOf(s, id), MoveOf(s, a, id), id)
  {
    hide Own, OutcomeOf;
  }

  lemma HostMoves(s: State, a: Action, id: nat)
    requires Allowed(s, a) && (a.Emit? || a.EndStream? || a.Publish? || a.CloseFeed?)
    ensures LifeOf(After(s, a), id) == Moved(LifeOf(s, id), MoveOf(s, a, id), id)
    ensures Possible(LifeOf(s, id), MoveOf(s, a, id), id)
  {
    hide Own, Next;
    var f := match a
      case Emit(data) => Chunk(s.thread.id, s.thread.seqNo, false, data)
      case EndStream => Chunk(s.thread.id, s.thread.seqNo, true, [])
      case Publish(i, data) => Chunk(i, s.subs[i], false, data)
      case CloseFeed(i) => Chunk(i, s.subs[i], true, []);
    OwnAppend(s.down, f, id);
  }

  // Frames of an answer all carry the id of the request.
  lemma OwnAnswer(log: seq<Frame>, h: Handled, id: nat)
    ensures Own(log + Answer(h), id) == if h.request.id == id then Own(log, id) + Answer(h) else Own(log, id)
  {
    hide Own;
    if Answer(h) == [] { assert log + Answer(h) == log; }
    else { OwnAppend(log, Answer(h)[0], id); }
  }

  lemma ServeSubs(subs: map<nat, nat>, h: Handled, id: nat)
    requires h.verdict == Internal <==> h.request.endpoint == UNSUBSCRIBE
    requires h.request.id == id ==> id !in subs
    ensures At(SubsAfter(subs, h), id) ==
            if h.request.id == id then (if h.verdict == Subscribed then Some(0) else None)
            else if Dropped(h.request) == Some(id) then None else At(subs, id)
  {
    hide ValueOf;
  }

  lemma ServeMoves(s: State, f: Facts, id: nat)
    requires Books(s) && Allowed(s, Serve(f)) && Fine(LifeOf(s, id), id)
    ensures LifeOf(Take(s, f), id) == Moved(LifeOf(s, id), MoveOf(s, Serve(f), id), id)
    ensures Possible(LifeOf(s, id), MoveOf(s, Serve(f), id), id)
  {
    var r := s.sent[s.taken];
    var h := Handled(r, f, Decide(r, f));
    assert h.verdict == Internal <==> r.endpoint == UNSUBSCRIBE;
    assert Booked(s, s.taken);
    assert r.id == id ==> id !in s.handled && id !in s.subs;
    hide Own, Books, Fine, Answer, Decide, Dropped, SubsAfter, Take;
    ServeSubs(s.subs, h, id);
    if r.id == id { ServeOwn(s, f); } else { ServeOther(s, f, id); }
  }

  lemma ServeOwn(s: State, f: Facts)
    requires Allowed(s, Serve(f))
    requires var r := s.sent[s.taken];
             r.id !in s.handled && At(SubsAfter(s.subs, Handled(r, f, Decide(r, f))), r.id) ==
                                   if Decide(r, f) == Subscribed then Some(0) else At(s.subs, r.id)
    ensures var r := s.sent[s.taken];
            LifeOf(Take(s, f), r.id) == Moved(LifeOf(s, r.id), Gets(Handled(r, f, Decide(r, f))), r.id)
  {
    var r := s.sent[s.taken];
    hide Own, Answer, Decide, Dropped, SubsAfter;
    OwnAnswer(s.down, Handled(r, f, Decide(r, f)), r.id);
  }

  lemma ServeOther(s: State, f: Facts, id: nat)
    requires Allowed(s, Serve(f)) && s.sent[s.taken].id != id
    requires var r := s.sent[s.taken];
             At(SubsAfter(s.subs, Handled(r, f, Decide(r, f))), id) == if Dropped(r) == Some(id) then None else At(s.subs, id)
    ensures var r := s.sent[s.taken];
            LifeOf(Take(s, f), id) == Moved(LifeOf(s, id), if Dropped(r) == Some(id) then Unsubscribed else Stay, id)
  {
    var r := s.sent[s.taken];
    hide Own, Answer, Decide, Dropped, SubsAfter;
    OwnAnswer(s.down, Handled(r, f, Decide(r, f)), id);
  }

  lemma ChunkRunNext(own: seq<Frame>, id: nat, last: bool, data: seq<byte>)
    requires ChunkRun(own, id, true)
    ensures ChunkRun(own + [Chunk(id, |own| % TWO32, last, data)], id, !last)
    ensures Next(|own| % TWO32) == |own + [Chunk(id, |own| % TWO32, last, data)]| % TWO32
  {
  }

  lemma ExplainedStill(o: Outcome, own: seq<Frame>, f: seq<Frame>, id: nat)
    requires Explained(o, own, id)
    ensures Explained(o, own + f, id)
  {
    var reply :| Response(id, reply) in own && o == OutcomeOf(reply);
    assert Response(id, reply) in own + f;
  }

  // The chunks of a stream or a feed.
  lemma ChunkFine(v: Life, m: Move, id: nat)
    requires Fine(v, id) && Possible(v, m, id) && (m.Streamed? || m.StreamEnds? || m.Published? || m.FeedEnds?)
    ensures Fine(Moved(v, m, id), id)
  {
    var v' := Moved(v, m, id);
    if v.hostAlive {
      if m.Streamed? || m.Published? { ChunkRunNext(v.own, id, false, m.data); }
      else { ChunkRunNext(v.own, id, true, []); }
      var f := v'.own[|v'.own| - 1];
      assert v'.own == v.own + [f];
      if v.outcome.Some? && v.outcome.value !in {Timeout, Transport} { ExplainedStill(v.outcome.value, v.own, [f], id); }
    }
    hide ChunkRun, Next, Explained, Answer;
    assert v.handled.Some?;
  }

  lemma GetsFine(v: Life, h: Handled, id: nat)
    requires Fine(v, id) && Possible(v, Gets(h), id)
    ensures Fine(Moved(v, Gets(h), id), id)
  {
    var v' := Moved(v, Gets(h), id);
    assert v'.own == if v.hostAlive then Answer(h) else [];
    if v.outcome.Some? && v.outcome.value !in {Timeout, Transport} { ExplainedStill(v.outcome.value, v.own, v'.own, id); }
  }

  lemma MoveFine(v: Life, m: Move, id: nat)
    requires Fine(v, id) && Possible(v, m, id)
    ensures Fine(Moved(v, m, id), id)
  {
    match m
    case Gets(h) => GetsFine(v, h, id);
    case Streamed(_) => ChunkFine(v, m, id);
    case StreamEnds => ChunkFine(v, m, id);
    case Published(_) => ChunkFine(v, m, id);
    case FeedEnds => ChunkFine(v, m, id);
    case _ => hide Answer, OutcomeOf;
  }

  // ---- every run -------------------------------------------------------------

  lemma {:induction false} RunFine(ss: seq<State>, acts: seq<Action>, id: nat)
    requires Run(ss, acts)
    ensures Books(ss[|acts|]) && Fine(LifeOf(ss[|acts|], id), id)
  {
    var n := |acts|;
    if n > 0 {
      hide Fine, LifeOf, MoveOf, Moved, Possible, Books, After;
      RunFine(ss[..n], acts[..n - 1], id);
      BooksKept(ss[n - 1], acts[n - 1]);
      StepMoves(ss[n - 1], acts[n - 1], id);
      MoveFine(LifeOf(ss[n - 1], id), MoveOf(ss[n - 1], acts[n - 1], id), id);
    }
  }

  /**
    In every state of every run the frames that answer a request are nothing, or one RESPONSE, or
    one stream of chunks numbered from 0 with at most one last chunk at its end; and a oneway request
    gets no RESPONSE. Only requests the host has received are answered.
  */
  lemma OneAnswer(ss: seq<State>, acts: seq<Action>, n: nat, id: nat)
    requires Run(ss, acts) && n <= |acts|
    ensures var own := Own(ss[n].down, id);
            && (own != [] ==> id in ss[n].handled && id in ss[n].asked && ss[n].handled[id].request == ss[n].asked[id])
            && ((|own| == 1 && own[0].Response?) || ChunkRun(own, id, false))
            && (own != [] && own[0].Response? ==> !ss[n].asked[id].oneway && own == Answer(ss[n].handled[id]))
  {
    RunFine(ss[..n + 1], acts[..n], id);
    var v := LifeOf(ss[n], id);
    hide Own;
    if v.handled.Some? {
      assert FineHandled(v, v.handled.value, id);
      assert id in ss[n].handled;
    }
  }

  // How the RESPONSE in the channel relates to what get() reports.
  lemma GetReportsTheAnswer(ss: seq<State>, acts: seq<Action>, n: nat, id: nat)
    requires Run(ss, acts) && n <= |acts| && id in ss[n].outcomes && ss[n].outcomes[id] !in {Timeout, Transport}
    ensures id in ss[n].asked && id in ss[n].handled && ss[n].handled[id].request == ss[n].asked[id]
    ensures var h := ss[n].handled[id];
            && !h.request.oneway && h.request.id == id && h.verdict == Decide(h.request, h.facts)
            && ReplyFor(h.verdict).Some? && ss[n].outcomes[id] == OutcomeOf(ReplyFor(h.verdict).value)
  {
    OneAnswer(ss, acts, n, id);
    RunFine(ss[..n + 1], acts[..n], id);
    var own := Own(ss[n].down, id);
    hide Own, Books, Raw, Decide;
    var reply :| Response(id, reply) in own && ss[n].outcomes[id] == OutcomeOf(reply);
    assert own != [] && own[0].Response?;
    assert own == [Response(id, reply)];
  }

  /**
    However a get() ends, other than by running out of time or losing the connection, it is with what
    the host made of the very request that was asked: data is what the handler returned for it, the
    caller being authorized, and each error has its own cause.
  */
  lemma GetReturnsItsOwnResult(ss: seq<State>, acts: seq<Action>, n: nat, id: nat)
    requires Run(ss, acts) && n <= |acts| && id in ss[n].outcomes && ss[n].outcomes[id] !in {Timeout, Transport}
    ensures id in ss[n].asked && id in ss[n].handled && ss[n].handled[id].request == ss[n].asked[id]
    ensures var facts := ss[n].handled[id].facts;
            match ss[n].outcomes[id]
            case Data(data) => facts.kind in {Some(Receive), Some(Send)} && facts.authorized && facts.result == Result(true, data)
            case NotFound => facts.kind == None
            case AccessDenied => facts.kind.Some? && !facts.authorized
            case Protocol(message) => facts.kind.Some? && facts.authorized
              && (match facts.kind.value
                  case Topic => facts.full && message == Raw("subscription limit exceeded")
                  case StreamReceive => message == Raw("wrong call shape")
                  case StreamSend => false
                  case _ => facts.result == Result(false, message))
            case _ => true
  {
    GetReportsTheAnswer(ss, acts, n, id);
    hide Raw;
  }

  // Every request reaches the channel at most once, under an id of its own.
  lemma SentOnce(ss: seq<State>, acts: seq<Action>, n: nat, i: nat, j: nat)
    requires Run(ss, acts) && n <= |acts| && i < |ss[n].sent| && j < |ss[n].sent| && ss[n].sent[i].id == ss[n].sent[j].id
    ensures i == j && ss[n].sent[i].id in ss[n].asked && ss[n].sent[i] == ss[n].asked[ss[n].sent[i].id]
  {
    RunFine(ss[..n + 1], acts[..n], 0);
    assert Booked(ss[n], i);
  }

  // ---- the code --------------------------------------------------------------

  // What a stream handler that writes these chunks puts on the wire.
  function StreamFrames(id: nat, chunks: seq<seq<byte>>): seq<Frame> {
    seq(|chunks|, i requires 0 <= i < |chunks| => Chunk(id, i % TWO32, false, chunks[i]))
    + [Chunk(id, |chunks| % TWO32, true, [])]
  }

  lemma StreamFramesRun(id: nat, chunks: seq<seq<byte>>)
    ensures ChunkRun(StreamFrames(id, chunks), id, false)
    ensures |StreamFrames(id, chunks)| == |chunks| + 1 && StreamFrames(id, chunks)[|chunks|].last
    ensures forall i :: 0 <= i < |chunks| ==> StreamFrames(id, chunks)[i].data == chunks[i] && !StreamFrames(id, chunks)[i].last
  {
  }

  // The host's side of one connection. `topics` says which topics exist and `subs` numbers their chunks.
  class RequestLoop {
    var down: seq<Frame>
    var subs: map<nat, nat>
    var alive: bool

    constructor ()
      ensures down == [] && subs == map[] && alive
    {
      down, subs, alive := [], map[], true;
    }

    method Write(f: Frame)
      modifies this`down
      ensures down == if alive then old(down) + [f] else old(down)
    {
      if alive { down := down + [f]; }
    }

    method Respond(r: Request, status: nat, data: seq<byte>)
      modifies this`down
      ensures down == if alive && !r.oneway then old(down) + [Response(r.id, Reply(status, data))] else old(down)
    {
      if r.oneway { return; }
      Write(Response(r.id, Reply(status, data)));
    }

    // `chunks` is what the stream handler writes, if it is called.
    method Handle(r: Request, f: Facts, chunks: seq<seq<byte>>)
      modifies this`down, this`subs
      ensures var h := Handled(r, f, Decide(r, f));
              && subs == SubsAfter(old(subs), h)
              && down == if !alive then old(down)
                         else old(down) + Answer(h) + (if h.verdict == Streams then StreamFrames(r.id, chunks) else [])
    {
      if r.endpoint == UNSUBSCRIBE {
        if |r.data| == 8 { subs := subs - {ValueOf(r.data)}; }
        return;
      }
      if f.kind.None? {
        Respond(r, 2, []);
        return;
      }
      if !f.authorized {
        Respond(r, 3, Raw("access denied"));
        return;
      }
      match f.kind.value
      case Topic =>
        if f.full {
          Respond(r, 1, Raw("subscription limit exceeded"));
        } else if f.topic {
          subs := subs[r.id := 0];
        }
      case Receive => Unary(r, f.result);
      case Send => Unary(r, f.result);
      case StreamSend => Stream(r.id, chunks);
      case StreamReceive => Respond(r, 1, Raw("wrong call shape"));
    }

    method Unary(r: Request, result: Result)
      modifies this`down
      ensures down == if alive && !r.oneway
                      then old(down) + [Response(r.id, Reply(if result.ok then 0 else 1, result.data))]
                      else old(down)
    {
      if result.ok { Respond(r, 0, result.data); } else { Respond(r, 1, result.data); }
    }

    method Stream(id: nat, chunks: seq<seq<byte>>)
      modifies this`down
      ensures down == if alive then old(down) + StreamFrames(id, chunks) else old(down)
    {
      var seqNo := 0;
      var i := 0;
      while i < |chunks|
        invariant i <= |chunks| && seqNo == i % TWO32
        invariant down == if alive then old(down) + StreamFrames(id, chunks)[..i] else old(down)
      {
        assert StreamFrames(id, chunks)[..i + 1] == StreamFrames(id, chunks)[..i] + [Chunk(id, seqNo, false, chunks[i])];
        Write(Chunk(id, seqNo, false, chunks[i]));
        seqNo := (seqNo + 1) % TWO32;
        i := i + 1;
      }
      assert StreamFrames(id, chunks) == StreamFrames(id, chunks)[..i] + [Chunk(id, seqNo, true, [])];
      Write(Chunk(id, seqNo, true, []));
    }
  }

  // A stream from the client to a handler; `sealed` records the chunks handed to the connection.
  class OutputStream {
    const id: nat
    var seqNo: nat
    var finished: bool
    ghost var sealed: seq<Frame>

    // A numbered run of chunks, and the last one is there exactly when the stream is finished.
    ghost predicate Valid()
      reads this
    {
      && ChunkRun(sealed, id, !finished)
      && if finished then sealed != [] && sealed[|sealed| - 1].last else seqNo == |sealed| % TWO32
    }

    constructor (id: nat)
      ensures Valid() && this.id == id && !finished && sealed == []
    {
      this.id, seqNo, finished, sealed := id, 0, false, [];
    }

    // `ok` is whether the connection could send the chunk.
    method Write(chunk: seq<byte>, ok: bool) returns (r: bool)
      requires Valid()
      modifies this
      ensures Valid() && finished == old(finished) && r == (ok && !finished)
      ensures sealed == if finished then old(sealed) else old(sealed) + [Chunk(id, |old(sealed)| % TWO32, false, chunk)]
    {
      if finished { return false; }
      ChunkRunNext(sealed, id, false, chunk);
      sealed := sealed + [Chunk(id, seqNo, false, chunk)];
      seqNo := (seqNo + 1) % TWO32;
      return ok;
    }

    method Finish()
      requires Valid()
      modifies this
      ensures Valid() && finished
      ensures sealed == if old(finished) then old(sealed) else old(sealed) + [Chunk(id, |old(sealed)| % TWO32, true, [])]
    {
      if finished { return; }
      ChunkRunNext(sealed, id, true, []);
      finished := true;
      sealed := sealed + [Chunk(id, seqNo, true, [])];
      seqNo := (seqNo + 1) % TWO32;
    }
  }

  // The client's table of waiting get() calls; `rest` is the rest of the state.
  class PendingTable {
    var nextId: nat
    var pending: map<nat, Option<Reply>>
    ghost var rest: State

    ghost function View(): State
      reads this
    {
      rest.(nextId := nextId, pending := pending)
    }

    constructor ()
      ensures View() == START
    {
      nextId, pending, rest := 1, map[], START;
    }

    // The start of get(), up to the write of the request.
    method Begin(endpoint: string, data: seq<byte>) returns (id: nat)
      modifies this
      ensures View() == After(old(View()), Ask(true, false, endpoint, data))
      ensures id in View().asked && View().asked[id] == Request(id, false, endpoint, data) && id in View().unsent
    {
      id := nextId;
      rest := After(View(), Ask(true, false, endpoint, data));
      nextId := nextId + 1;
      pending := pending[id := None];
    }

    // The reader, on a RESPONSE; false when no get() waits for it.
    method OnResponse(id: nat, reply: Reply) returns (found: bool)
      requires Allowed(View(), Read) && View().down[View().seen] == Response(id, reply)
      modifies this
      ensures View() == After(old(View()), Read) && found == (id in View().pending)
    {
      rest := After(View(), Read);
      found := id in pending;
      if found { pending := pending[id := Some(reply)]; }
    }

    // The write of the request failed.
    method Fail(id: nat)
      requires Allowed(View(), PostFails(id)) && id in pending
      modifies this
      ensures View() == After(old(View()), PostFails(id))
    {
      rest := After(View(), PostFails(id));
      pending := pending - {id};
    }

    // The end of get(): `arrived` is false when the wait ran out.
    method End(id: nat, arrived: bool) returns (o: Outcome)
      requires Allowed(View(), if arrived then Collect(id) else TimesOut(id))
      modifies this
      ensures View() == After(old(View()), if arrived then Collect(id) else TimesOut(id))
      ensures id in View().outcomes && o == View().outcomes[id]
    {
      var slot := pending[id];
      rest := After(View(), if arrived then Collect(id) else TimesOut(id));
      pending := pending - {id};
      if !arrived { return Timeout; }
      if slot.None? { return Transport; }
      var reply := slot.value;
      if reply.status == 2 { return NotFound; }
      if reply.status == 3 { return AccessDenied; }
      if reply.status == 1 { return Protocol(reply.data); }
      return Data(reply.data);
    }
  }
}
