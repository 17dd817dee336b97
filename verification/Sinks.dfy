/**
  The client's stream sinks. User threads register a sink before they send the request and may erase
  it at any time; the reader looks a sink up under the lock, calls it without the lock, and takes the
  lock again to forget a subscription that is over. Every lock hold and every callback is one step.
*/
module Sinks {
  import opened Bytes

  // One call of a callback: the data, and whether this is the end.
  datatype Event = Event(data: seq<byte>, closed: bool)

  const CLOSED := Event([], true)

  datatype Reader =
    | Idle
    | Delivering(id: nat, event: Event, found: bool, subscription: bool)
    | Erasing(id: nat, subscription: bool)
    | Refusing(id: nat)
    | Sweeping(todo: seq<nat>)
    | Stopped

  /**
    `sinks` says of each registered request whether it is a subscription. The rest is history: the
    calls made and the chunks received per request, which requests are subscriptions, which of them a
    user thread cut off before their end, and which were registered after the reader had swept.
  */
  datatype State = State(
    nextId: nat, reserved: set<nat>, sinks: map<nat, bool>, reader: Reader,
    calls: map<nat, seq<Event>>, chunks: map<nat, seq<Event>>,
    subs: set<nat>, cut: set<nat>, late: set<nat>)

  const START := State(1, {}, map[], Idle, map[], map[], {}, {}, {})

  function Of(m: map<nat, seq<Event>>, id: nat): seq<Event> {
    if id in m then m[id] else []
  }

  function Log(m: map<nat, seq<Event>>, id: nat, e: Event): map<nat, seq<Event>> {
    m[id := Of(m, id) + [e]]
  }

  predicate IsSubscription(s: State, id: nat) {
    id in s.sinks && s.sinks[id]
  }

  datatype Action =
    | Reserve
    | Register(id: nat, subscription: bool)
    | Erase(id: nat)
    | Chunk(id: nat, event: Event)
    | Call
    | Forget
    | Refused(id: nat)
    | ReaderEnds(order: seq<nat>)

  ghost predicate NoRepeats(order: seq<nat>) {
    forall i, j :: 0 <= i < j < |order| ==> order[i] != order[j]
  }

  // The sweep goes through the subscriptions in some order of the table.
  ghost predicate Allowed(s: State, a: Action) {
    match a
    case Reserve => true
    case Register(id, _) => id in s.reserved
    case Erase(id) => true
    case Chunk(_, _) => s.reader == Idle
    case Call => s.reader.Delivering? || s.reader.Refusing? || s.reader.Sweeping?
    case Forget => s.reader.Erasing?
    case Refused(_) => s.reader == Idle
    case ReaderEnds(order) => s.reader == Idle && NoRepeats(order) && forall id :: id in order <==> IsSubscription(s, id)
  }

  predicate Over(r: Reader) {
    r.Sweeping? || r.Stopped?
  }

  function Called(s: State): State
    requires s.reader.Delivering? || s.reader.Refusing? || s.reader.Sweeping?
  {
    match s.reader
    case Delivering(id, e, found, subscription) =>
      s.(calls := if found then Log(s.calls, id, e) else s.calls,
         reader := if e.closed then Erasing(id, subscription) else Idle)
    case Refusing(id) => s.(calls := Log(s.calls, id, CLOSED), reader := Idle)
    case Sweeping(todo) =>
      if todo == [] then s.(reader := Stopped)
      else s.(calls := Log(s.calls, todo[0], CLOSED), reader := Sweeping(todo[1..]))
  }

  // Erasing this sink takes its end away: it has not been called with one, and is not about to be.
  predicate CutsOff(s: State, id: nat) {
    && IsSubscription(s, id) && !Finished(Of(s.calls, id))
    && !(s.reader.Delivering? && s.reader.id == id && s.reader.found && s.reader.event.closed)
  }

  function After(s: State, a: Action): State
    requires Allowed(s, a)
  {
    match a
    case Reserve => s.(nextId := s.nextId + 1, reserved := s.reserved + {s.nextId})
    case Register(id, subscription) =>
      s.(reserved := s.reserved - {id}, sinks := s.sinks[id := subscription],
         subs := if subscription then s.subs + {id} else s.subs,
         late := if subscription && Over(s.reader) then s.late + {id} else s.late)
    case Erase(id) =>
      s.(sinks := s.sinks - {id}, cut := if CutsOff(s, id) then s.cut + {id} else s.cut)
    case Chunk(id, e) =>
      s.(reader := Delivering(id, e, id in s.sinks, IsSubscription(s, id)),
         chunks := if id in s.sinks then Log(s.chunks, id, e) else s.chunks)
    case Call => Called(s)
    case Forget =>
      s.(sinks := if s.reader.subscription then s.sinks - {s.reader.id} else s.sinks, reader := Idle)
    case Refused(id) =>
      if IsSubscription(s, id) then s.(sinks := s.sinks - {id}, reader := Refusing(id)) else s
    case ReaderEnds(order) => s.(sinks := s.sinks - (set id | id in order), reader := Sweeping(order))
  }

  ghost predicate Run(ss: seq<State>, acts: seq<Action>) {
    && |ss| == |acts| + 1 && ss[0] == START
    && forall i :: 0 <= i < |acts| ==> Allowed(ss[i], acts[i]) && ss[i + 1] == After(ss[i], acts[i])
  }

  // ---- what a subscriber is called with --------------------------------------

  ghost predicate Open(calls: seq<Event>) {
    forall i :: 0 <= i < |calls| ==> !calls[i].closed
  }

  predicate Finished(calls: seq<Event>) {
    calls != [] && calls[|calls| - 1].closed
  }

  // Messages followed by at most one final call.
  ghost predicate Proper(calls: seq<Event>) {
    Open(calls) || (calls != [] && Open(calls[..|calls| - 1]))
  }

  // The calls are the chunks received, perhaps with an empty final call of the reader's own.
  predicate Faithful(calls: seq<Event>, chunks: seq<Event>) {
    calls <= chunks || (calls != [] && calls[|calls| - 1] == CLOSED && calls[..|calls| - 1] <= chunks)
  }

  // ---- the life of one sink --------------------------------------------------

  datatype Place = Out | Plain | Subscribed

  // What the reader has to do with this sink.
  datatype Role = Away | Bringing(event: Event, found: bool, subscription: bool) | Ending(subscription: bool) | Owing

  // Everything about one request: `young` before a sink is registered for it.
  datatype Life = Life(
    young: bool, place: Place, role: Role, over: bool, calls: seq<Event>, chunks: seq<Event>,
    sub: bool, cut: bool, late: bool)

  function PlaceOf(s: State, id: nat): Place {
    if id !in s.sinks then Out else if s.sinks[id] then Subscribed else Plain
  }

  function RoleOf(r: Reader, id: nat): Role {
    match r
    case Delivering(i, e, found, subscription) => if i == id then Bringing(e, found, subscription) else Away
    case Erasing(i, subscription) => if i == id then Ending(subscription) else Away
    case Refusing(i) => if i == id then Owing else Away
    case Sweeping(todo) => if id in todo then Owing else Away
    case _ => Away
  }

  function LifeOf(s: State, id: nat): Life {
    Life(id >= s.nextId || id in s.reserved, PlaceOf(s, id), RoleOf(s.reader, id), Over(s.reader),
         Of(s.calls, id), Of(s.chunks, id), id in s.subs, id in s.cut, id in s.late)
  }

  datatype Move = Stay | Enters(subscription: bool) | Taken | Received(event: Event) | Answered | Forgotten | Denied | Swept

  function MoveOf(s: State, a: Action, id: nat): Move {
    match a
    case Reserve => Stay
    case Register(i, subscription) => if i == id then Enters(subscription) else Stay
    case Erase(i) => if i == id then Taken else Stay
    case Chunk(i, e) => if i == id then Received(e) else Stay
    case Call =>
      if s.reader.Sweeping? then (if s.reader.todo != [] && s.reader.todo[0] == id then Answered else Stay)
      else if RoleOf(s.reader, id) == Away then Stay else Answered
    case Forget => if RoleOf(s.reader, id) == Away then Stay else Forgotten
    case Refused(i) => if i == id then Denied else Stay
    case ReaderEnds(_) => Swept
  }

  predicate Closing(r: Role) {
    r.Bringing? && r.found && r.event.closed
  }

  function Moved(v: Life, m: Move): Life {
    match m
    case Stay => v
    case Enters(subscription) =>
      v.(young := false, place := if subscription then Subscribed else Plain, sub := v.sub || subscription,
         late := v.late || (subscription && v.over))
    case Taken => v.(place := Out, cut := v.cut || (v.place == Subscribed && !Finished(v.calls) && !Closing(v.role)))
    case Received(e) =>
      v.(role := Bringing(e, v.place != Out, v.place == Subscribed),
         chunks := if v.place == Out then v.chunks else v.chunks + [e])
    case Answered =>
      (match v.role
       case Bringing(e, found, subscription) =>
         v.(calls := if found then v.calls + [e] else v.calls, role := if e.closed then Ending(subscription) else Away)
       case _ => v.(calls := v.calls + [CLOSED], role := Away))
    case Forgotten => v.(place := if v.role.Ending? && v.role.subscription then Out else v.place, role := Away)
    case Denied => if v.place == Subscribed then v.(place := Out, role := Owing) else v
    case Swept => v.(over := true, place := if v.place == Subscribed then Out else v.place,
                     role := if v.place == Subscribed then Owing else v.role)
  }

  ghost predicate Possible(v: Life, m: Move) {
    match m
    case Stay => true
    case Enters(_) => v.young
    case Taken => true
    case Received(_) => v.role == Away && !v.over
    case Answered => v.role.Bringing? || v.role.Owing?
    case Forgotten => v.role.Ending?
    case Denied => v.role == Away && !v.over
    case Swept => v.role == Away && !v.over
  }

  ghost predicate Sane(s: State) {
    && (forall id :: id in s.reserved ==> id < s.nextId)
    && (s.reader.Sweeping? ==> NoRepeats(s.reader.todo))
  }

  lemma StepSane(s: State, a: Action)
    requires Sane(s) && Allowed(s, a)
    ensures Sane(After(s, a))
  {
  }

  // What a step means to one request.
  lemma StepMoves(s: State, a: Action, id: nat)
    requires Sane(s) && Allowed(s, a)
    ensures LifeOf(After(s, a), id) == Moved(LifeOf(s, id), MoveOf(s, a, id))
    ensures Possible(LifeOf(s, id), MoveOf(s, a, id))
  {
    match a
    case Call => CallMoves(s, id);
    case ReaderEnds(order) => EndMoves(s, order, id);
    case _ =>
  }

  lemma CallMoves(s: State, id: nat)
    requires Sane(s) && Allowed(s, Call)
    ensures LifeOf(Called(s), id) == Moved(LifeOf(s, id), MoveOf(s, Call, id))
    ensures Possible(LifeOf(s, id), MoveOf(s, Call, id))
  {
    hide MoveOf, Moved, LifeOf, Possible, Called;
    match s.reader
    case Sweeping(_) => SweepMoves(s, id);
    case Delivering(_, _, _, _) => DeliverMoves(s, id);
    case _ => RefuseMoves(s, id);
  }

  lemma DeliverMoves(s: State, id: nat)
    requires s.reader.Delivering?
    ensures LifeOf(Called(s), id) == Moved(LifeOf(s, id), MoveOf(s, Call, id))
    ensures Possible(LifeOf(s, id), MoveOf(s, Call, id))
  {
  }

  lemma RefuseMoves(s: State, id: nat)
    requires s.reader.Refusing?
    ensures LifeOf(Called(s), id) == Moved(LifeOf(s, id), MoveOf(s, Call, id))
    ensures Possible(LifeOf(s, id), MoveOf(s, Call, id))
  {
  }

  // The sweep takes them one by one, and does not come back.
  lemma SweepRole(todo: seq<nat>, id: nat)
    requires NoRepeats(todo) && todo != []
    ensures RoleOf(Sweeping(todo[1..]), id) == if todo[0] == id then Away else RoleOf(Sweeping(todo), id)
  {
    assert todo == [todo[0]] + todo[1..];
    assert todo[0] !in todo[1..];
  }

  lemma SweepMoves(s: State, id: nat)
    requires Sane(s) && s.reader.Sweeping?
    ensures LifeOf(Called(s), id) == Moved(LifeOf(s, id), MoveOf(s, Call, id))
    ensures Possible(LifeOf(s, id), MoveOf(s, Call, id))
  {
    var todo := s.reader.todo;
    if todo != [] {
      SweepRole(todo, id);
      assert todo[0] in todo;
      hide NoRepeats;
    }
  }

  lemma EndMoves(s: State, order: seq<nat>, id: nat)
    requires Sane(s) && Allowed(s, ReaderEnds(order))
    ensures LifeOf(After(s, ReaderEnds(order)), id) == Moved(LifeOf(s, id), Swept)
    ensures Possible(LifeOf(s, id), Swept)
  {
    assert id in order <==> IsSubscription(s, id);
  }

  // What holds of a request at any time.
  ghost predicate Fine(v: Life) {
    && (v.young ==> v.place == Out && !v.sub && !v.late && v.calls == [] && v.chunks == [] && !v.role.Owing?)
    && (v.over ==> v.role.Away? || v.role.Owing?)
    && (v.place != Out ==> (v.place == Subscribed <==> v.sub))
    && (v.role.Bringing? ==> if v.role.found then !v.young && (v.role.subscription <==> v.sub) else !v.role.subscription)
    && (v.role.Owing? ==> v.sub && v.place == Out && Open(v.calls) && v.calls <= v.chunks && !v.late)
    && (v.role == Ending(true) ==> v.sub && Finished(v.calls))
    && (v.late ==> v.sub && v.over && v.calls == [])
    && (v.cut ==> v.sub && v.place == Out && !Finished(v.calls) && !v.role.Owing? && !Closing(v.role))
    && (v.sub ==> FineSubscription(v))
  }

  ghost predicate FineSubscription(v: Life) {
    && Proper(v.calls) && Faithful(v.calls, v.chunks)
    && (v.role.Bringing? && v.role.found ==> Open(v.calls) && v.calls + [v.role.event] == v.chunks)
    && (v.place == Subscribed && !(v.role.Bringing? && v.role.found) ==> v.calls == v.chunks)
    && (v.place == Subscribed ==> Open(v.calls) || v.role == Ending(true))
    && (v.place == Subscribed && v.over ==> v.late)
    && (!v.cut && !v.late ==> Finished(v.calls) || v.place == Subscribed || v.role.Owing? || Closing(v.role))
  }

  lemma Nothing()
    ensures Open([]) && Proper([]) && Faithful([], [])
  {
  }

  lemma OneMore(calls: seq<Event>, e: Event)
    requires Open(calls)
    ensures Proper(calls) && Proper(calls + [e]) && !Finished(calls)
    ensures if e.closed then Finished(calls + [e]) else Open(calls + [e])
  {
    assert (calls + [e])[..|calls|] == calls;
  }

  lemma StillFaithful(calls: seq<Event>, chunks: seq<Event>, e: Event)
    ensures Faithful(calls, chunks) ==> Faithful(calls, chunks + [e])
    ensures calls == chunks ==> Faithful(calls + [e], chunks + [e])
    ensures calls <= chunks ==> Faithful(calls + [CLOSED], chunks)
  {
    assert (calls + [CLOSED])[..|calls|] == calls;
  }

  lemma AnsweredFine(v: Life)
    requires Fine(v) && Possible(v, Answered)
    ensures Fine(Moved(v, Answered))
  {
    hide Fine;
    if v.role.Owing? { ClosedFine(v); } else { CalledFine(v); }
  }

  // The reader's own final call.
  lemma ClosedFine(v: Life)
    requires Fine(v) && v.role.Owing?
    ensures Fine(Moved(v, Answered))
  {
    OneMore(v.calls, CLOSED);
    StillFaithful(v.calls, v.chunks, CLOSED);
    hide Open, Proper, Finished, Faithful;
  }

  // The call for a chunk.
  lemma CalledFine(v: Life)
    requires Fine(v) && v.role.Bringing?
    ensures Fine(Moved(v, Answered))
  {
    if v.sub && v.role.found { OneMore(v.calls, v.role.event); }
    FaithfulWhole(v.chunks);
    hide Open, Proper, Finished, Faithful;
  }

  lemma FaithfulWhole(chunks: seq<Event>)
    ensures Faithful(chunks, chunks)
  {
  }

  lemma MoveFine(v: Life, m: Move)
    requires Fine(v) && Possible(v, m)
    ensures Fine(Moved(v, m))
  {
    match m
    case Answered => AnsweredFine(v);
    case Received(e) => ReceivedFine(v, e);
    case Enters(_) => UserFine(v, m);
    case Taken => UserFine(v, m);
    case _ => ReaderFine(v, m);
  }

  // A chunk for a sink that is gone is dropped.
  lemma ReceivedOut(v: Life, e: Event)
    requires v.sub ==> FineSubscription(v)
    requires v.role == Away && v.place == Out
    ensures v.sub ==> FineSubscription(Moved(v, Received(e)))
  {
    hide Open, Proper, Faithful, Finished;
  }

  // One for a subscriber is next to be delivered.
  lemma ReceivedSubscribed(v: Life, e: Event)
    requires FineSubscription(v) && v.role == Away && v.place == Subscribed
    ensures FineSubscription(Moved(v, Received(e)))
  {
    StillFaithful(v.calls, v.chunks, e);
    hide Open, Proper, Faithful, Finished;
    assert v.calls == v.chunks;
  }

  lemma ReceivedFine(v: Life, e: Event)
    requires Fine(v) && Possible(v, Received(e))
    ensures Fine(Moved(v, Received(e)))
  {
    hide Open, Proper, Faithful, Finished;
    StillFaithful(v.calls, v.chunks, e);
    hide FineSubscription;
    match v.place
    case Out => ReceivedOut(v, e);
    case Plain => assert !v.sub;
    case Subscribed => ReceivedSubscribed(v, e);
  }

  lemma UserFine(v: Life, m: Move)
    requires Fine(v) && Possible(v, m) && (m.Enters? || m.Taken?)
    ensures Fine(Moved(v, m))
  {
    Nothing();
    hide Open, Proper, Faithful, Finished;
  }

  lemma ReaderFine(v: Life, m: Move)
    requires Fine(v) && Possible(v, m) && (m.Stay? || m.Forgotten? || m.Denied? || m.Swept?)
    ensures Fine(Moved(v, m))
  {
    PrefixOfItself(v.calls);
    hide Open, Proper, Faithful, Finished;
  }

  lemma PrefixOfItself(calls: seq<Event>)
    ensures calls <= calls
  {
  }

  // ---- every run -------------------------------------------------------------

  lemma {:induction false} RunFine(ss: seq<State>, acts: seq<Action>, id: nat)
    requires Run(ss, acts)
    ensures Sane(ss[|acts|]) && Fine(LifeOf(ss[|acts|], id))
  {
    var n := |acts|;
    if n == 0 {
      Nothing();
    } else {
      hide Fine, LifeOf, MoveOf, Moved, Possible, Sane, After;
      RunFine(ss[..n], acts[..n - 1], id);
      StepSane(ss[n - 1], acts[n - 1]);
      StepMoves(ss[n - 1], acts[n - 1], id);
      MoveFine(LifeOf(ss[n - 1], id), MoveOf(ss[n - 1], acts[n - 1], id));
    }
  }

  /**
    In every state of every run, what a subscriber's callback has been called with is messages and
    then at most one final call, and the calls are the chunks received for it, in order and without
    a gap, perhaps followed by a final call of the reader's own.
  */
  lemma SubscriberTrace(ss: seq<State>, acts: seq<Action>, n: nat, id: nat)
    requires Run(ss, acts) && n <= |acts| && id in ss[n].subs
    ensures Proper(Of(ss[n].calls, id)) && Faithful(Of(ss[n].calls, id), Of(ss[n].chunks, id))
  {
    RunFine(ss[..n + 1], acts[..n], id);
  }

  lemma MovedGrows(v: Life, m: Move)
    ensures v.calls <= Moved(v, m).calls && (v.sub ==> Moved(v, m).sub)
  {
  }

  lemma {:induction false} CallsGrow(ss: seq<State>, acts: seq<Action>, m: nat, n: nat, id: nat)
    requires Run(ss, acts) && m <= n <= |acts|
    ensures Of(ss[m].calls, id) <= Of(ss[n].calls, id)
    ensures id in ss[m].subs ==> id in ss[n].subs
    decreases n
  {
    if m < n {
      CallsGrow(ss, acts, m, n - 1, id);
      hide Fine, Sane, Moved, MoveOf, Possible, After;
      RunFine(ss[..n], acts[..n - 1], id);
      StepMoves(ss[n - 1], acts[n - 1], id);
      MovedGrows(LifeOf(ss[n - 1], id), MoveOf(ss[n - 1], acts[n - 1], id));
    }
  }

  lemma OnlyTheLastCloses(calls: seq<Event>)
    requires Proper(calls)
    ensures forall i :: 0 <= i < |calls| - 1 ==> !calls[i].closed
  {
    forall i | 0 <= i < |calls| - 1 ensures !calls[i].closed { assert calls[..|calls| - 1][i] == calls[i]; }
  }

  // After the final call a subscriber is never called again.
  lemma NothingAfterTheEnd(ss: seq<State>, acts: seq<Action>, m: nat, n: nat, id: nat)
    requires Run(ss, acts) && m <= n <= |acts| && id in ss[m].subs && Finished(Of(ss[m].calls, id))
    ensures Of(ss[n].calls, id) == Of(ss[m].calls, id)
  {
    var c, d := Of(ss[m].calls, id), Of(ss[n].calls, id);
    CallsGrow(ss, acts, m, n, id);
    SubscriberTrace(ss, acts, n, id);
    OnlyTheLastCloses(d);
    assert d[|c| - 1] == c[|c| - 1];
  }

  /**
    Once the reader has stopped, a subscriber has seen the end if and only if its sink was registered
    before the reader swept up and no user thread erased it before its end was at hand. A later one
    is never called at all, and one that was cut off is not told, whatever the header promises.
  */
  lemma EveryoneIsTold(ss: seq<State>, acts: seq<Action>, n: nat, id: nat)
    requires Run(ss, acts) && n <= |acts| && ss[n].reader == Stopped && id in ss[n].subs
    ensures Finished(Of(ss[n].calls, id)) <==> id !in ss[n].late && id !in ss[n].cut
    ensures id in ss[n].late ==> Of(ss[n].calls, id) == []
  {
    RunFine(ss[..n + 1], acts[..n], id);
  }

  // A subscription that is registered when the reader ends gets exactly one more call, the final one.
  lemma {:induction false} SweptOnce(ss: seq<State>, acts: seq<Action>, m: nat, n: nat, id: nat)
    requires Run(ss, acts) && m < n <= |acts| && acts[m].ReaderEnds? && IsSubscription(ss[m], id)
    ensures var c, v := Of(ss[m].calls, id), LifeOf(ss[n], id);
            v.over && if v.role == Owing then v.calls == c else v.role == Away && v.calls == c + [CLOSED]
    ensures ss[n].reader == Stopped ==> Of(ss[n].calls, id) == Of(ss[m].calls, id) + [CLOSED]
    decreases n
  {
    RunFine(ss[..n], acts[..n - 1], id);
    if m + 1 < n { SweptOnce(ss, acts, m, n - 1, id); }
    hide Fine, Sane;
    StepMoves(ss[n - 1], acts[n - 1], id);
    var v, v', move := LifeOf(ss[n - 1], id), LifeOf(ss[n], id), MoveOf(ss[n - 1], acts[n - 1], id);
    assert v' == Moved(v, move) && Possible(v, move);
    assert ss[n].reader == Stopped ==> v'.role == Away;
    if m + 1 == n {
      assert move == Swept && v.place == Subscribed;
    } else {
      assert v.over && (move.Answered? ==> v.role.Owing?) && !move.Swept? && !move.Forgotten?;
    }
    hide LifeOf, MoveOf;
  }

  // A subscriber that unsubscribes is not told, unless its end is already on its way.
  lemma UnsubscribedIsNotTold()
    ensures exists ss: seq<State>, acts: seq<Action> :: Run(ss, acts) && Erase(1) in acts
              && var s := ss[|acts|]; s.reader == Stopped && 1 in s.subs && 1 in s.cut && Of(s.calls, 1) == []
    ensures exists ss: seq<State>, acts: seq<Action> :: Run(ss, acts) && Erase(1) in acts
              && var s := ss[|acts|]; 1 in s.subs && 1 !in s.cut && Of(s.calls, 1) == [CLOSED]
  {
    NotTold();
    ToldAnyway();
  }

  lemma FiveSteps(ss: seq<State>, acts: seq<Action>)
    requires |ss| == 6 && |acts| == 5 && ss[0] == START
    requires Allowed(ss[0], acts[0]) && ss[1] == After(ss[0], acts[0]) && Allowed(ss[1], acts[1]) && ss[2] == After(ss[1], acts[1])
    requires Allowed(ss[2], acts[2]) && ss[3] == After(ss[2], acts[2]) && Allowed(ss[3], acts[3]) && ss[4] == After(ss[3], acts[3])
    requires Allowed(ss[4], acts[4]) && ss[5] == After(ss[4], acts[4])
    ensures Run(ss, acts)
  {
    hide After, Allowed;
  }

  // The first subscription, before and after its registration.
  const RESERVED := State(2, {1}, map[], Idle, map[], map[], {}, {}, {})
  const REGISTERED := State(2, {}, map[1 := true], Idle, map[], map[], {1}, {}, {})

  lemma FirstSubscription()
    ensures Allowed(START, Reserve) && RESERVED == After(START, Reserve)
    ensures Allowed(RESERVED, Register(1, true)) && REGISTERED == After(RESERVED, Register(1, true))
  {
  }

  lemma CutOff(s3: State, s4: State, s5: State)
    requires s3 == State(2, {}, map[], Idle, map[], map[], {1}, {1}, {})
    requires s4 == s3.(reader := Sweeping([])) && s5 == s3.(reader := Stopped)
    ensures s3 == After(REGISTERED, Erase(1)) && Allowed(s3, ReaderEnds([])) && s4 == After(s3, ReaderEnds([]))
    ensures Allowed(s4, Call) && s5 == After(s4, Call)
  {
  }

  lemma NotTold()
    ensures exists ss: seq<State>, acts: seq<Action> :: Run(ss, acts) && Erase(1) in acts
              && var s := ss[|acts|]; s.reader == Stopped && 1 in s.subs && 1 in s.cut && Of(s.calls, 1) == []
  {
    var s3 := State(2, {}, map[], Idle, map[], map[], {1}, {1}, {});
    var s4, s5 := s3.(reader := Sweeping([])), s3.(reader := Stopped);
    var ss := [START, RESERVED, REGISTERED, s3, s4, s5];
    var acts := [Reserve, Register(1, true), Erase(1), ReaderEnds([]), Call];
    FirstSubscription();
    CutOff(s3, s4, s5);
    hide After, Run;
    FiveSteps(ss, acts);
    assert acts[2] == Erase(1) && ss[|acts|] == s5;
  }

  lemma ErasedDuringTheEnd(s3: State, s4: State, s5: State)
    requires s3 == REGISTERED.(reader := Delivering(1, CLOSED, true, true), chunks := map[1 := [CLOSED]])
    requires s4 == s3.(sinks := map[]) && s5 == s4.(reader := Erasing(1, true), calls := map[1 := [CLOSED]])
    ensures Allowed(REGISTERED, Chunk(1, CLOSED)) && s3 == After(REGISTERED, Chunk(1, CLOSED))
    ensures s4 == After(s3, Erase(1)) && Allowed(s4, Call) && s5 == After(s4, Call)
  {
    assert [] + [CLOSED] == [CLOSED];
  }

  lemma ToldAnyway()
    ensures exists ss: seq<State>, acts: seq<Action> :: Run(ss, acts) && Erase(1) in acts
              && var s := ss[|acts|]; 1 in s.subs && 1 !in s.cut && Of(s.calls, 1) == [CLOSED]
  {
    var s3 := REGISTERED.(reader := Delivering(1, CLOSED, true, true), chunks := map[1 := [CLOSED]]);
    var s4 := s3.(sinks := map[]);
    var s5 := s4.(reader := Erasing(1, true), calls := map[1 := [CLOSED]]);
    var ss := [START, RESERVED, REGISTERED, s3, s4, s5];
    var acts := [Reserve, Register(1, true), Chunk(1, CLOSED), Erase(1), Call];
    FirstSubscription();
    ErasedDuringTheEnd(s3, s4, s5);
    hide After, Run;
    FiveSteps(ss, acts);
    assert acts[3] == Erase(1) && ss[|acts|] == s5;
  }

  // A subscription made just after the reader has gone stays in the table and is never told.
  lemma LateSubscriber()
    ensures exists ss: seq<State>, acts: seq<Action> :: Run(ss, acts)
              && var s := ss[|acts|]; s.reader == Stopped && IsSubscription(s, 1) && 1 in s.late && Of(s.calls, 1) == []
  {
    var acts := [ReaderEnds([]), Call, Reserve, Register(1, true)];
    var s1 := After(START, acts[0]);
    var s2 := After(s1, acts[1]);
    var s3 := After(s2, acts[2]);
    var s4 := After(s3, acts[3]);
    var ss := [START, s1, s2, s3, s4];
    assert s4.reader == Stopped && IsSubscription(s4, 1) && 1 in s4.late && Of(s4.calls, 1) == [];
    hide After;
    assert Run(ss, acts);
    assert ss[|acts|] == s4;
  }

  /**
    A chunk that is received for a registered sink is the next call of it; the end of a subscription
    then takes it out of the table, and nothing else does. A chunk for any other request calls nobody.
  */
  lemma ChunkIsDelivered(s: State, id: nat, e: Event)
    requires s.reader == Idle
    ensures Allowed(s, Chunk(id, e)) && Allowed(After(s, Chunk(id, e)), Call)
    ensures var t := After(After(s, Chunk(id, e)), Call);
            && (forall k :: Of(t.calls, k) == if k == id && id in s.sinks then Of(s.calls, k) + [e] else Of(s.calls, k))
            && t.sinks == s.sinks
            && (if e.closed then Allowed(t, Forget) && After(t, Forget).reader == Idle
                  && After(t, Forget).sinks == (if IsSubscription(s, id) then s.sinks - {id} else s.sinks)
                else t.reader == Idle)
  {
    hide Finished;
  }

  /** A refusal takes a subscription out of the table, with one closing call, and does nothing else. */
  lemma RefusalIsTold(s: State, id: nat)
    requires s.reader == Idle
    ensures Allowed(s, Refused(id))
    ensures !IsSubscription(s, id) ==> After(s, Refused(id)) == s
    ensures IsSubscription(s, id) ==>
            var t := After(s, Refused(id));
            && Allowed(t, Call)
            && var u := After(t, Call);
               && u.reader == Idle && u.sinks == s.sinks - {id}
               && forall k :: Of(u.calls, k) == if k == id then Of(s.calls, k) + [CLOSED] else Of(s.calls, k)
  {
    hide Finished;
  }

  // ---- the code --------------------------------------------------------------

  // The table and the reader's handlers, each run without interference; `calls` records callbacks.
  class SinkTable {
    var nextId: nat
    var sinks: map<nat, bool>
    var calls: map<nat, seq<Event>>
    ghost var rest: State

    ghost function View(): State
      reads this
    {
      rest.(nextId := nextId, sinks := sinks, calls := calls)
    }

    constructor ()
      ensures View() == START
    {
      nextId, sinks, calls := 1, map[], map[];
      rest := START;
    }

    method Add(subscription: bool) returns (id: nat)
      modifies this
      ensures id == old(nextId)
      ensures var s := After(old(View()), Reserve);
              Allowed(s, Register(id, subscription)) && View() == After(s, Register(id, subscription))
    {
      id := nextId;
      nextId := nextId + 1;
      rest := After(rest.(nextId := id), Reserve);
      sinks := sinks[id := subscription];
      rest := After(rest, Register(id, subscription));
    }

    method EraseSink(id: nat)
      modifies this
      ensures View() == After(old(View()), Erase(id))
    {
      rest := After(View(), Erase(id));
      sinks := sinks - {id};
    }

    method OnChunk(id: nat, e: Event)
      requires View().reader == Idle
      modifies this
      ensures var s := Called(After(old(View()), Chunk(id, e)));
              View() == if e.closed then After(s, Forget) else s
    {
      rest := After(View(), Chunk(id, e));
      var found := id in sinks;
      var isSubscription := found && sinks[id];
      if found { calls := calls[id := (if id in calls then calls[id] else []) + [e]]; }
      rest := Called(rest);
      if e.closed {
        if isSubscription { sinks := sinks - {id}; }
        rest := After(rest, Forget);
      }
    }

    // A RESPONSE that no get() waits for.
    method OnRefusal(id: nat)
      requires View().reader == Idle
      modifies this
      ensures var s := After(old(View()), Refused(id));
              View() == if s.reader.Refusing? then Called(s) else s
    {
      rest := After(View(), Refused(id));
      if id in sinks && sinks[id] {
        sinks := sinks - {id};
        calls := calls[id := (if id in calls then calls[id] else []) + [CLOSED]];
        rest := Called(rest);
      }
    }

    // The reader's way out: it collects and erases the subscriptions, then tells each of them.
    method Exit()
      requires View().reader == Idle
      modifies this
      ensures View().reader == Stopped
      ensures forall id :: id in sinks <==> id in old(sinks) && !old(sinks)[id]
      ensures forall id: nat :: Of(calls, id) == Of(old(calls), id) + (if old(IsSubscription(View(), id)) then [CLOSED] else [])
    {
      var order := Collect();
      Tell(order);
      rest := rest.(reader := Stopped);
    }

    method Collect() returns (order: seq<nat>)
      modifies this`sinks
      ensures NoRepeats(order) && forall id :: id in order <==> id in old(sinks) && old(sinks)[id]
      ensures forall id :: id in sinks <==> id in old(sinks) && !old(sinks)[id]
    {
      order := [];
      var keys := sinks.Keys;
      while keys != {}
        invariant Collected(old(sinks), sinks, keys, order)
        decreases keys
      {
        var id :| id in keys;
        CollectOne(old(sinks), sinks, keys, order, id);
        keys := keys - {id};
        if sinks[id] {
          order := order + [id];
          sinks := sinks - {id};
        }
      }
    }

    method Tell(order: seq<nat>)
      requires NoRepeats(order)
      modifies this`calls
      ensures Told(old(calls), calls, order)
    {
      var i := 0;
      while i < |order|
        invariant i <= |order| && Told(old(calls), calls, order[..i])
      {
        var id := order[i];
        TellOne(old(calls), calls, order, i);
        calls := calls[id := (if id in calls then calls[id] else []) + [CLOSED]];
        i := i + 1;
      }
      assert order[..i] == order;
    }
  }

  // In the middle of collecting: `keys` are still to be looked at.
  ghost predicate Collected(was: map<nat, bool>, sinks: map<nat, bool>, keys: set<nat>, order: seq<nat>) {
    && NoRepeats(order) && keys <= sinks.Keys
    && (forall id :: id in sinks <==> id in was && id !in order)
    && (forall id :: id in order <==> id in was && was[id] && id !in keys)
    && (forall id :: id in sinks ==> sinks[id] == was[id])
  }

  lemma CollectOne(was: map<nat, bool>, sinks: map<nat, bool>, keys: set<nat>, order: seq<nat>, id: nat)
    requires Collected(was, sinks, keys, order) && id in keys
    ensures if sinks[id] then Collected(was, sinks - {id}, keys - {id}, order + [id])
            else Collected(was, sinks, keys - {id}, order)
  {
    forall k ensures k in order + [id] <==> k in order || k == id {}
  }

  // These were called once more than before, and nobody else.
  ghost predicate Told(was: map<nat, seq<Event>>, calls: map<nat, seq<Event>>, order: seq<nat>) {
    forall id: nat :: Of(calls, id) == Of(was, id) + (if id in order then [CLOSED] else [])
  }

  lemma TellOne(was: map<nat, seq<Event>>, calls: map<nat, seq<Event>>, order: seq<nat>, i: nat)
    requires NoRepeats(order) && i < |order| && Told(was, calls, order[..i])
    ensures Told(was, Log(calls, order[i], CLOSED), order[..i + 1])
  {
    var done := order[..i];
    assert order[..i + 1] == done + [order[i]] && order[i] !in done;
  }
}
