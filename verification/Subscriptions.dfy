/**
  The two records of a subscription: the topic's list of subscribers and the connection's `my_subs`.
  A topic's list changes under the topic's lock and any publisher may prune it at any time. `my_subs`
  belongs to the connection's own thread, which updates the two records one after the other and, on
  its way out, detaches from one topic after the other; publishers may run in between.
*/
module Subscriptions {

  // (connection, request id) in a topic's list; (topic, request id) in a connection's.
  type Entry = (nat, nat)

  // Where the connection's thread is.
  datatype Phase =
    | Serving
    | Adding(topic: nat, id: nat)   // added to the topic, not yet to my_subs
    | Forgetting(at: nat)           // removed from the topic, still in my_subs
    | Leaving(todo: seq<Entry>)     // these remain to be detached from
    | Gone

  datatype Hub = Hub(topics: map<nat, seq<Entry>>, mine: map<nat, seq<Entry>>, phases: map<nat, Phase>, limit: nat)

  function Subscribers(h: Hub, topic: nat): seq<Entry> {
    if topic in h.topics then h.topics[topic] else []
  }

  function MySubs(h: Hub, conn: nat): seq<Entry> {
    if conn in h.mine then h.mine[conn] else []
  }

  // A connection that was never accepted is as good as gone.
  function PhaseOf(h: Hub, conn: nat): Phase {
    if conn in h.phases then h.phases[conn] else Gone
  }

  function Without(s: seq<Entry>, i: nat): seq<Entry> {
    if i < |s| then s[..i] + s[i + 1..] else s
  }

  // The index of the first entry equal to e, or |s|.
  function IndexOf(s: seq<Entry>, e: Entry): (i: nat)
    ensures i <= |s| && (i < |s| ==> s[i] == e) && (i == |s| ==> e !in s)
  {
    if s == [] || s[0] == e then 0 else 1 + IndexOf(s[1..], e)
  }

  // The index of the first entry with this request id, or |s|.
  function IndexOfId(s: seq<Entry>, id: nat): (i: nat)
    ensures i <= |s| && (i < |s| ==> s[i].1 == id)
    ensures forall k :: 0 <= k < i ==> s[k].1 != id
  {
    if s == [] || s[0].1 == id then 0 else 1 + IndexOfId(s[1..], id)
  }

  function RemoveOne(s: seq<Entry>, e: Entry): seq<Entry> {
    Without(s, IndexOf(s, e))
  }

  function RemoveConn(s: seq<Entry>, conn: nat): seq<Entry> {
    if s == [] then []
    else if s[0].0 == conn then RemoveConn(s[1..], conn)
    else [s[0]] + RemoveConn(s[1..], conn)
  }

  // ---- what the connections' threads and the publishers do -------------------

  predicate Full(h: Hub, conn: nat) {
    h.limit > 0 && |MySubs(h, conn)| >= h.limit
  }

  datatype Action =
    | Accept(conn: nat)
    | Add(conn: nat, topic: nat, id: nat)
    | Remember(conn: nat)
    | Remove(conn: nat, id: nat)
    | Forget(conn: nat)
    | Leave(conn: nat)
    | Detach(conn: nat)
    | End(conn: nat)
    | Prune(topic: nat, kept: seq<Entry>)

  // Connections are new when accepted; a prune keeps part of what was there.
  ghost predicate Allowed(h: Hub, a: Action) {
    match a
    case Accept(c) => c !in h.phases && c !in h.mine
    case Add(c, _, _) => PhaseOf(h, c) == Serving
    case Remember(c) => PhaseOf(h, c).Adding?
    case Remove(c, id) => PhaseOf(h, c) == Serving
    case Forget(c) => PhaseOf(h, c).Forgetting?
    case Leave(c) => PhaseOf(h, c) == Serving
    case Detach(c) => PhaseOf(h, c).Leaving? && PhaseOf(h, c).todo != []
    case End(c) => PhaseOf(h, c) == Leaving([])
    case Prune(topic, kept) => multiset(kept) <= multiset(Subscribers(h, topic))
  }

  function SetPhase(h: Hub, conn: nat, p: Phase): Hub {
    h.(phases := h.phases[conn := p])
  }

  function SetTopic(h: Hub, topic: nat, s: seq<Entry>): Hub {
    h.(topics := h.topics[topic := s])
  }

  function SetMine(h: Hub, conn: nat, s: seq<Entry>): Hub {
    h.(mine := h.mine[conn := s])
  }

  function After(h: Hub, a: Action): Hub
    requires Allowed(h, a)
  {
    match a
    case Accept(c) => SetMine(SetPhase(h, c, Serving), c, [])
    case Add(c, topic, id) =>
      if Full(h, c) then h
      else SetPhase(SetTopic(h, topic, Subscribers(h, topic) + [(c, id)]), c, Adding(topic, id))
    case Remember(c) =>
      var p := PhaseOf(h, c);
      SetPhase(SetMine(h, c, MySubs(h, c) + [(p.topic, p.id)]), c, Serving)
    case Remove(c, id) =>
      var s := MySubs(h, c);
      var i := IndexOfId(s, id);
      if i == |s| then h
      else SetPhase(SetTopic(h, s[i].0, RemoveOne(Subscribers(h, s[i].0), (c, id))), c, Forgetting(i))
    case Forget(c) => SetPhase(SetMine(h, c, Without(MySubs(h, c), PhaseOf(h, c).at)), c, Serving)
    case Leave(c) => SetPhase(h, c, Leaving(MySubs(h, c)))
    case Detach(c) =>
      var todo := PhaseOf(h, c).todo;
      SetPhase(SetTopic(h, todo[0].0, RemoveConn(Subscribers(h, todo[0].0), c)), c, Leaving(todo[1..]))
    case End(c) => SetPhase(h, c, Gone)
    case Prune(topic, kept) => SetTopic(h, topic, kept)
  }

  ghost predicate Run(hs: seq<Hub>, acts: seq<Action>) {
    && |hs| == |acts| + 1
    && forall i :: 0 <= i < |acts| ==> Allowed(hs[i], acts[i]) && hs[i + 1] == After(hs[i], acts[i])
  }

  // ---- counting --------------------------------------------------------------

  function Count(s: seq<Entry>, e: Entry): nat {
    multiset(s)[e]
  }

  lemma CountAppended(s: seq<Entry>, e: Entry, x: Entry)
    ensures Count(s + [e], x) == Count(s, x) + (if x == e then 1 else 0)
  {
  }

  lemma CountWithout(s: seq<Entry>, i: nat, x: Entry)
    requires i < |s|
    ensures Count(s, x) == Count(Without(s, i), x) + (if x == s[i] then 1 else 0)
  {
    assert s == s[..i] + [s[i]] + s[i + 1..];
  }

  lemma CountRemoved(s: seq<Entry>, e: Entry, x: Entry)
    ensures Count(s, x) == Count(RemoveOne(s, e), x) + (if x == e && Count(s, e) > 0 then 1 else 0)
  {
    var i := IndexOf(s, e);
    if i < |s| { CountWithout(s, i, x); }
    else { assert e !in multiset(s); }
  }

  lemma {:induction false} CountDetached(s: seq<Entry>, conn: nat, x: Entry)
    ensures Count(RemoveConn(s, conn), x) == if x.0 == conn then 0 else Count(s, x)
  {
    if s != [] {
      CountDetached(s[1..], conn, x);
      assert s == [s[0]] + s[1..];
    }
  }

  lemma CountFewer(s: seq<Entry>, u: seq<Entry>, x: Entry)
    requires multiset(s) <= multiset(u)
    ensures Count(s, x) <= Count(u, x)
  {
  }

  // ---- coherence -------------------------------------------------------------

  // How often this connection is in this topic's list under this id, and in its own.
  function Theirs(h: Hub, conn: nat, topic: nat, id: nat): nat {
    Count(Subscribers(h, topic), (conn, id))
  }

  function Ours(h: Hub, conn: nat, topic: nat, id: nat): nat {
    Count(MySubs(h, conn), (topic, id))
  }

  // By how much the two may differ in the middle of an update.
  function Slack(h: Hub, conn: nat, topic: nat, id: nat): int {
    match PhaseOf(h, conn)
    case Adding(t, k) => if t == topic && k == id then 1 else 0
    case Forgetting(at) => if at < |MySubs(h, conn)| && MySubs(h, conn)[at] == (topic, id) then -1 else 0
    case _ => 0
  }

  ghost predicate Covers(todo: seq<Entry>, topic: nat) {
    exists k :: 0 <= k < |todo| && todo[k].0 == topic
  }

  ghost predicate Agree(h: Hub, c: nat, t: nat, id: nat) {
    && Theirs(h, c, t, id) <= Ours(h, c, t, id) + Slack(h, c, t, id)
    && (PhaseOf(h, c) == Gone ==> Theirs(h, c, t, id) == 0)
    && (PhaseOf(h, c).Leaving? && Theirs(h, c, t, id) > 0 ==> Covers(PhaseOf(h, c).todo, t))
  }

  ghost predicate Within(h: Hub, c: nat) {
    && (h.limit > 0 ==> |MySubs(h, c)| + (if PhaseOf(h, c).Adding? then 1 else 0) <= h.limit)
    && (PhaseOf(h, c).Forgetting? ==> PhaseOf(h, c).at < |MySubs(h, c)|)
  }

  ghost predicate Coherent(h: Hub) {
    && (forall c: nat, t: nat, id: nat :: Agree(h, c, t, id))
    && (forall c: nat :: Within(h, c))
  }

  lemma CountedCovers(s: seq<Entry>, t: nat, id: nat)
    ensures Count(s, (t, id)) > 0 ==> Covers(s, t)
  {
    if Count(s, (t, id)) > 0 {
      assert (t, id) in multiset(s);
      var k :| 0 <= k < |s| && s[k] == (t, id);
    }
  }

  lemma CoversRest(todo: seq<Entry>, t: nat)
    requires todo != [] && Covers(todo, t) && todo[0].0 != t
    ensures Covers(todo[1..], t)
  {
    var k :| 0 <= k < |todo| && todo[k].0 == t;
    assert todo[1..][k - 1].0 == t;
  }

  // The entry found in my_subs is there at least once, so one fewer in the topic leaves room to forget it.
  lemma RemoveAgrees(h: Hub, c: nat, id0: nat, t: nat, id: nat)
    requires Agree(h, c, t, id) && PhaseOf(h, c) == Serving
    ensures Agree(After(h, Remove(c, id0)), c, t, id)
  {
    hide Count, Without, RemoveOne;
    var s := MySubs(h, c);
    var i := IndexOfId(s, id0);
    CountRemoved(Subscribers(h, t), (c, id0), (c, id));
    if i < |s| { CountWithout(s, i, (t, id)); }
  }

  lemma AddAgrees(h: Hub, a: Action, c: nat, t: nat, id: nat)
    requires Agree(h, c, t, id) && Within(h, c) && Allowed(h, a) && a.Add?
    ensures Agree(After(h, a), c, t, id)
  {
    hide Count, Without, RemoveOne, RemoveConn;
    CountAppended(Subscribers(h, t), (a.conn, a.id), (c, id));
  }

  lemma RememberAgrees(h: Hub, a: Action, c: nat, t: nat, id: nat)
    requires Agree(h, c, t, id) && Within(h, c) && Allowed(h, a) && a.Remember?
    ensures Agree(After(h, a), c, t, id)
  {
    hide Count, Without, RemoveOne, RemoveConn;
    CountAppended(MySubs(h, c), (PhaseOf(h, a.conn).topic, PhaseOf(h, a.conn).id), (t, id));
  }

  lemma RemoveStepAgrees(h: Hub, a: Action, c: nat, t: nat, id: nat)
    requires Agree(h, c, t, id) && Within(h, c) && Allowed(h, a) && a.Remove?
    ensures Agree(After(h, a), c, t, id)
  {
    hide Count, Without, RemoveOne, RemoveConn;
    CountRemoved(Subscribers(h, t), (a.conn, a.id), (c, id));
    if c == a.conn { RemoveAgrees(h, c, a.id, t, id); }
  }

  lemma ForgetAgrees(h: Hub, a: Action, c: nat, t: nat, id: nat)
    requires Agree(h, c, t, id) && Within(h, c) && Allowed(h, a) && a.Forget?
    ensures Agree(After(h, a), c, t, id)
  {
    hide Count, Without, RemoveOne, RemoveConn;
    if c == a.conn { CountWithout(MySubs(h, c), PhaseOf(h, c).at, (t, id)); }
  }

  lemma LeaveAgrees(h: Hub, a: Action, c: nat, t: nat, id: nat)
    requires Agree(h, c, t, id) && Within(h, c) && Allowed(h, a) && a.Leave?
    ensures Agree(After(h, a), c, t, id)
  {
    hide Count, Without, RemoveOne, RemoveConn;
    if c == a.conn { CountedCovers(MySubs(h, c), t, id); }
  }

  lemma DetachAgrees(h: Hub, a: Action, c: nat, t: nat, id: nat)
    requires Agree(h, c, t, id) && Within(h, c) && Allowed(h, a) && a.Detach?
    ensures Agree(After(h, a), c, t, id)
  {
    hide Count, Without, RemoveOne, RemoveConn;
    CountDetached(Subscribers(h, t), a.conn, (c, id));
    if c == a.conn && PhaseOf(h, c).todo[0].0 != t && Theirs(h, c, t, id) > 0 { CoversRest(PhaseOf(h, c).todo, t); }
  }

  lemma PruneAgrees(h: Hub, a: Action, c: nat, t: nat, id: nat)
    requires Agree(h, c, t, id) && Within(h, c) && Allowed(h, a) && a.Prune?
    ensures Agree(After(h, a), c, t, id)
  {
    hide Count, Without, RemoveOne, RemoveConn;
    if a.topic == t { CountFewer(a.kept, Subscribers(h, t), (c, id)); }
  }

  lemma BoundaryAgrees(h: Hub, a: Action, c: nat, t: nat, id: nat)
    requires Agree(h, c, t, id) && Within(h, c) && Allowed(h, a) && (a.Accept? || a.End?)
    ensures Agree(After(h, a), c, t, id)
  {
    hide Count, Without, RemoveOne, RemoveConn;
  }

  // Each step keeps the two records in agreement, entry by entry.
  lemma StepAgrees(h: Hub, a: Action, c: nat, t: nat, id: nat)
    requires Agree(h, c, t, id) && Within(h, c) && Allowed(h, a)
    ensures Agree(After(h, a), c, t, id)
  {
    hide Agree, Within, Allowed, After;
    match a
    case Add(_, _, _) => AddAgrees(h, a, c, t, id);
    case Remember(_) => RememberAgrees(h, a, c, t, id);
    case Remove(_, _) => RemoveStepAgrees(h, a, c, t, id);
    case Forget(_) => ForgetAgrees(h, a, c, t, id);
    case Leave(_) => LeaveAgrees(h, a, c, t, id);
    case Detach(_) => DetachAgrees(h, a, c, t, id);
    case Prune(_, _) => PruneAgrees(h, a, c, t, id);
    case _ => BoundaryAgrees(h, a, c, t, id);
  }

  lemma StepWithin(h: Hub, a: Action, c: nat)
    requires Within(h, c) && Allowed(h, a)
    ensures Within(After(h, a), c)
  {
    hide RemoveOne, RemoveConn;
  }

  lemma StepCoherent(h: Hub, a: Action)
    requires Coherent(h) && Allowed(h, a)
    ensures Coherent(After(h, a))
  {
    hide Agree, Within, After;
    forall c: nat, t: nat, id: nat ensures Agree(After(h, a), c, t, id) {
      assert Agree(h, c, t, id) && Within(h, c);
      StepAgrees(h, a, c, t, id);
    }
    forall c: nat ensures Within(After(h, a), c) { StepWithin(h, a, c); }
  }

  lemma {:induction false} RunCoherent(hs: seq<Hub>, acts: seq<Action>, limit: nat)
    requires Run(hs, acts) && hs[0] == Hub(map[], map[], map[], limit)
    ensures Coherent(hs[|acts|]) && hs[|acts|].limit == limit
  {
    var n := |acts|;
    if n > 0 {
      RunCoherent(hs[..n], acts[..n - 1], limit);
      StepCoherent(hs[n - 1], acts[n - 1]);
    }
  }

  /**
    In every state of every run: the subscriptions a connection has in the topics are among those it
    remembers, with multiplicity, but for the one it is about to write down; what it remembers never
    exceeds a nonzero limit; and once its thread has finished no topic refers to it.
  */
  lemma RecordsAgree(hs: seq<Hub>, acts: seq<Action>, limit: nat, n: nat, c: nat, t: nat, id: nat)
    requires Run(hs, acts) && hs[0] == Hub(map[], map[], map[], limit) && n <= |acts|
    ensures var h := hs[n];
            && Theirs(h, c, t, id) <= Ours(h, c, t, id) + (if PhaseOf(h, c) == Adding(t, id) then 1 else 0)
            && (limit > 0 ==> |MySubs(h, c)| <= limit)
            && (PhaseOf(h, c) == Gone ==> Theirs(h, c, t, id) == 0 && forall e :: e in Subscribers(h, t) ==> e.0 != c)
  {
    var h := hs[n];
    RunCoherent(hs[..n + 1], acts[..n], limit);
    assert Agree(h, c, t, id) && Within(h, c);
    if PhaseOf(h, c) == Gone {
      forall e | e in Subscribers(h, t) ensures e.0 != c {
        assert Agree(h, c, t, e.1);
        assert e in multiset(Subscribers(h, t));
      }
    }
  }

  // ---- what a subscription changes -------------------------------------------

  // Only this entry is counted differently, by so many.
  ghost predicate Differs(h: Hub, g: Hub, conn: nat, topic: nat, id: nat, theirs: int, ours: int) {
    && Theirs(g, conn, topic, id) == Theirs(h, conn, topic, id) + theirs
    && Ours(g, conn, topic, id) == Ours(h, conn, topic, id) + ours
    && (forall c: nat, t: nat, k: nat :: (c, t, k) != (conn, topic, id) ==>
          Theirs(g, c, t, k) == Theirs(h, c, t, k) && Ours(g, c, t, k) == Ours(h, c, t, k))
  }

  // One topic's list and one connection's list are replaced.
  ghost predicate Rewritten(h: Hub, g: Hub, c: nat, topic: nat, theirs: seq<Entry>, ours: seq<Entry>) {
    && (forall t: nat :: Subscribers(g, t) == if t == topic then theirs else Subscribers(h, t))
    && (forall d: nat :: MySubs(g, d) == if d == c then ours else MySubs(h, d))
  }

  lemma AppendedDiffers(h: Hub, g: Hub, c: nat, topic: nat, id: nat)
    requires Rewritten(h, g, c, topic, Subscribers(h, topic) + [(c, id)], MySubs(h, c) + [(topic, id)])
    ensures Differs(h, g, c, topic, id, 1, 1)
  {
    hide Subscribers, MySubs, Count;
    forall d: nat, t: nat, k: nat
      ensures Theirs(g, d, t, k) == Theirs(h, d, t, k) + (if (d, t, k) == (c, topic, id) then 1 else 0)
      ensures Ours(g, d, t, k) == Ours(h, d, t, k) + (if (d, t, k) == (c, topic, id) then 1 else 0)
    {
      CountAppended(Subscribers(h, topic), (c, id), (d, k));
      CountAppended(MySubs(h, c), (topic, id), (t, k));
    }
    hide Theirs, Ours;
  }

  lemma RemovedDiffers(h: Hub, g: Hub, c: nat, topic: nat, id: nat, i: nat)
    requires i < |MySubs(h, c)| && MySubs(h, c)[i] == (topic, id)
    requires Rewritten(h, g, c, topic, RemoveOne(Subscribers(h, topic), (c, id)), Without(MySubs(h, c), i))
    ensures Differs(h, g, c, topic, id, if Theirs(h, c, topic, id) > 0 then -1 else 0, -1)
  {
    hide Subscribers, MySubs, Count, RemoveOne, Without;
    forall d: nat, t: nat, k: nat
      ensures Theirs(g, d, t, k) == Theirs(h, d, t, k) - (if (d, t, k) == (c, topic, id) && Theirs(h, c, topic, id) > 0 then 1 else 0)
      ensures Ours(g, d, t, k) == Ours(h, d, t, k) - (if (d, t, k) == (c, topic, id) then 1 else 0)
    {
      CountRemoved(Subscribers(h, topic), (c, id), (d, k));
      CountWithout(MySubs(h, c), i, (t, k));
    }
    hide Theirs, Ours;
  }

  /** Subscribing adds one entry to both records and changes no other, unless the connection is at its limit. */
  lemma SubscribeAdds(h: Hub, c: nat, topic: nat, id: nat)
    requires PhaseOf(h, c) == Serving
    ensures var g := After(h, Add(c, topic, id));
            if h.limit != 0 && |MySubs(h, c)| >= h.limit then g == h
            else
              && Allowed(g, Remember(c))
              && var g' := After(g, Remember(c));
                 PhaseOf(g', c) == Serving && Differs(h, g', c, topic, id, 1, 1)
  {
    hide Differs;
    if !Full(h, c) {
      AppendedDiffers(h, After(After(h, Add(c, topic, id)), Remember(c)), c, topic, id);
    }
  }

  /**
    Unsubscribing takes the first subscription under this id out of both records - out of the topic's
    if it is still there - and changes no other; without one it does nothing.
  */
  lemma UnsubscribeRemoves(h: Hub, c: nat, id: nat)
    requires PhaseOf(h, c) == Serving
    ensures var s := MySubs(h, c);
            var i := IndexOfId(s, id);
            var g := After(h, Remove(c, id));
            if forall k :: 0 <= k < |s| ==> s[k].1 != id then g == h
            else
              && i < |s| && s[i].1 == id && (forall k :: 0 <= k < i ==> s[k].1 != id)
              && Allowed(g, Forget(c))
              && var g' := After(g, Forget(c));
                 PhaseOf(g', c) == Serving && Differs(h, g', c, s[i].0, id, if Theirs(h, c, s[i].0, id) > 0 then -1 else 0, -1)
  {
    hide Differs, Theirs, RemoveOne, Without;
    var s := MySubs(h, c);
    var i := IndexOfId(s, id);
    if i < |s| {
      RemovedDiffers(h, After(After(h, Remove(c, id)), Forget(c)), c, s[i].0, id, i);
    }
  }

  // ---- the code --------------------------------------------------------------

  // All detaching steps of a leaving connection, one after the other.
  ghost function Drained(h: Hub, conn: nat): Hub
    requires PhaseOf(h, conn).Leaving?
    decreases |PhaseOf(h, conn).todo|
  {
    if PhaseOf(h, conn).todo == [] then h else Drained(After(h, Detach(conn)), conn)
  }

  // `phases` only says where each thread is; the code has no such field.
  class Topics {
    var topics: map<nat, seq<Entry>>
    var mine: map<nat, seq<Entry>>
    const limit: nat
    ghost var phases: map<nat, Phase>

    ghost function View(): Hub
      reads this
    {
      Hub(topics, mine, phases, limit)
    }

    constructor (limit: nat)
      ensures View() == Hub(map[], map[], map[], limit)
    {
      topics, mine, phases := map[], map[], map[];
      this.limit := limit;
    }

    // `ok` is false when the limit refuses the subscription.
    method Subscribe(conn: nat, topic: nat, id: nat) returns (ok: bool)
      requires PhaseOf(View(), conn) == Serving
      modifies this
      ensures ok == !old(Full(View(), conn))
      ensures !ok ==> View() == old(View())
      ensures ok ==> Allowed(old(View()), Add(conn, topic, id))
                     && var h := After(old(View()), Add(conn, topic, id));
                        Allowed(h, Remember(conn)) && View() == After(h, Remember(conn))
    {
      var s := if conn in mine then mine[conn] else [];
      if limit > 0 && |s| >= limit { return false; }
      topics := topics[topic := (if topic in topics then topics[topic] else []) + [(conn, id)]];
      phases := phases[conn := Adding(topic, id)];
      mine := mine[conn := s + [(topic, id)]];
      phases := phases[conn := Serving];
      return true;
    }

    method Unsubscribe(conn: nat, id: nat)
      requires PhaseOf(View(), conn) == Serving
      modifies this
      ensures var h := After(old(View()), Remove(conn, id));
              View() == if Allowed(h, Forget(conn)) then After(h, Forget(conn)) else h
    {
      var s := if conn in mine then mine[conn] else [];
      var i := 0;
      while i < |s|
        invariant i <= |s| && View() == old(View())
        invariant forall k :: 0 <= k < i ==> s[k].1 != id
      {
        if s[i].1 == id {
          assert IndexOfId(s, id) == i;
          var topic := s[i].0;
          topics := topics[topic := RemoveOne(if topic in topics then topics[topic] else [], (conn, id))];
          phases := phases[conn := Forgetting(i)];
          mine := mine[conn := s[..i] + s[i + 1..]];
          phases := phases[conn := Serving];
          return;
        }
        i := i + 1;
      }
    }

    // The way out of the connection's thread.
    method Finish(conn: nat)
      requires PhaseOf(View(), conn) == Serving
      modifies this
      ensures View() == SetPhase(Drained(After(old(View()), Leave(conn)), conn), conn, Gone)
    {
      var s := if conn in mine then mine[conn] else [];
      phases := phases[conn := Leaving(s)];
      var i := 0;
      while i < |s|
        invariant i <= |s| && mine == old(mine) && PhaseOf(View(), conn) == Leaving(s[i..])
        invariant Drained(View(), conn) == Drained(After(old(View()), Leave(conn)), conn)
      {
        ghost var before := View();
        assert s[i..][0] == s[i] && s[i..][1..] == s[i + 1..];
        var topic := s[i].0;
        topics := topics[topic := RemoveConn(if topic in topics then topics[topic] else [], conn)];
        phases := phases[conn := Leaving(s[i + 1..])];
        assert View() == After(before, Detach(conn));
        i := i + 1;
      }
      phases := phases[conn := Gone];
    }
  }
}
