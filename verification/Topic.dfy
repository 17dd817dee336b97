/**
  The broadcaster behind one topic. A subscription gets a ticket when it is added; the model keeps,
  per ticket, the chunks that were written to its subscriber. The outcome of the write to ticket t is
  a parameter, `fails(t)`; a connection whose write failed is dead for all its subscriptions.
*/
module Topic {
  import opened Bytes

  datatype Sub = Sub(conn: nat, id: nat, seqNo: nat, ticket: nat)

  datatype Chunk = Chunk(id: nat, seqNo: nat, last: bool, data: seq<byte>)

  // Who subscribed, and how many messages had been published by then.
  datatype Ticket = Ticket(conn: nat, id: nat, joined: nat)

  /**
    `subs` is the vector of the code and `dead` its connections that are no longer alive. The rest is
    history: tickets in order, chunks written per ticket, how many messages had been published when
    a ticket ended, and the messages themselves.
  */
  datatype Feed = Feed(
    subs: seq<Sub>, dead: set<nat>, tickets: seq<Ticket>, logs: seq<seq<Chunk>>, ended: map<nat, nat>,
    published: seq<seq<byte>>)

  const EMPTY := Feed([], {}, [], [], map[], [])

  // ---- what the operations do ------------------------------------------------

  function Append(logs: seq<seq<Chunk>>, t: nat, c: Chunk): seq<seq<Chunk>> {
    if t < |logs| then logs[t := logs[t] + [c]] else logs
  }

  predicate Sends(f: Feed, s: Sub, fails: nat -> bool) {
    s.conn !in f.dead && !fails(s.ticket)
  }

  function Drop(f: Feed, s: Sub): Feed {
    f.(dead := f.dead + {s.conn}, ended := f.ended[s.ticket := |f.published|])
  }

  // `publish` has gone through `done`, keeping them, and still has `todo` to visit.
  function PublishRest(f: Feed, done: seq<Sub>, todo: seq<Sub>, message: seq<byte>, fails: nat -> bool): Feed
    decreases |todo|
  {
    if todo == [] then f.(subs := done, published := f.published + [message]) else
    var s := todo[0];
    if Sends(f, s, fails) then
      var logs := Append(f.logs, s.ticket, Chunk(s.id, s.seqNo, false, message));
      PublishRest(f.(logs := logs), done + [s.(seqNo := (s.seqNo + 1) % TWO32)], todo[1..], message, fails)
    else
      PublishRest(Drop(f, s), done, todo[1..], message, fails)
  }

  function PublishTo(f: Feed, message: seq<byte>, fails: nat -> bool): Feed {
    PublishRest(f, [], f.subs, message, fails)
  }

  function HeartbeatRest(f: Feed, done: seq<Sub>, todo: seq<Sub>, fails: nat -> bool): Feed
    decreases |todo|
  {
    if todo == [] then f.(subs := done)
    else if Sends(f, todo[0], fails) then HeartbeatRest(f, done + [todo[0]], todo[1..], fails)
    else HeartbeatRest(Drop(f, todo[0]), done, todo[1..], fails)
  }

  function BeatOn(f: Feed, fails: nat -> bool): Feed {
    HeartbeatRest(f, [], f.subs, fails)
  }

  function AddTo(f: Feed, conn: nat, id: nat): Feed {
    var t := |f.tickets|;
    f.(subs := f.subs + [Sub(conn, id, 0, t)],
       tickets := f.tickets + [Ticket(conn, id, |f.published|)], logs := f.logs + [[]])
  }

  function End(f: Feed, s: Sub): map<nat, nat> {
    f.ended[s.ticket := |f.published|]
  }

  // The index of the first subscription of this connection and request, or |subs|.
  function Find(subs: seq<Sub>, conn: nat, id: nat): (i: nat)
    ensures i <= |subs|
    ensures i < |subs| ==> subs[i].conn == conn && subs[i].id == id
    ensures forall k :: 0 <= k < i ==> !(subs[k].conn == conn && subs[k].id == id)
  {
    if subs == [] || (subs[0].conn == conn && subs[0].id == id) then 0 else 1 + Find(subs[1..], conn, id)
  }

  function RemoveFrom(f: Feed, conn: nat, id: nat): Feed {
    var i := Find(f.subs, conn, id);
    if i == |f.subs| then f else f.(subs := f.subs[..i] + f.subs[i + 1..], ended := End(f, f.subs[i]))
  }

  function RemoveConnRest(f: Feed, done: seq<Sub>, todo: seq<Sub>, conn: nat): Feed
    decreases |todo|
  {
    if todo == [] then f.(subs := done)
    else if todo[0].conn == conn then RemoveConnRest(f.(ended := End(f, todo[0])), done, todo[1..], conn)
    else RemoveConnRest(f, done + [todo[0]], todo[1..], conn)
  }

  function DetachFrom(f: Feed, conn: nat): Feed {
    RemoveConnRest(f, [], f.subs, conn)
  }

  function CloseRest(f: Feed, todo: seq<Sub>, fails: nat -> bool): Feed
    decreases |todo|
  {
    if todo == [] then f.(subs := []) else
    var s := todo[0];
    var g := f.(ended := End(f, s));
    if Sends(f, s, fails) then
      CloseRest(g.(logs := Append(f.logs, s.ticket, Chunk(s.id, s.seqNo, true, []))), todo[1..], fails)
    else
      CloseRest(g.(dead := f.dead + {s.conn}), todo[1..], fails)
  }

  function CloseOf(f: Feed, fails: nat -> bool): Feed {
    CloseRest(f, f.subs, fails)
  }

  // ---- what a subscriber sees ------------------------------------------------

  // Messages from..from + n of the feed, numbered from 0 in 32 bits.
  function Run(t: Ticket, published: seq<seq<byte>>, n: nat): seq<Chunk>
    requires t.joined + n <= |published|
  {
    seq(n, i requires 0 <= i < n => Chunk(t.id, i % TWO32, false, published[t.joined + i]))
  }

  function Final(t: Ticket, n: nat): Chunk {
    Chunk(t.id, n % TWO32, true, [])
  }

  // A live subscription has got every message since it joined.
  ghost predicate Active(f: Feed, published: seq<seq<byte>>, s: Sub) {
    && s.ticket < |f.tickets| == |f.logs| && s.ticket !in f.ended
    && var t := f.tickets[s.ticket];
       && t.conn == s.conn && t.id == s.id && t.joined <= |published|
       && f.logs[s.ticket] == Run(t, published, |published| - t.joined)
       && s.seqNo == (|published| - t.joined) % TWO32
  }

  // An ended one has got every message from joining to ending, and perhaps the final chunk.
  ghost predicate Ended(f: Feed, published: seq<seq<byte>>, k: nat) {
    && k < |f.tickets| == |f.logs| && k in f.ended
    && var t := f.tickets[k];
       && t.joined <= f.ended[k] <= |published|
       && var run := Run(t, published, f.ended[k] - t.joined);
          f.logs[k] == run || f.logs[k] == run + [Final(t, f.ended[k] - t.joined)]
  }

  ghost predicate Distinct(subs: seq<Sub>) {
    forall i, j :: 0 <= i < j < |subs| ==> subs[i].ticket != subs[j].ticket
  }

  ghost predicate Listed(subs: seq<Sub>, k: nat) {
    exists i :: 0 <= i < |subs| && subs[i].ticket == k
  }

  ghost predicate Inv(f: Feed) {
    && |f.logs| == |f.tickets| && (forall k :: k in f.ended ==> k < |f.tickets|)
    && Distinct(f.subs)
    && (forall i :: 0 <= i < |f.subs| ==> Active(f, f.published, f.subs[i]))
    && (forall k: nat :: k < |f.tickets| ==> Listed(f.subs, k) || Ended(f, f.published, k))
  }

  // In the middle of a publish: `done` have the new message, `todo` not yet.
  ghost predicate Midway(f: Feed, done: seq<Sub>, todo: seq<Sub>, now: seq<seq<byte>>) {
    && |f.logs| == |f.tickets| && (forall k :: k in f.ended ==> k < |f.tickets|) && f.published <= now
    && Distinct(done + todo)
    && (forall i :: 0 <= i < |done| ==> Active(f, now, done[i]))
    && (forall i :: 0 <= i < |todo| ==> Active(f, f.published, todo[i]))
    && (forall k: nat :: k < |f.tickets| ==> Listed(done, k) || Listed(todo, k) || Ended(f, f.published, k))
  }

  lemma RunPrefix(t: Ticket, a: seq<seq<byte>>, b: seq<seq<byte>>, n: nat)
    requires a <= b && t.joined + n <= |a|
    ensures Run(t, a, n) == Run(t, b, n)
  {
  }

  lemma RunNext(t: Ticket, a: seq<seq<byte>>, m: seq<byte>, n: nat)
    requires t.joined + n == |a|
    ensures Run(t, a + [m], n + 1) == Run(t, a, n) + [Chunk(t.id, n % TWO32, false, m)]
  {
  }

  lemma NextSeq(n: nat)
    ensures (n % TWO32 + 1) % TWO32 == (n + 1) % TWO32
  {
  }

  // ---- one subscription at a time --------------------------------------------

  lemma Begin(f: Feed, now: seq<seq<byte>>)
    requires Inv(f) && f.published <= now
    ensures Midway(f, [], f.subs, now)
  {
    assert [] + f.subs == f.subs;
  }

  lemma Finish(f: Feed, done: seq<Sub>, now: seq<seq<byte>>)
    requires Midway(f, done, [], now)
    ensures Inv(f.(subs := done, published := now))
  {
    var g := f.(subs := done, published := now);
    assert done + [] == done;
    forall i | 0 <= i < |done| ensures Active(g, now, done[i]) { assert Active(f, now, done[i]); }
    forall k: nat | k < |g.tickets| && !Listed(done, k) ensures Ended(g, now, k) {
      assert !Listed([], k);
      RunPrefix(f.tickets[k], f.published, now, f.ended[k] - f.tickets[k].joined);
    }
  }

  // Moving the first of `todo` over to `done`, as it is or renumbered, or leaving it out.
  lemma MoveOver(done: seq<Sub>, todo: seq<Sub>, s: Sub)
    requires todo != [] && s.ticket == todo[0].ticket && Distinct(done + todo)
    ensures Distinct(done + [s] + todo[1..]) && Distinct(done + todo[1..])
    ensures forall k :: Listed(done, k) || Listed(todo, k) <==> Listed(done + [s], k) || Listed(todo[1..], k)
    ensures forall k :: Listed(done, k) || Listed(todo, k) ==> k == s.ticket || Listed(done, k) || Listed(todo[1..], k)
    ensures forall i :: 0 <= i < |done| ==> done[i].ticket != s.ticket
    ensures forall i :: 0 < i < |todo| ==> todo[i].ticket != s.ticket
  {
    var a, b := done + todo, done + [s] + todo[1..];
    assert |a| == |b| && forall i :: 0 <= i < |a| ==> a[i].ticket == b[i].ticket;
    forall i | 0 <= i < |done| ensures done[i].ticket != s.ticket { assert a[i] == done[i] && a[|done|] == todo[0]; }
    forall i | 0 < i < |todo| ensures todo[i].ticket != s.ticket { assert a[|done| + i] == todo[i] && a[|done|] == todo[0]; }
    var c := done + todo[1..];
    forall i, j | 0 <= i < j < |c| ensures c[i].ticket != c[j].ticket {
      assert c[i] == a[if i < |done| then i else i + 1] && c[j] == a[if j < |done| then j else j + 1];
    }
    forall k | Listed(todo, k) ensures k == s.ticket || Listed(todo[1..], k) {
      var i :| 0 <= i < |todo| && todo[i].ticket == k;
      if i > 0 { assert todo[1..][i - 1].ticket == k; }
    }
    forall k | Listed(done, k) || k == s.ticket ensures Listed(done + [s], k) {
      if k == s.ticket { assert (done + [s])[|done|].ticket == k; }
      else { var i :| 0 <= i < |done| && done[i].ticket == k; assert (done + [s])[i].ticket == k; }
    }
    forall k | Listed(done + [s], k) ensures Listed(done, k) || Listed(todo, k) {
      var i :| 0 <= i < |done + [s]| && (done + [s])[i].ticket == k;
      if i < |done| { assert done[i].ticket == k; } else { assert todo[0].ticket == k; }
    }
    forall k | Listed(todo[1..], k) ensures Listed(todo, k) {
      var i :| 0 <= i < |todo[1..]| && todo[1..][i].ticket == k;
      assert todo[i + 1].ticket == k;
    }
  }

  lemma KeepOne(f: Feed, done: seq<Sub>, todo: seq<Sub>)
    requires Midway(f, done, todo, f.published) && todo != []
    ensures Midway(f, done + [todo[0]], todo[1..], f.published)
  {
    MoveOver(done, todo, todo[0]);
  }

  // Only the log and the end of this one ticket differ.
  ghost predicate OnlyTicket(f: Feed, g: Feed, t: nat) {
    && g.tickets == f.tickets && g.published == f.published && |g.logs| == |f.logs|
    && (forall k :: 0 <= k < |f.logs| && k != t ==> g.logs[k] == f.logs[k])
    && (forall k :: k != t ==> (k in g.ended <==> k in f.ended) && (k in f.ended ==> g.ended[k] == f.ended[k]))
  }

  lemma OthersStay(f: Feed, g: Feed, t: nat, done: seq<Sub>, todo: seq<Sub>, now: seq<seq<byte>>)
    requires Midway(f, done, todo, now) && todo != [] && todo[0].ticket == t && OnlyTicket(f, g, t)
    ensures forall i :: 0 <= i < |done| ==> Active(g, now, done[i])
    ensures forall i :: 0 <= i < |todo[1..]| ==> Active(g, f.published, todo[1..][i])
    ensures forall k: nat :: k < |f.tickets| && k != t && Ended(f, f.published, k) ==> Ended(g, f.published, k)
  {
    MoveOver(done, todo, todo[0]);
    forall i | 0 <= i < |done| ensures Active(g, now, done[i]) { assert Active(f, now, done[i]); }
    forall i | 0 <= i < |todo[1..]| ensures Active(g, f.published, todo[1..][i]) {
      assert todo[1..][i] == todo[i + 1];
      assert Active(f, f.published, todo[i + 1]);
    }
  }

  lemma SendOne(f: Feed, done: seq<Sub>, todo: seq<Sub>, m: seq<byte>)
    requires Midway(f, done, todo, f.published + [m]) && todo != []
    ensures var s := todo[0];
            Midway(f.(logs := Append(f.logs, s.ticket, Chunk(s.id, s.seqNo, false, m))),
                   done + [s.(seqNo := (s.seqNo + 1) % TWO32)], todo[1..], f.published + [m])
  {
    var s, now := todo[0], f.published + [m];
    var s' := s.(seqNo := (s.seqNo + 1) % TWO32);
    var g := f.(logs := Append(f.logs, s.ticket, Chunk(s.id, s.seqNo, false, m)));
    assert Active(f, f.published, s);
    var t := f.tickets[s.ticket];
    var n := |f.published| - t.joined;
    RunNext(t, f.published, m, n);
    NextSeq(n);
    assert Active(g, now, s');
    MoveOver(done, todo, s');
    OthersStay(f, g, s.ticket, done, todo, now);
    var done' := done + [s'];
    forall i | 0 <= i < |done'| ensures Active(g, now, done'[i]) {}
    forall k: nat | k < |g.tickets| ensures Listed(done', k) || Listed(todo[1..], k) || Ended(g, g.published, k) {
      assert Listed(done, k) || Listed(todo, k) || Ended(f, f.published, k);
      if !(Listed(done, k) || Listed(todo, k)) {
        assert Listed(todo, s.ticket) by { assert todo[0].ticket == s.ticket; }
      }
    }
  }

  // The first of `todo` ends here, with or without a final chunk.
  lemma EndOne(f: Feed, done: seq<Sub>, todo: seq<Sub>, now: seq<seq<byte>>, g: Feed)
    requires Midway(f, done, todo, now) && todo != [] && OnlyTicket(f, g, todo[0].ticket)
    requires var s := todo[0];
             && s.ticket in g.ended && g.ended[s.ticket] == |f.published|
             && s.ticket < |f.logs|
             && (g.logs[s.ticket] == f.logs[s.ticket] ||
                 g.logs[s.ticket] == f.logs[s.ticket] + [Chunk(s.id, s.seqNo, true, [])])
    ensures Midway(g, done, todo[1..], now)
  {
    var s := todo[0];
    assert Active(f, f.published, s);
    assert Ended(g, f.published, s.ticket);
    MoveOver(done, todo, s);
    OthersStay(f, g, s.ticket, done, todo, now);
    forall k: nat | k < |g.tickets| ensures Listed(done, k) || Listed(todo[1..], k) || Ended(g, g.published, k) {
      assert Listed(done, k) || Listed(todo, k) || Ended(f, f.published, k);
    }
  }

  // ---- the operations --------------------------------------------------------

  lemma {:induction false} PublishRestInv(f: Feed, done: seq<Sub>, todo: seq<Sub>, m: seq<byte>, fails: nat -> bool)
    requires Midway(f, done, todo, f.published + [m])
    ensures Inv(PublishRest(f, done, todo, m, fails))
    ensures PublishRest(f, done, todo, m, fails).published == f.published + [m]
    decreases |todo|
  {
    if todo == [] {
      Finish(f, done, f.published + [m]);
    } else {
      var s := todo[0];
      assert Active(f, f.published, s);
      if Sends(f, s, fails) {
        SendOne(f, done, todo, m);
        var logs := Append(f.logs, s.ticket, Chunk(s.id, s.seqNo, false, m));
        PublishRestInv(f.(logs := logs), done + [s.(seqNo := (s.seqNo + 1) % TWO32)], todo[1..], m, fails);
      } else {
        EndOne(f, done, todo, f.published + [m], Drop(f, s));
        PublishRestInv(Drop(f, s), done, todo[1..], m, fails);
      }
    }
  }

  lemma {:induction false} HeartbeatRestInv(f: Feed, done: seq<Sub>, todo: seq<Sub>, fails: nat -> bool)
    requires Midway(f, done, todo, f.published)
    ensures Inv(HeartbeatRest(f, done, todo, fails))
    decreases |todo|
  {
    if todo == [] {
      Finish(f, done, f.published);
    } else {
      assert Active(f, f.published, todo[0]);
      if Sends(f, todo[0], fails) {
        KeepOne(f, done, todo);
        HeartbeatRestInv(f, done + [todo[0]], todo[1..], fails);
      } else {
        EndOne(f, done, todo, f.published, Drop(f, todo[0]));
        HeartbeatRestInv(Drop(f, todo[0]), done, todo[1..], fails);
      }
    }
  }

  lemma {:induction false} RemoveConnRestInv(f: Feed, done: seq<Sub>, todo: seq<Sub>, conn: nat)
    requires Midway(f, done, todo, f.published)
    ensures Inv(RemoveConnRest(f, done, todo, conn))
    decreases |todo|
  {
    if todo == [] {
      Finish(f, done, f.published);
    } else {
      assert Active(f, f.published, todo[0]);
      if todo[0].conn == conn {
        var g := f.(ended := End(f, todo[0]));
        EndOne(f, done, todo, f.published, g);
        RemoveConnRestInv(g, done, todo[1..], conn);
      } else {
        KeepOne(f, done, todo);
        RemoveConnRestInv(f, done + [todo[0]], todo[1..], conn);
      }
    }
  }

  lemma {:induction false} CloseRestInv(f: Feed, todo: seq<Sub>, fails: nat -> bool)
    requires Midway(f, [], todo, f.published)
    ensures Inv(CloseRest(f, todo, fails))
    decreases |todo|
  {
    if todo == [] {
      Finish(f, [], f.published);
    } else {
      var s := todo[0];
      assert Active(f, f.published, s);
      var g := f.(ended := End(f, s));
      if Sends(f, s, fails) {
        var h := g.(logs := Append(f.logs, s.ticket, Chunk(s.id, s.seqNo, true, [])));
        EndOne(f, [], todo, f.published, h);
        CloseRestInv(h, todo[1..], fails);
      } else {
        var h := g.(dead := f.dead + {s.conn});
        EndOne(f, [], todo, f.published, h);
        CloseRestInv(h, todo[1..], fails);
      }
    }
  }

  lemma AddInv(f: Feed, conn: nat, id: nat)
    requires Inv(f)
    ensures Inv(AddTo(f, conn, id))
  {
    var g := AddTo(f, conn, id);
    forall i | 0 <= i < |g.subs| ensures Active(g, g.published, g.subs[i]) {
      if i < |f.subs| { assert Active(f, f.published, f.subs[i]); }
    }
    forall k: nat | k < |g.tickets| ensures Listed(g.subs, k) || Ended(g, g.published, k) {
      if k == |f.tickets| {
        assert g.subs[|f.subs|].ticket == k;
      } else if Listed(f.subs, k) {
        var i :| 0 <= i < |f.subs| && f.subs[i].ticket == k;
        assert g.subs[i].ticket == k;
      } else {
        assert Ended(f, f.published, k);
      }
    }
  }

  lemma ListedInHalf(subs: seq<Sub>, i: nat, k: nat)
    requires i <= |subs| && Listed(subs, k)
    ensures Listed(subs[..i], k) || Listed(subs[i..], k)
  {
    var j :| 0 <= j < |subs| && subs[j].ticket == k;
    if j < i { assert subs[..i][j].ticket == k; } else { assert subs[i..][j - i].ticket == k; }
  }

  lemma Split(f: Feed, i: nat)
    requires Inv(f) && i <= |f.subs|
    ensures Midway(f, f.subs[..i], f.subs[i..], f.published)
  {
    hide Active, Ended, Listed, Distinct;
    var a, b := f.subs[..i], f.subs[i..];
    assert a + b == f.subs;
    forall k: nat | k < |f.tickets| ensures Listed(a, k) || Listed(b, k) || Ended(f, f.published, k) {
      if Listed(f.subs, k) { ListedInHalf(f.subs, i, k); }
    }
  }

  lemma Rejoin(f: Feed, done: seq<Sub>, todo: seq<Sub>)
    requires Midway(f, done, todo, f.published)
    ensures Inv(f.(subs := done + todo))
    decreases |todo|
  {
    if todo == [] {
      Finish(f, done, f.published);
      assert done + [] == done;
    } else {
      KeepOne(f, done, todo);
      Rejoin(f, done + [todo[0]], todo[1..]);
      assert done + [todo[0]] + todo[1..] == done + todo;
    }
  }

  lemma RemoveInv(f: Feed, conn: nat, id: nat)
    requires Inv(f)
    ensures Inv(RemoveFrom(f, conn, id))
  {
    var i := Find(f.subs, conn, id);
    if i < |f.subs| {
      Split(f, i);
      assert Active(f, f.published, f.subs[i]);
      var g := f.(ended := End(f, f.subs[i]));
      EndOne(f, f.subs[..i], f.subs[i..], f.published, g);
      assert f.subs[i..][1..] == f.subs[i + 1..];
      Rejoin(g, f.subs[..i], f.subs[i + 1..]);
    }
  }

  // ---- whole histories -------------------------------------------------------

  datatype Event =
    | Subscribed(conn: nat, id: nat)
    | Published(message: seq<byte>, fails: nat -> bool)
    | Unsubscribed(conn: nat, id: nat)
    | Detached(conn: nat)
    | Beat(fails: nat -> bool)
    | Closed(fails: nat -> bool)
    | Died(conn: nat)

  function After(f: Feed, e: Event): Feed {
    match e
    case Subscribed(conn, id) => AddTo(f, conn, id)
    case Published(message, fails) => PublishTo(f, message, fails)
    case Unsubscribed(conn, id) => RemoveFrom(f, conn, id)
    case Detached(conn) => DetachFrom(f, conn)
    case Beat(fails) => BeatOn(f, fails)
    case Closed(fails) => CloseOf(f, fails)
    case Died(conn) => f.(dead := f.dead + {conn})
  }

  function Replay(es: seq<Event>): Feed {
    if es == [] then EMPTY else After(Replay(es[..|es| - 1]), es[|es| - 1])
  }

  lemma StepInv(f: Feed, e: Event)
    requires Inv(f)
    ensures Inv(After(f, e))
  {
    match e
    case Subscribed(conn, id) => AddInv(f, conn, id);
    case Published(message, fails) => Begin(f, f.published + [message]); PublishRestInv(f, [], f.subs, message, fails);
    case Unsubscribed(conn, id) => RemoveInv(f, conn, id);
    case Detached(conn) => Begin(f, f.published); RemoveConnRestInv(f, [], f.subs, conn);
    case Beat(fails) => Begin(f, f.published); HeartbeatRestInv(f, [], f.subs, fails);
    case Closed(fails) => Begin(f, f.published); CloseRestInv(f, f.subs, fails);
    case Died(conn) =>
      var g := f.(dead := f.dead + {conn});
      forall i | 0 <= i < |f.subs| ensures Active(g, g.published, g.subs[i]) { assert Active(f, f.published, f.subs[i]); }
      forall k: nat | k < |f.tickets| && Ended(f, f.published, k) ensures Ended(g, g.published, k) {}
  }

  lemma {:induction false} ReplayInv(es: seq<Event>)
    ensures Inv(Replay(es))
  {
    if es != [] {
      ReplayInv(es[..|es| - 1]);
      StepInv(Replay(es[..|es| - 1]), es[|es| - 1]);
    }
  }

  /**
    After any history, what was written to a subscriber is exactly the run of messages published from
    its subscription until its removal - or until now, if it is still there - numbered from 0, with
    at most one final chunk, and that only after removal.
  */
  lemma DeliveryLog(es: seq<Event>, k: nat)
    requires k < |Replay(es).tickets|
    ensures var f := Replay(es);
            var t := f.tickets[k];
            && |f.logs| == |f.tickets|
            && (Listed(f.subs, k) <==> k !in f.ended)
            && var until := if k in f.ended then f.ended[k] else |f.published|;
               && t.joined <= until <= |f.published|
               && var run := Run(t, f.published, until - t.joined);
                  || f.logs[k] == run
                  || (k in f.ended && f.logs[k] == run + [Final(t, until - t.joined)])
  {
    ReplayInv(es);
    var f := Replay(es);
    if Listed(f.subs, k) {
      var i :| 0 <= i < |f.subs| && f.subs[i].ticket == k;
      assert Active(f, f.published, f.subs[i]);
    } else {
      assert Ended(f, f.published, k);
    }
  }

  // ---- who is served ---------------------------------------------------------

  // The write to the i-th subscriber goes through: its connection is alive, its own write does not
  // fail, and neither did one to an earlier subscription of the same connection.
  predicate Served(dead: set<nat>, subs: seq<Sub>, fails: nat -> bool, i: nat)
    requires i < |subs|
  {
    && subs[i].conn !in dead && !fails(subs[i].ticket)
    && forall j :: 0 <= j < i && subs[j].conn == subs[i].conn ==> !fails(subs[j].ticket)
  }

  function ServedFrom(dead: set<nat>, subs: seq<Sub>, fails: nat -> bool, i: nat): nat
    requires i <= |subs|
    decreases |subs| - i
  {
    if i == |subs| then 0 else (if Served(dead, subs, fails, i) then 1 else 0) + ServedFrom(dead, subs, fails, i + 1)
  }

  // How many of the listed subscribers are served.
  function ServedCount(f: Feed, fails: nat -> bool): nat {
    ServedFrom(f.dead, f.subs, fails, 0)
  }

  // The connections that are dead afterwards.
  ghost predicate Lost(dead: set<nat>, subs: seq<Sub>, fails: nat -> bool, now: set<nat>) {
    forall c :: c in now <==> c in dead || exists i :: 0 <= i < |subs| && subs[i].conn == c && c !in dead && fails(subs[i].ticket)
  }

  // Going past the first subscriber.
  lemma ServedNext(dead: set<nat>, subs: seq<Sub>, fails: nat -> bool, i: nat)
    requires 0 < i < |subs|
    ensures Served(dead, subs, fails, i) <==>
            Served(if Served(dead, subs, fails, 0) then dead else dead + {subs[0].conn}, subs[1..], fails, i - 1)
  {
    assert subs[1..][i - 1] == subs[i];
    if Served(dead, subs[1..], fails, i - 1) {
      forall j | 0 < j < i && subs[j].conn == subs[i].conn ensures !fails(subs[j].ticket) { assert subs[j] == subs[1..][j - 1]; }
    }
  }

  lemma {:induction false} CountNext(dead: set<nat>, subs: seq<Sub>, fails: nat -> bool, i: nat)
    requires 0 < i <= |subs|
    ensures ServedFrom(dead, subs, fails, i) ==
            ServedFrom(if Served(dead, subs, fails, 0) then dead else dead + {subs[0].conn}, subs[1..], fails, i - 1)
    decreases |subs| - i
  {
    hide Served;
    if i < |subs| {
      ServedNext(dead, subs, fails, i);
      CountNext(dead, subs, fails, i + 1);
    }
  }

  lemma LostNext(dead: set<nat>, subs: seq<Sub>, fails: nat -> bool, now: set<nat>)
    requires subs != []
    requires Lost(if Served(dead, subs, fails, 0) then dead else dead + {subs[0].conn}, subs[1..], fails, now)
    ensures Lost(dead, subs, fails, now)
  {
    var s := subs[0];
    var mid := if Served(dead, subs, fails, 0) then dead else dead + {s.conn};
    forall c ensures c in now <==> c in dead || exists i :: 0 <= i < |subs| && subs[i].conn == c && c !in dead && fails(subs[i].ticket) {
      if i :| 0 <= i < |subs[1..]| && subs[1..][i].conn == c && c !in mid && fails(subs[1..][i].ticket) {
        assert subs[i + 1].conn == c && fails(subs[i + 1].ticket);
      }
      if i :| 0 <= i < |subs| && subs[i].conn == c && c !in dead && fails(subs[i].ticket) {
        if i > 0 { assert subs[1..][i - 1] == subs[i]; }
      }
    }
  }

  // What a served subscriber is sent.
  function Message(m: seq<byte>): Sub -> seq<Chunk> {
    (s: Sub) => [Chunk(s.id, s.seqNo, false, m)]
  }

  const FINAL: Sub -> seq<Chunk> := (s: Sub) => [Chunk(s.id, s.seqNo, true, [])]

  const SILENCE: Sub -> seq<Chunk> := (s: Sub) => []

  // What one round over `todo` does to the lists and the logs: a served subscriber is kept and gets
  // `chunk(s)`, the others are dropped and get nothing.
  ghost predicate Round(f: Feed, done: seq<Sub>, todo: seq<Sub>, fails: nat -> bool, g: Feed, keeps: bool, chunk: Sub -> seq<Chunk>) {
    && |g.logs| == |f.logs|
    && (forall i :: 0 <= i < |todo| && todo[i].ticket < |f.logs| ==>
          g.logs[todo[i].ticket] == f.logs[todo[i].ticket] + if Served(f.dead, todo, fails, i) then chunk(todo[i]) else [])
    && (forall k :: 0 <= k < |f.logs| && !Listed(todo, k) ==> g.logs[k] == f.logs[k])
    && (keeps ==> forall i :: 0 <= i < |todo| ==> (Listed(g.subs, todo[i].ticket) <==> Served(f.dead, todo, fails, i)))
    && (keeps ==> forall k :: !Listed(todo, k) ==> (Listed(g.subs, k) <==> Listed(done, k)))
    && (keeps ==> |g.subs| == |done| + ServedFrom(f.dead, todo, fails, 0))
    && Lost(f.dead, todo, fails, g.dead)
  }

  // One subscriber of a round.
  ghost predicate Turn(f: Feed, done: seq<Sub>, s: Sub, served: bool, f': Feed, done': seq<Sub>, chunk: Sub -> seq<Chunk>) {
    && |f'.logs| == |f.logs| && f'.dead == (if served then f.dead else f.dead + {s.conn})
    && (forall k :: 0 <= k < |f.logs| && k != s.ticket ==> f'.logs[k] == f.logs[k])
    && (s.ticket < |f.logs| ==> f'.logs[s.ticket] == f.logs[s.ticket] + if served then chunk(s) else [])
    && (forall k :: Listed(done', k) <==> Listed(done, k) || (served && k == s.ticket))
    && |done'| == |done| + (if served then 1 else 0)
  }

  lemma RoundNext(f: Feed, done: seq<Sub>, todo: seq<Sub>, fails: nat -> bool, g: Feed, keeps: bool, chunk: Sub -> seq<Chunk>,
                  f': Feed, done': seq<Sub>)
    requires todo != [] && Distinct(done + todo)
    requires Turn(f, done, todo[0], Served(f.dead, todo, fails, 0), f', done', chunk)
    requires Round(f', done', todo[1..], fails, g, keeps, chunk)
    ensures Round(f, done, todo, fails, g, keeps, chunk)
  {
    hide Served, Lost, Distinct;
    var s, rest := todo[0], todo[1..];
    MoveOver(done, todo, s);
    LostNext(f.dead, todo, fails, g.dead);
    CountNext(f.dead, todo, fails, 1);
    TodoListed(todo);
    NotDone(done, s.ticket);
    forall i | 0 < i < |todo|
      ensures Served(f'.dead, rest, fails, i - 1) <==> Served(f.dead, todo, fails, i)
      ensures rest[i - 1] == todo[i]
    {
      ServedNext(f.dead, todo, fails, i);
    }
    hide Listed, ServedFrom;
  }

  lemma TodoListed(todo: seq<Sub>)
    requires todo != []
    ensures forall k :: Listed(todo, k) <==> k == todo[0].ticket || Listed(todo[1..], k)
    ensures (forall i :: 0 < i < |todo| ==> todo[i].ticket != todo[0].ticket) ==> !Listed(todo[1..], todo[0].ticket)
  {
    forall k ensures Listed(todo, k) <==> k == todo[0].ticket || Listed(todo[1..], k) {
      if i :| 0 <= i < |todo| && todo[i].ticket == k { if i > 0 { assert todo[1..][i - 1].ticket == k; } }
      if i :| 0 <= i < |todo[1..]| && todo[1..][i].ticket == k { assert todo[i + 1].ticket == k; }
    }
  }

  lemma NotDone(done: seq<Sub>, k: nat)
    ensures (forall i :: 0 <= i < |done| ==> done[i].ticket != k) <==> !Listed(done, k)
  {
  }

  lemma ListedAlso(done: seq<Sub>, s: Sub)
    ensures forall k :: Listed(done + [s], k) <==> Listed(done, k) || k == s.ticket
  {
    forall k ensures Listed(done + [s], k) <==> Listed(done, k) || k == s.ticket {
      if i :| 0 <= i < |done| && done[i].ticket == k { assert (done + [s])[i].ticket == k; }
      if k == s.ticket { assert (done + [s])[|done|].ticket == k; }
    }
  }

  lemma {:induction false} PublishRound(f: Feed, done: seq<Sub>, todo: seq<Sub>, m: seq<byte>, fails: nat -> bool)
    requires Distinct(done + todo)
    ensures Round(f, done, todo, fails, PublishRest(f, done, todo, m, fails), true, Message(m))
    decreases |todo|
  {
    if todo == [] {
      assert done + todo == done;
    } else {
      var s, chunk := todo[0], Message(m);
      var s' := s.(seqNo := (s.seqNo + 1) % TWO32);
      MoveOver(done, todo, s');
      ListedAlso(done, s');
      var g := PublishRest(f, done, todo, m, fails);
      var f', done' := if Served(f.dead, todo, fails, 0) then f.(logs := Append(f.logs, s.ticket, chunk(s)[0])) else Drop(f, s),
                       if Served(f.dead, todo, fails, 0) then done + [s'] else done;
      PublishRound(f', done', todo[1..], m, fails);
      assert Turn(f, done, s, Served(f.dead, todo, fails, 0), f', done', chunk);
      hide Round, Turn, Served;
      assert g == PublishRest(f', done', todo[1..], m, fails);
      RoundNext(f, done, todo, fails, g, true, chunk, f', done');
    }
  }

  lemma {:induction false} HeartbeatRound(f: Feed, done: seq<Sub>, todo: seq<Sub>, fails: nat -> bool)
    requires Distinct(done + todo)
    ensures Round(f, done, todo, fails, HeartbeatRest(f, done, todo, fails), true, SILENCE)
    decreases |todo|
  {
    if todo == [] {
      assert done + todo == done;
    } else {
      var s := todo[0];
      MoveOver(done, todo, s);
      ListedAlso(done, s);
      var g := HeartbeatRest(f, done, todo, fails);
      var f', done' := if Served(f.dead, todo, fails, 0) then f else Drop(f, s), if Served(f.dead, todo, fails, 0) then done + [s] else done;
      HeartbeatRound(f', done', todo[1..], fails);
      assert Turn(f, done, s, Served(f.dead, todo, fails, 0), f', done', SILENCE);
      hide Round, Turn, Served;
      assert g == HeartbeatRest(f', done', todo[1..], fails);
      RoundNext(f, done, todo, fails, g, true, SILENCE, f', done');
    }
  }

  lemma {:induction false} CloseRound(f: Feed, done: seq<Sub>, todo: seq<Sub>, fails: nat -> bool)
    requires Distinct(done + todo)
    ensures Round(f, done, todo, fails, CloseRest(f, todo, fails), false, FINAL)
    ensures CloseRest(f, todo, fails).subs == []
    decreases |todo|
  {
    if todo != [] {
      var s, chunk := todo[0], FINAL;
      MoveOver(done, todo, s);
      ListedAlso(done, s);
      var g := CloseRest(f, todo, fails);
      var e := f.(ended := End(f, s));
      var f', done' := if Served(f.dead, todo, fails, 0) then e.(logs := Append(f.logs, s.ticket, chunk(s)[0]))
                       else e.(dead := f.dead + {s.conn}),
                       if Served(f.dead, todo, fails, 0) then done + [s] else done;
      CloseRound(f', done', todo[1..], fails);
      assert Turn(f, done, s, Served(f.dead, todo, fails, 0), f', done', chunk);
      hide Round, Turn, Served;
      assert g == CloseRest(f', todo[1..], fails);
      RoundNext(f, done, todo, fails, g, false, chunk, f', done');
    }
  }

  lemma TicketsApart(f: Feed)
    requires Inv(f)
    ensures Distinct(f.subs) && forall i :: 0 <= i < |f.subs| ==> f.subs[i].ticket < |f.logs|
  {
    forall i | 0 <= i < |f.subs| ensures f.subs[i].ticket < |f.logs| { assert Active(f, f.published, f.subs[i]); }
  }

  /**
    Who gets a message. A publish writes it to exactly the subscribers whose connection is alive and
    has had no write fail in this round, keeps exactly these, and counts them; every other log stays as
    it is, and exactly the connections with a failed write are dead from then on.
  */
  lemma PublishServes(f: Feed, m: seq<byte>, fails: nat -> bool)
    requires Inv(f)
    ensures var g := PublishTo(f, m, fails);
            && |g.logs| == |f.logs| && |g.subs| == ServedCount(f, fails) && Lost(f.dead, f.subs, fails, g.dead)
            && (forall i :: 0 <= i < |f.subs| ==> f.subs[i].ticket < |f.logs|)
            && (forall i :: 0 <= i < |f.subs| ==> (Listed(g.subs, f.subs[i].ticket) <==> Served(f.dead, f.subs, fails, i)))
            && (forall i :: 0 <= i < |f.subs| ==>
                  g.logs[f.subs[i].ticket] == f.logs[f.subs[i].ticket]
                    + if Served(f.dead, f.subs, fails, i) then [Chunk(f.subs[i].id, f.subs[i].seqNo, false, m)] else [])
            && (forall k :: 0 <= k < |f.logs| && !Listed(f.subs, k) ==> g.logs[k] == f.logs[k] && !Listed(g.subs, k))
  {
    hide PublishRest, Served, Inv, Distinct, Lost;
    TicketsApart(f);
    assert [] + f.subs == f.subs;
    PublishRound(f, [], f.subs, m, fails);
    NobodyListed();
  }

  lemma NobodyListed()
    ensures forall k :: !Listed([], k)
  {
  }

  /** The subscriptions of a connection that has died get nothing more, and the next publish forgets them. */
  lemma DeadGetNothing(f: Feed, conn: nat, m: seq<byte>, fails: nat -> bool)
    requires Inv(f)
    ensures var g := PublishTo(After(f, Died(conn)), m, fails);
            && |g.logs| == |f.logs|
            && forall i :: 0 <= i < |f.subs| && f.subs[i].conn == conn ==>
                 f.subs[i].ticket < |f.logs| && !Listed(g.subs, f.subs[i].ticket) && g.logs[f.subs[i].ticket] == f.logs[f.subs[i].ticket]
  {
    var d := After(f, Died(conn));
    StepInv(f, Died(conn));
    PublishServes(d, m, fails);
    hide Inv, PublishTo, Listed, Lost, ServedCount;
    forall i | 0 <= i < |f.subs| && f.subs[i].conn == conn ensures !Served(d.dead, d.subs, fails, i) {}
  }

  /** A heartbeat keeps exactly the same ones, and writes no chunk. */
  lemma HeartbeatServes(f: Feed, fails: nat -> bool)
    requires Inv(f)
    ensures var g := BeatOn(f, fails);
            && g.logs == f.logs && |g.subs| == ServedCount(f, fails) && Lost(f.dead, f.subs, fails, g.dead)
            && (forall i :: 0 <= i < |f.subs| ==> (Listed(g.subs, f.subs[i].ticket) <==> Served(f.dead, f.subs, fails, i)))
            && (forall k :: !Listed(f.subs, k) ==> !Listed(g.subs, k))
  {
    hide HeartbeatRest, Served, Inv, Distinct, Lost;
    TicketsApart(f);
    assert [] + f.subs == f.subs;
    HeartbeatRound(f, [], f.subs, fails);
    var g := BeatOn(f, fails);
    HeartbeatWritesNothing(f, [], f.subs, fails);
    hide BeatOn, Listed, ServedCount, Round;
    NobodyListed();
  }

  lemma {:induction false} HeartbeatWritesNothing(f: Feed, done: seq<Sub>, todo: seq<Sub>, fails: nat -> bool)
    ensures HeartbeatRest(f, done, todo, fails).logs == f.logs
    decreases |todo|
  {
    if todo != [] {
      if Sends(f, todo[0], fails) { HeartbeatWritesNothing(f, done + [todo[0]], todo[1..], fails); }
      else { HeartbeatWritesNothing(Drop(f, todo[0]), done, todo[1..], fails); }
    }
  }

  /** The end of a feed writes the final chunk to exactly these, and forgets everyone. */
  lemma CloseServes(f: Feed, fails: nat -> bool)
    requires Inv(f)
    ensures var g := CloseOf(f, fails);
            && |g.logs| == |f.logs| && g.subs == [] && Lost(f.dead, f.subs, fails, g.dead)
            && (forall i :: 0 <= i < |f.subs| ==> f.subs[i].ticket < |f.logs|)
            && (forall i :: 0 <= i < |f.subs| ==>
                  g.logs[f.subs[i].ticket] == f.logs[f.subs[i].ticket]
                    + if Served(f.dead, f.subs, fails, i) then [Chunk(f.subs[i].id, f.subs[i].seqNo, true, [])] else [])
            && (forall k :: 0 <= k < |f.logs| && !Listed(f.subs, k) ==> g.logs[k] == f.logs[k])
  {
    hide CloseRest, Served, Inv, Distinct, Lost;
    TicketsApart(f);
    assert [] + f.subs == f.subs;
    CloseRound(f, [], f.subs, fails);
  }

  // ---- the code --------------------------------------------------------------

  class TopicHandle {
    var subs: seq<Sub>
    var dead: set<nat>
    ghost var tickets: seq<Ticket>
    ghost var logs: seq<seq<Chunk>>
    ghost var ended: map<nat, nat>
    ghost var published: seq<seq<byte>>
    var issued: nat

    ghost function View(): Feed
      reads this
    {
      Feed(subs, dead, tickets, logs, ended, published)
    }

    ghost predicate Valid()
      reads this
    {
      issued == |tickets|
    }

    constructor ()
      ensures Valid() && View() == EMPTY
    {
      subs, dead, tickets, logs, ended, published, issued := [], {}, [], [], map[], [], 0;
    }

    // Returns how many got the message, which is how many are left.
    method Publish(message: seq<byte>, fails: nat -> bool) returns (delivered: nat)
      requires Valid()
      modifies this
      ensures Valid() && View() == PublishTo(old(View()), message, fails)
      ensures delivered == |subs|
    {
      hide PublishRest, Append;
      var i := 0;
      delivered := 0;
      while i < |subs|
        invariant i <= |subs| && delivered == i && Valid() && published == old(published)
        invariant PublishRest(View(), subs[..i], subs[i..], message, fails) == PublishTo(old(View()), message, fails)
        decreases |subs| - i
      {
        var s := subs[i];
        ghost var before := View();
        if s.conn !in dead && !fails(s.ticket) {
          logs := Append(logs, s.ticket, Chunk(s.id, s.seqNo, false, message));
          subs := subs[..i] + [s.(seqNo := (s.seqNo + 1) % TWO32)] + subs[i + 1..];
          PublishSent(before, View(), i, message, fails);
          delivered := delivered + 1;
          i := i + 1;
        } else {
          dead := dead + {s.conn};
          ended := ended[s.ticket := |published|];
          subs := subs[..i] + subs[i + 1..];
          PublishPruned(before, View(), i, message, fails);
        }
      }
      assert subs[..i] == subs && subs[i..] == [];
      PublishDone(View(), subs, message, fails);
      published := published + [message];
    }

    method Add(conn: nat, id: nat)
      requires Valid()
      modifies this
      ensures Valid() && View() == AddTo(old(View()), conn, id)
    {
      subs := subs + [Sub(conn, id, 0, issued)];
      tickets, logs := tickets + [Ticket(conn, id, |published|)], logs + [[]];
      issued := issued + 1;
    }

    // Forgets the first subscription of this connection and request.
    method Remove(conn: nat, id: nat)
      requires Valid()
      modifies this
      ensures Valid() && View() == RemoveFrom(old(View()), conn, id)
    {
      var i := 0;
      while i < |subs|
        invariant i <= |subs| && View() == old(View()) && Valid()
        invariant forall k :: 0 <= k < i ==> !(subs[k].conn == conn && subs[k].id == id)
      {
        if subs[i].conn == conn && subs[i].id == id {
          FindUnique(subs, conn, id, i);
          ended := ended[subs[i].ticket := |published|];
          subs := subs[..i] + subs[i + 1..];
          return;
        }
        i := i + 1;
      }
      FindUnique(subs, conn, id, |subs|);
    }

    method RemoveConn(conn: nat)
      requires Valid()
      modifies this
      ensures Valid() && View() == DetachFrom(old(View()), conn)
    {
      var i := 0;
      while i < |subs|
        invariant i <= |subs| && Valid()
        invariant RemoveConnRest(View(), subs[..i], subs[i..], conn) == DetachFrom(old(View()), conn)
        decreases |subs| - i
      {
        var s := subs[i];
        ghost var before := View();
        assert subs[i..][0] == s && subs[i..][1..] == subs[i + 1..];
        if s.conn == conn {
          ended := ended[s.ticket := |published|];
          subs := subs[..i] + subs[i + 1..];
          assert subs[..i] == before.subs[..i] && subs[i..] == before.subs[i + 1..];
          RemoveConnSubs(before.(ended := End(before, s)), View(), subs[..i], subs[i..], conn);
        } else {
          i := i + 1;
          assert subs[..i] == before.subs[..i - 1] + [s];
        }
      }
      assert subs[..i] == subs && subs[i..] == [];
    }

    method Heartbeat(fails: nat -> bool)
      requires Valid()
      modifies this
      ensures Valid() && View() == BeatOn(old(View()), fails)
    {
      var i := 0;
      while i < |subs|
        invariant i <= |subs| && Valid()
        invariant HeartbeatRest(View(), subs[..i], subs[i..], fails) == BeatOn(old(View()), fails)
        decreases |subs| - i
      {
        var s := subs[i];
        ghost var before := View();
        assert subs[i..][0] == s && subs[i..][1..] == subs[i + 1..];
        if s.conn !in dead && !fails(s.ticket) {
          i := i + 1;
          assert subs[..i] == before.subs[..i - 1] + [s];
        } else {
          dead := dead + {s.conn};
          ended := ended[s.ticket := |published|];
          subs := subs[..i] + subs[i + 1..];
          assert subs[..i] == before.subs[..i] && subs[i..] == before.subs[i + 1..];
          HeartbeatSubs(Drop(before, s), View(), subs[..i], subs[i..], fails);
        }
      }
      assert subs[..i] == subs && subs[i..] == [];
    }

    // Tells every subscriber that the feed is over, and forgets them.
    method CloseAll(fails: nat -> bool)
      requires Valid()
      modifies this
      ensures Valid() && View() == CloseOf(old(View()), fails) && subs == []
    {
      var i := 0;
      while i < |subs|
        invariant i <= |subs| && Valid()
        invariant CloseRest(View(), subs[i..], fails) == CloseOf(old(View()), fails)
      {
        var s := subs[i];
        assert subs[i..][0] == s && subs[i..][1..] == subs[i + 1..];
        ended := ended[s.ticket := |published|];
        if s.conn !in dead && !fails(s.ticket) {
          logs := Append(logs, s.ticket, Chunk(s.id, s.seqNo, true, []));
        } else {
          dead := dead + {s.conn};
        }
        i := i + 1;
      }
      assert subs[i..] == [];
      subs := [];
    }
  }

  lemma {:induction false} RemoveConnSubs(f: Feed, g: Feed, done: seq<Sub>, todo: seq<Sub>, conn: nat)
    requires g == f.(subs := g.subs)
    ensures RemoveConnRest(f, done, todo, conn) == RemoveConnRest(g, done, todo, conn)
    decreases |todo|
  {
    if todo != [] {
      if todo[0].conn == conn {
        RemoveConnSubs(f.(ended := End(f, todo[0])), g.(ended := End(g, todo[0])), done, todo[1..], conn);
      } else {
        RemoveConnSubs(f, g, done + [todo[0]], todo[1..], conn);
      }
    }
  }

  lemma {:induction false} HeartbeatSubs(f: Feed, g: Feed, done: seq<Sub>, todo: seq<Sub>, fails: nat -> bool)
    requires g == f.(subs := g.subs)
    ensures HeartbeatRest(f, done, todo, fails) == HeartbeatRest(g, done, todo, fails)
    decreases |todo|
  {
    if todo != [] {
      if Sends(f, todo[0], fails) {
        HeartbeatSubs(f, g, done + [todo[0]], todo[1..], fails);
      } else {
        HeartbeatSubs(Drop(f, todo[0]), Drop(g, todo[0]), done, todo[1..], fails);
      }
    }
  }

  // `publish` rewrites the vector only at the end of its account of it.
  lemma {:induction false} SubsDoNotMatter(f: Feed, g: Feed, done: seq<Sub>, todo: seq<Sub>, m: seq<byte>, fails: nat -> bool)
    requires g == f.(subs := g.subs)
    ensures PublishRest(f, done, todo, m, fails) == PublishRest(g, done, todo, m, fails)
    decreases |todo|
  {
    if todo != [] {
      var s := todo[0];
      if Sends(f, s, fails) {
        var logs := Append(f.logs, s.ticket, Chunk(s.id, s.seqNo, false, m));
        SubsDoNotMatter(f.(logs := logs), g.(logs := logs), done + [s.(seqNo := (s.seqNo + 1) % TWO32)], todo[1..], m, fails);
      } else {
        SubsDoNotMatter(Drop(f, s), Drop(g, s), done, todo[1..], m, fails);
      }
    }
  }

  lemma PublishDone(f: Feed, done: seq<Sub>, m: seq<byte>, fails: nat -> bool)
    ensures PublishRest(f, done, [], m, fails) == f.(subs := done, published := f.published + [m])
  {
  }

  lemma SentNext(f: Feed, done: seq<Sub>, todo: seq<Sub>, m: seq<byte>, fails: nat -> bool)
    requires todo != [] && Sends(f, todo[0], fails)
    ensures var s := todo[0];
            PublishRest(f, done, todo, m, fails)
            == PublishRest(f.(logs := Append(f.logs, s.ticket, Chunk(s.id, s.seqNo, false, m))),
                           done + [s.(seqNo := (s.seqNo + 1) % TWO32)], todo[1..], m, fails)
  {
    hide Append;
  }

  // One round of `publish`, to a subscriber that is there and to one that is not.
  lemma PublishSent(f: Feed, g: Feed, i: nat, m: seq<byte>, fails: nat -> bool)
    requires i < |f.subs| && Sends(f, f.subs[i], fails)
    requires var s := f.subs[i];
             g == f.(logs := Append(f.logs, s.ticket, Chunk(s.id, s.seqNo, false, m)),
                     subs := f.subs[..i] + [s.(seqNo := (s.seqNo + 1) % TWO32)] + f.subs[i + 1..])
    ensures PublishRest(g, g.subs[..i + 1], g.subs[i + 1..], m, fails) == PublishRest(f, f.subs[..i], f.subs[i..], m, fails)
  {
    hide PublishRest, Append, Sends;
    var s, todo := f.subs[i], f.subs[i..];
    assert todo[0] == s && todo[1..] == f.subs[i + 1..];
    SentNext(f, f.subs[..i], todo, m, fails);
    assert g.subs[..i + 1] == f.subs[..i] + [s.(seqNo := (s.seqNo + 1) % TWO32)] && g.subs[i + 1..] == todo[1..];
    SubsDoNotMatter(f.(logs := g.logs), g, g.subs[..i + 1], g.subs[i + 1..], m, fails);
  }

  lemma PublishPruned(f: Feed, g: Feed, i: nat, m: seq<byte>, fails: nat -> bool)
    requires i < |f.subs| && !Sends(f, f.subs[i], fails)
    requires g == Drop(f, f.subs[i]).(subs := f.subs[..i] + f.subs[i + 1..])
    ensures PublishRest(g, g.subs[..i], g.subs[i..], m, fails) == PublishRest(f, f.subs[..i], f.subs[i..], m, fails)
  {
    var s, todo := f.subs[i], f.subs[i..];
    assert todo[0] == s && todo[1..] == f.subs[i + 1..];
    assert g.subs[..i] == f.subs[..i] && g.subs[i..] == todo[1..];
    SubsDoNotMatter(Drop(f, s), g, g.subs[..i], g.subs[i..], m, fails);
  }

  lemma FindUnique(subs: seq<Sub>, conn: nat, id: nat, i: nat)
    requires i <= |subs| && (i < |subs| ==> subs[i].conn == conn && subs[i].id == id)
    requires forall k :: 0 <= k < i ==> !(subs[k].conn == conn && subs[k].id == id)
    ensures Find(subs, conn, id) == i
  {
  }
}
