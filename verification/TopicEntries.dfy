/**
  The broadcaster's operations, seen through who is subscribed under which request: they are the
  steps that the account of subscriptions takes on a topic's list.
*/
module TopicEntries {
  import opened Bytes
  import opened Topic
  import opened Subscriptions

  function Entries(subs: seq<Sub>): seq<Entry> {
    seq(|subs|, i requires 0 <= i < |subs| => (subs[i].conn, subs[i].id))
  }

  lemma EntriesConcat(a: seq<Sub>, b: seq<Sub>)
    ensures Entries(a + b) == Entries(a) + Entries(b)
  {
  }

  lemma {:induction false} FindIsIndexOf(subs: seq<Sub>, conn: nat, id: nat)
    ensures Find(subs, conn, id) == IndexOf(Entries(subs), (conn, id))
  {
    if subs != [] {
      FindIsIndexOf(subs[1..], conn, id);
      assert Entries(subs)[1..] == Entries(subs[1..]);
    }
  }

  lemma RemoveEntries(subs: seq<Sub>, conn: nat, id: nat)
    ensures var i := Find(subs, conn, id);
            Entries(if i == |subs| then subs else subs[..i] + subs[i + 1..]) == RemoveOne(Entries(subs), (conn, id))
  {
    hide Find, IndexOf;
    FindIsIndexOf(subs, conn, id);
  }

  lemma {:induction false} DetachEntries(f: Feed, done: seq<Sub>, todo: seq<Sub>, conn: nat)
    ensures Entries(RemoveConnRest(f, done, todo, conn).subs) == Entries(done) + RemoveConn(Entries(todo), conn)
    decreases |todo|
  {
    if todo != [] {
      assert Entries(todo)[1..] == Entries(todo[1..]);
      if todo[0].conn == conn {
        DetachEntries(f.(ended := Topic.End(f, todo[0])), done, todo[1..], conn);
      } else {
        DetachEntries(f, done + [todo[0]], todo[1..], conn);
        EntriesConcat(done, [todo[0]]);
        assert Entries([todo[0]]) == [Entries(todo)[0]];
        assert Entries(done) + [Entries(todo)[0]] + RemoveConn(Entries(todo[1..]), conn)
            == Entries(done) + ([Entries(todo)[0]] + RemoveConn(Entries(todo[1..]), conn));
      }
    }
  }

  lemma {:induction false} PublishKeepsSome(f: Feed, done: seq<Sub>, todo: seq<Sub>, m: seq<byte>, fails: nat -> bool)
    ensures multiset(Entries(PublishRest(f, done, todo, m, fails).subs)) <= multiset(Entries(done)) + multiset(Entries(todo))
    decreases |todo|
  {
    if todo != [] {
      var s := todo[0];
      EntriesConcat([s], todo[1..]);
      assert todo == [s] + todo[1..];
      if Sends(f, s, fails) {
        var s' := s.(seqNo := (s.seqNo + 1) % TWO32);
        EntriesConcat(done, [s']);
        assert Entries([s']) == Entries([s]);
        var logs := Append(f.logs, s.ticket, Chunk(s.id, s.seqNo, false, m));
        PublishKeepsSome(f.(logs := logs), done + [s'], todo[1..], m, fails);
      } else {
        PublishKeepsSome(Drop(f, s), done, todo[1..], m, fails);
      }
    }
  }

  lemma {:induction false} HeartbeatKeepsSome(f: Feed, done: seq<Sub>, todo: seq<Sub>, fails: nat -> bool)
    ensures multiset(Entries(HeartbeatRest(f, done, todo, fails).subs)) <= multiset(Entries(done)) + multiset(Entries(todo))
    decreases |todo|
  {
    if todo != [] {
      EntriesConcat([todo[0]], todo[1..]);
      assert todo == [todo[0]] + todo[1..];
      if Sends(f, todo[0], fails) {
        EntriesConcat(done, [todo[0]]);
        HeartbeatKeepsSome(f, done + [todo[0]], todo[1..], fails);
      } else {
        HeartbeatKeepsSome(Drop(f, todo[0]), done, todo[1..], fails);
      }
    }
  }

  // The list changes like this: `add` appends, `remove` takes out the first match, `remove_conn`
  // everything of a connection.
  lemma ChangesAreSteps(f: Feed, conn: nat, id: nat)
    ensures Entries(AddTo(f, conn, id).subs) == Entries(f.subs) + [(conn, id)]
    ensures Entries(RemoveFrom(f, conn, id).subs) == RemoveOne(Entries(f.subs), (conn, id))
    ensures Entries(DetachFrom(f, conn).subs) == RemoveConn(Entries(f.subs), conn)
  {
    hide RemoveConn, RemoveConnRest, IndexOf, Find;
    RemoveEntries(f.subs, conn, id);
    DetachEntries(f, [], f.subs, conn);
    assert Entries([]) + RemoveConn(Entries(f.subs), conn) == RemoveConn(Entries(f.subs), conn);
  }

  // A publish, a heartbeat or the end of the feed only prune it.
  lemma PrunesAreSteps(f: Feed, h: Hub, topic: nat, m: seq<byte>, fails: nat -> bool)
    requires Subscribers(h, topic) == Entries(f.subs)
    ensures Allowed(h, Prune(topic, Entries(PublishTo(f, m, fails).subs)))
    ensures Allowed(h, Prune(topic, Entries(BeatOn(f, fails).subs)))
    ensures Allowed(h, Prune(topic, Entries(CloseOf(f, fails).subs)))
  {
    hide PublishRest, HeartbeatRest, CloseRest, Subscribers;
    PublishKeepsSome(f, [], f.subs, m, fails);
    HeartbeatKeepsSome(f, [], f.subs, fails);
    CloseEmpties(f, f.subs, fails);
  }

  lemma {:induction false} CloseEmpties(f: Feed, todo: seq<Sub>, fails: nat -> bool)
    ensures CloseRest(f, todo, fails).subs == []
    decreases |todo|
  {
    if todo != [] {
      var s := todo[0];
      var g := f.(ended := Topic.End(f, s));
      if Sends(f, s, fails) {
        CloseEmpties(g.(logs := Append(f.logs, s.ticket, Chunk(s.id, s.seqNo, true, []))), todo[1..], fails);
      } else {
        CloseEmpties(g.(dead := f.dead + {s.conn}), todo[1..], fails);
      }
    }
  }
}
