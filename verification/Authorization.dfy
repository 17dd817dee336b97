/**
  Who may call what: the file of persisted decisions, an append-only log of lines, and the decision
  procedure with its cache per connection. A missing file is an empty text.
*/
module Authorization {
  import opened Options
  import opened Bytes
  import opened Text
  import opened Hex

  // ---- the file --------------------------------------------------------------

  // What one line says about this peer (in hex) and endpoint.
  function Verdict(line: string, want: string, endpoint: string): Option<bool> {
    var s1 := Find(line, ' ', 0);
    if s1 == |line| then None else
    var s2 := Find(line, ' ', s1 + 1);
    if s2 == |line| then None
    else if line[..s1] != want || line[s2 + 1..] != endpoint then None
    else if line[s1 + 1..s2] == "allow" then Some(true)
    else if line[s1 + 1..s2] == "deny" then Some(false)
    else None
  }

  // The last line that says something wins.
  function Scan(lines: seq<string>, want: string, endpoint: string): Option<bool> {
    if lines == [] then None else
    var v := Verdict(lines[|lines| - 1], want, endpoint);
    if v.Some? then v else Scan(lines[..|lines| - 1], want, endpoint)
  }

  function LoadDecision(text: string, peer: Bytes32, endpoint: string): Option<bool> {
    Scan(Lines(text), ToHex(peer), endpoint)
  }

  function DecisionLine(peer: Bytes32, endpoint: string, allow: bool): string {
    ToHex(peer) + (if allow then " allow " else " deny ") + endpoint
  }

  function SaveDecision(text: string, peer: Bytes32, endpoint: string, allow: bool): string {
    text + (DecisionLine(peer, endpoint, allow) + "\n")
  }

  datatype Decision = Decision(peer: Bytes32, endpoint: string, allow: bool)

  function SaveAll(decisions: seq<Decision>): string {
    if decisions == [] then "" else
    var d := decisions[|decisions| - 1];
    SaveDecision(SaveAll(decisions[..|decisions| - 1]), d.peer, d.endpoint, d.allow)
  }

  // The map that the file stands for.
  function LastSaved(decisions: seq<Decision>, peer: Bytes32, endpoint: string): Option<bool> {
    if decisions == [] then None else
    var d := decisions[|decisions| - 1];
    if d.peer == peer && d.endpoint == endpoint then Some(d.allow)
    else LastSaved(decisions[..|decisions| - 1], peer, endpoint)
  }

  lemma HexPlain(s: seq<byte>)
    ensures Without(ToHex(s), ' ') && OneLine(ToHex(s))
  {
    HexDigits(s);
  }

  // A saved line says its decision about its own peer and endpoint and nothing about any other.
  lemma LineVerdict(d: Decision, peer: Bytes32, endpoint: string)
    ensures Verdict(DecisionLine(d.peer, d.endpoint, d.allow), ToHex(peer), endpoint) ==
            if d.peer == peer && d.endpoint == endpoint then Some(d.allow) else None
  {
    var hex, word := ToHex(d.peer), if d.allow then "allow" else "deny";
    var line := DecisionLine(d.peer, d.endpoint, d.allow);
    HexPlain(d.peer);
    if hex == ToHex(peer) { HexInjective(d.peer, peer); }
    hide ToHex, Find;
    assert line == hex + " " + word + " " + d.endpoint;
    FindIs(line, ' ', 0, |hex|);
    FindIs(line, ' ', |hex| + 1, |hex| + 1 + |word|);
    assert line[..|hex|] == hex;
    assert line[|hex| + 1..|hex| + 1 + |word|] == word;
    assert line[|hex| + 2 + |word|..] == d.endpoint;
  }

  lemma NextLine(rest: string)
    requires rest != ""
    ensures Lines(rest) == [Head(rest, '\n')] + Lines(Tail(rest, '\n'))
  {
  }

  lemma SavedLines(text: string, d: Decision)
    requires Terminated(text)
    ensures var t := SaveDecision(text, d.peer, d.endpoint, d.allow);
            && Terminated(t) && Lines(text) <= Lines(t)
            && (OneLine(d.endpoint) ==> Lines(t) == Lines(text) + [DecisionLine(d.peer, d.endpoint, d.allow)])
  {
    var line := DecisionLine(d.peer, d.endpoint, d.allow);
    LinesAppend(text, line + "\n");
    if OneLine(d.endpoint) {
      HexPlain(d.peer);
      assert OneLine(line);
      hide Pieces, DecisionLine;
      FirstPiece(line, '\n', "");
      NoLines();
      assert line + "\n" + "" == line + "\n";
    }
  }

  lemma VerdictInLine(line: string, want: string, endpoint: string)
    ensures Verdict(line, want, endpoint).Some? && OneLine(line) ==> OneLine(endpoint)
  {
    if Verdict(line, want, endpoint).Some? && OneLine(line) {
      var s2 := Find(line, ' ', Find(line, ' ', 0) + 1);
      forall i | 0 <= i < |endpoint| ensures endpoint[i] != '\n' { assert line[s2 + 1..][i] == line[s2 + 1 + i]; }
    }
  }

  // No line equals an endpoint that contains a newline.
  lemma {:induction false} NewlineNeverFound(lines: seq<string>, want: string, endpoint: string)
    requires !OneLine(endpoint) && forall k :: 0 <= k < |lines| ==> OneLine(lines[k])
    ensures Scan(lines, want, endpoint) == None
  {
    if lines != [] {
      var line := lines[|lines| - 1];
      NewlineNeverFound(lines[..|lines| - 1], want, endpoint);
      VerdictInLine(line, want, endpoint);
    }
  }

  lemma {:induction false} StillKnown(lines: seq<string>, more: seq<string>, want: string, endpoint: string)
    requires lines <= more && Scan(lines, want, endpoint).Some?
    ensures Scan(more, want, endpoint).Some?
    decreases |more|
  {
    if |more| > |lines| {
      StillKnown(lines, more[..|more| - 1], want, endpoint);
    } else {
      assert more == lines;
    }
  }

  /**
    What is saved is read back if and only if the endpoint has no newline, and a save changes what is
    read about no other peer or endpoint.
  */
  lemma SaveThenLoad(text: string, d: Decision, peer: Bytes32, endpoint: string)
    requires Terminated(text)
    ensures LoadDecision(SaveDecision(text, d.peer, d.endpoint, d.allow), d.peer, d.endpoint) == Some(d.allow) <==> OneLine(d.endpoint)
    ensures OneLine(d.endpoint) && !(peer == d.peer && endpoint == d.endpoint) ==>
            LoadDecision(SaveDecision(text, d.peer, d.endpoint, d.allow), peer, endpoint) == LoadDecision(text, peer, endpoint)
  {
    var t := SaveDecision(text, d.peer, d.endpoint, d.allow);
    SavedLines(text, d);
    LineVerdict(d, d.peer, d.endpoint);
    LineVerdict(d, peer, endpoint);
    hide SaveDecision, DecisionLine, Verdict, ToHex, Lines;
    if OneLine(d.endpoint) {
      assert Lines(t)[..|Lines(t)| - 1] == Lines(text);
    } else {
      NewlineNeverFound(Lines(t), ToHex(d.peer), d.endpoint);
    }
  }

  /**
    After any sequence of saved decisions about endpoints without a newline, spaces allowed, the last
    one saved for a peer and an endpoint is the one that is loaded.
  */
  lemma {:induction false} LoadsTheLastSaved(decisions: seq<Decision>, peer: Bytes32, endpoint: string)
    requires forall i :: 0 <= i < |decisions| ==> OneLine(decisions[i].endpoint)
    ensures Terminated(SaveAll(decisions))
    ensures LoadDecision(SaveAll(decisions), peer, endpoint) == LastSaved(decisions, peer, endpoint)
  {
    hide LoadDecision, SaveDecision, Lines, DecisionLine, Terminated;
    if decisions == [] {
      NothingSaved(peer, endpoint);
    } else {
      var n := |decisions| - 1;
      var d, before := decisions[n], SaveAll(decisions[..n]);
      LoadsTheLastSaved(decisions[..n], peer, endpoint);
      SavedLines(before, d);
      SaveThenLoad(before, d, peer, endpoint);
      SaveThenLoad(before, d, d.peer, d.endpoint);
    }
  }

  lemma NothingSaved(peer: Bytes32, endpoint: string)
    ensures Terminated("") && LoadDecision("", peer, endpoint) == None
  {
    NoLines();
  }

  // ---- deciding --------------------------------------------------------------

  datatype Tier = Open | PinnedPeers | Certificate | PromptUser

  datatype Answer = AllowOnce | AlwaysAllow | Deny

  /**
    A call of `authorize`. `listed` says whether the peer is on the allow-list or a known client,
    `certified` whether a credential covers the call, and `answer` what the user would answer, if
    there is a way to ask.
  */
  datatype Call = Call(conn: nat, peer: Bytes32, endpoint: string, tier: Tier, listed: bool, certified: bool, answer: Option<Answer>)

  // `asked` records the calls for which the user was asked.
  datatype World = World(text: string, cache: map<(nat, string), bool>, asked: seq<Call>)

  predicate Cached(w: World, c: Call) {
    (c.conn, c.endpoint) in w.cache
  }

  predicate Asks(w: World, c: Call) {
    !Cached(w, c) && c.tier == PromptUser && LoadDecision(w.text, c.peer, c.endpoint) == None && c.answer.Some?
  }

  predicate Persists(c: Call) {
    c.answer.Some? && c.answer.value != AllowOnce
  }

  function Decide(w: World, c: Call): bool {
    if Cached(w, c) then w.cache[(c.conn, c.endpoint)]
    else match c.tier
    case Open => true
    case PinnedPeers => c.listed
    case Certificate => c.certified
    case PromptUser =>
      match LoadDecision(w.text, c.peer, c.endpoint)
      case Some(allow) => allow
      case None => c.answer.Some? && c.answer.value != Deny
  }

  function After(w: World, c: Call): World {
    if Cached(w, c) then w else
    World(if Asks(w, c) && Persists(c) then SaveDecision(w.text, c.peer, c.endpoint, Decide(w, c)) else w.text,
          w.cache[(c.conn, c.endpoint) := Decide(w, c)],
          if Asks(w, c) then w.asked + [c] else w.asked)
  }

  ghost predicate Run(ws: seq<World>, calls: seq<Call>) {
    && |ws| == |calls| + 1 && Terminated(ws[0].text) && ws[0].cache == map[] && ws[0].asked == []
    && forall i :: 0 <= i < |calls| ==> ws[i + 1] == After(ws[i], calls[i])
  }

  ghost predicate Known(w: World, c: Call) {
    && Cached(w, c)
    && (Persists(c) && OneLine(c.endpoint) ==> LoadDecision(w.text, c.peer, c.endpoint).Some?)
  }

  predicate SameQuestion(c: Call, d: Call) {
    c.endpoint == d.endpoint && (c.conn == d.conn || (c.peer == d.peer && Persists(c) && OneLine(c.endpoint)))
  }

  ghost predicate Inv(w: World) {
    && Terminated(w.text)
    && (forall i :: 0 <= i < |w.asked| ==> Known(w, w.asked[i]))
    && (forall i, j :: 0 <= i < j < |w.asked| ==> !SameQuestion(w.asked[i], w.asked[j]))
  }

  lemma StaysKnown(w: World, c: Call, d: Call)
    requires Terminated(w.text) && Known(w, d)
    ensures Known(After(w, c), d) && Terminated(After(w, c).text)
  {
    SavedLines(w.text, Decision(c.peer, c.endpoint, Decide(w, c)));
    hide Lines, SaveDecision, Scan, Decide;
    if LoadDecision(w.text, d.peer, d.endpoint).Some? {
      StillKnown(Lines(w.text), Lines(After(w, c).text), ToHex(d.peer), d.endpoint);
    }
  }

  lemma NowKnown(w: World, c: Call)
    requires Terminated(w.text) && Asks(w, c)
    ensures Known(After(w, c), c) && Terminated(After(w, c).text)
  {
    SavedLines(w.text, Decision(c.peer, c.endpoint, Decide(w, c)));
    SaveThenLoad(w.text, Decision(c.peer, c.endpoint, Decide(w, c)), c.peer, c.endpoint);
    hide Lines, SaveDecision, LoadDecision;
  }

  lemma StepInv(w: World, c: Call)
    requires Inv(w)
    ensures Inv(After(w, c))
  {
    var v := After(w, c);
    hide SaveDecision, LoadDecision, Decide;
    SavedLines(w.text, Decision(c.peer, c.endpoint, Decide(w, c)));
    forall i | 0 <= i < |v.asked| ensures Known(v, v.asked[i]) {
      if i < |w.asked| { StaysKnown(w, c, w.asked[i]); } else { NowKnown(w, c); }
    }
    forall i, j | 0 <= i < j < |v.asked| ensures !SameQuestion(v.asked[i], v.asked[j]) {
      assert Known(w, w.asked[i]);
    }
  }

  lemma {:induction false} RunInv(ws: seq<World>, calls: seq<Call>)
    requires Run(ws, calls)
    ensures Inv(ws[|calls|])
  {
    var n := |calls|;
    if n > 0 {
      RunInv(ws[..n], calls[..n - 1]);
      hide Inv, After;
      StepInv(ws[n - 1], calls[n - 1]);
    }
  }

  /**
    Over any run of calls, on any number of connections: no question is asked twice on one
    connection, and once the answer to a question without a newline was AlwaysAllow or Deny, it is
    not asked again about this peer on any connection.
  */
  lemma NotAskedAgain(ws: seq<World>, calls: seq<Call>, n: nat, i: nat, j: nat)
    requires Run(ws, calls) && n <= |calls| && i < j < |ws[n].asked|
    ensures var c, d := ws[n].asked[i], ws[n].asked[j];
            c.endpoint == d.endpoint ==> c.conn != d.conn && (c.peer == d.peer ==> !Persists(c) || !OneLine(c.endpoint))
  {
    RunInv(ws[..n + 1], calls[..n]);
    assert !SameQuestion(ws[n].asked[i], ws[n].asked[j]);
  }

  /**
    After a question was asked, another connection of the same peer asks it again if and only if the
    answer was AllowOnce or the endpoint has a newline.
  */
  lemma AsksAgainIff(w: World, c: Call, d: Call)
    requires Terminated(w.text) && Asks(w, c)
    requires d.peer == c.peer && d.endpoint == c.endpoint && d.conn != c.conn && !Cached(w, d)
    requires d.tier == PromptUser && d.answer.Some?
    ensures Asks(After(w, c), d) <==> c.answer == Some(AllowOnce) || !OneLine(c.endpoint)
    ensures !Asks(After(w, c), d) ==> Decide(After(w, c), d) == Decide(w, c)
  {
    SavedLines(w.text, Decision(c.peer, c.endpoint, Decide(w, c)));
    SaveThenLoad(w.text, Decision(c.peer, c.endpoint, Decide(w, c)), c.peer, c.endpoint);
    var t := SaveDecision(w.text, c.peer, c.endpoint, Decide(w, c));
    if !OneLine(c.endpoint) { NewlineNeverFound(Lines(t), ToHex(c.peer), c.endpoint); }
    hide Lines, SaveDecision, Scan, ToHex;
  }

  // ---- what decides ----------------------------------------------------------

  /**
    The tiers that ask nobody: an open endpoint admits everyone, a pinned one exactly the peers on its
    list, a certified one exactly those a credential covers.
  */
  lemma UncachedTiers(w: World, c: Call)
    requires !Cached(w, c) && c.tier != PromptUser
    ensures Decide(w, c) <==> match c.tier case PinnedPeers => c.listed case Certificate => c.certified case _ => true
  {
  }

  /**
    Only what is cached, stored or answered admits to a prompting endpoint. A question that is answered
    Deny refuses and any other answer admits, from then on for the connection; Deny and AlwaysAllow are
    loaded ever after, when the endpoint has no newline; AllowOnce leaves the file as it is.
  */
  lemma AnswerDecides(w: World, c: Call)
    requires Terminated(w.text) && !Cached(w, c) && c.tier == PromptUser
    ensures LoadDecision(w.text, c.peer, c.endpoint).Some? ==> Some(Decide(w, c)) == LoadDecision(w.text, c.peer, c.endpoint)
    ensures LoadDecision(w.text, c.peer, c.endpoint).None? ==> (Decide(w, c) <==> c.answer in {Some(AllowOnce), Some(AlwaysAllow)})
    ensures Cached(After(w, c), c) && After(w, c).cache[(c.conn, c.endpoint)] == Decide(w, c)
    ensures LoadDecision(w.text, c.peer, c.endpoint).None? ==>
            var text := After(w, c).text;
            && (c.answer == Some(Deny) && OneLine(c.endpoint) ==> LoadDecision(text, c.peer, c.endpoint) == Some(false))
            && (c.answer == Some(AlwaysAllow) && OneLine(c.endpoint) ==> LoadDecision(text, c.peer, c.endpoint) == Some(true))
            && (c.answer in {None, Some(AllowOnce)} ==> text == w.text)
  {
    hide SaveDecision, LoadDecision, OneLine;
    SaveThenLoad(w.text, Decision(c.peer, c.endpoint, true), c.peer, c.endpoint);
    SaveThenLoad(w.text, Decision(c.peer, c.endpoint, false), c.peer, c.endpoint);
  }

  // The connection of this call was let in before.
  ghost predicate LetInBefore(ws: seq<World>, calls: seq<Call>, i: nat)
    requires i < |calls| < |ws|
  {
    exists j :: 0 <= j < i && calls[j].conn == calls[i].conn && calls[j].endpoint == calls[i].endpoint && Decide(ws[j], calls[j])
  }

  // The user said yes to this question, now or before.
  ghost predicate SaidYes(ws: seq<World>, calls: seq<Call>, i: nat)
    requires i < |calls| < |ws|
  {
    exists j :: 0 <= j <= i && YesTo(ws[j], calls[j], calls[i].peer, calls[i].endpoint)
  }

  ghost predicate YesTo(w: World, c: Call, peer: Bytes32, endpoint: string) {
    Asks(w, c) && c.peer == peer && c.endpoint == endpoint && c.answer != Some(Deny)
  }

  // No entry about an endpoint with a newline, which takes several lines, admits anyone to another of
  // these endpoints.
  ghost predicate KeepApart(names: set<string>) {
    forall n, e, p, q, allow :: n in names && e in names && !OneLine(n) ==> !Admits(p, n, allow, q, e)
  }

  ghost predicate Admits(p: Bytes32, n: string, allow: bool, q: Bytes32, e: string) {
    LoadDecision(SaveDecision("", p, n, allow), q, e) == Some(true)
  }

  lemma {:induction false} ScanConcat(a: seq<string>, b: seq<string>, want: string, endpoint: string)
    ensures Scan(a + b, want, endpoint) == if Scan(b, want, endpoint).Some? then Scan(b, want, endpoint) else Scan(a, want, endpoint)
    decreases |b|
  {
    hide Verdict;
    if b == [] {
      assert a + b == a;
    } else {
      ScanConcat(a, b[..|b| - 1], want, endpoint);
      assert (a + b)[..|a + b| - 1] == a + b[..|b| - 1];
    }
  }

  // What a saved entry adds to a file.
  lemma EntryAdds(text: string, p: Bytes32, n: string, allow: bool, q: Bytes32, e: string)
    requires Terminated(text)
    ensures Terminated(SaveDecision(text, p, n, allow))
    ensures LoadDecision(SaveDecision(text, p, n, allow), q, e) == Some(true) ==>
            LoadDecision(text, q, e) == Some(true) || Admits(p, n, allow, q, e)
  {
    var entry := DecisionLine(p, n, allow) + "\n";
    hide DecisionLine, Pieces;
    LinesAppend(text, entry);
    ScanConcat(Lines(text), Lines(entry), ToHex(q), e);
    assert "" + entry == entry;
  }

  lemma OneLineEntry(p: Bytes32, n: string, allow: bool, q: Bytes32, e: string)
    requires OneLine(n)
    ensures Admits(p, n, allow, q, e) <==> p == q && n == e && allow
  {
    NothingSaved(q, e);
    SaveThenLoad("", Decision(p, n, allow), q, e);
    hide LoadDecision, SaveDecision;
  }

  // Everything the file and the caches admit to was admitted to by the user, or let in before.
  ghost predicate Grounded(ws: seq<World>, calls: seq<Call>, names: set<string>, n: nat)
    requires n <= |calls| < |ws|
  {
    && Terminated(ws[n].text)
    && (forall p, e :: e in names && LoadDecision(ws[n].text, p, e) == Some(true) ==> SavedYes(ws, calls, n, p, e))
    && (forall conn, e :: (conn, e) in ws[n].cache && ws[n].cache[(conn, e)] ==> CachedYes(ws, calls, n, conn, e))
  }

  ghost predicate SavedYes(ws: seq<World>, calls: seq<Call>, n: nat, p: Bytes32, e: string)
    requires n <= |calls| < |ws|
  {
    exists j :: 0 <= j < n && YesTo(ws[j], calls[j], p, e)
  }

  ghost predicate CachedYes(ws: seq<World>, calls: seq<Call>, n: nat, conn: nat, e: string)
    requires n <= |calls| < |ws|
  {
    exists j :: 0 <= j < n && calls[j].conn == conn && calls[j].endpoint == e && Decide(ws[j], calls[j])
  }

  ghost predicate Among(calls: seq<Call>, names: set<string>) {
    forall i :: 0 <= i < |calls| ==> calls[i].endpoint in names
  }

  // What one call can add to the file.
  lemma CallAdds(w: World, c: Call, names: set<string>, p: Bytes32, e: string)
    requires Terminated(w.text) && KeepApart(names) && c.endpoint in names && e in names
    ensures Terminated(After(w, c).text)
    ensures LoadDecision(After(w, c).text, p, e) == Some(true) ==> LoadDecision(w.text, p, e) == Some(true) || YesTo(w, c, p, e)
  {
    hide LoadDecision, SaveDecision, OneLine, Admits;
    EntryAdds(w.text, c.peer, c.endpoint, Decide(w, c), p, e);
    if OneLine(c.endpoint) { OneLineEntry(c.peer, c.endpoint, Decide(w, c), p, e); }
  }

  lemma StepGrounded(ws: seq<World>, calls: seq<Call>, names: set<string>, n: nat)
    requires Run(ws, calls) && Among(calls, names) && KeepApart(names) && n < |calls| && Grounded(ws, calls, names, n)
    ensures Grounded(ws, calls, names, n + 1)
  {
    var w, c, w' := ws[n], calls[n], ws[n + 1];
    assert w' == After(w, c);
    hide Run, LoadDecision, SaveDecision, Decide, KeepApart, YesTo;
    CallAdds(w, c, names, c.peer, c.endpoint);
    forall p, e | e in names && LoadDecision(w'.text, p, e) == Some(true) ensures SavedYes(ws, calls, n + 1, p, e) {
      CallAdds(w, c, names, p, e);
      if LoadDecision(w.text, p, e) == Some(true) { assert SavedYes(ws, calls, n, p, e); }
    }
    forall conn, e | (conn, e) in w'.cache && w'.cache[(conn, e)] ensures CachedYes(ws, calls, n + 1, conn, e) {
      if (conn, e) in w.cache && w.cache[(conn, e)] { assert CachedYes(ws, calls, n, conn, e); }
    }
  }

  lemma {:induction false} RunGrounded(ws: seq<World>, calls: seq<Call>, names: set<string>, n: nat)
    requires Run(ws, calls) && Among(calls, names) && KeepApart(names) && ws[0].text == "" && n <= |calls|
    ensures Grounded(ws, calls, names, n)
  {
    if n == 0 {
      forall p, e ensures LoadDecision("", p, e) == None { NothingSaved(p, e); }
    } else {
      RunGrounded(ws, calls, names, n - 1);
      StepGrounded(ws, calls, names, n - 1);
    }
  }

  /**
    Over any run that starts from an empty file, a call to a prompting endpoint is admitted only if its
    connection was let in before, or the user has answered this very question - about this peer and this
    endpoint - with anything but Deny. This needs that no endpoint's name takes several lines of which
    one admits to another endpoint of the host.
  */
  lemma AdmittedOnlyIfYes(ws: seq<World>, calls: seq<Call>, names: set<string>, i: nat)
    requires Run(ws, calls) && ws[0].text == "" && Among(calls, names) && KeepApart(names)
    requires i < |calls| && calls[i].tier == PromptUser && Decide(ws[i], calls[i])
    ensures LetInBefore(ws, calls, i) || SaidYes(ws, calls, i)
  {
    RunGrounded(ws, calls, names, i);
    var w, c := ws[i], calls[i];
    hide Run, LoadDecision, KeepApart;
    if Cached(w, c) {
      assert CachedYes(ws, calls, i, c.conn, c.endpoint);
    } else if LoadDecision(w.text, c.peer, c.endpoint).Some? {
      assert SavedYes(ws, calls, i, c.peer, c.endpoint);
    } else {
      assert YesTo(w, c, c.peer, c.endpoint);
    }
  }

  // It is so for names without a newline.
  lemma OneLineNamesKeepApart(names: set<string>)
    requires forall n :: n in names ==> OneLine(n)
    ensures KeepApart(names)
  {
  }

  /** And it is needed: with any other names there is a run in which a call is admitted without such an answer. */
  lemma AdmittedWithoutYes(names: set<string>) returns (ws: seq<World>, calls: seq<Call>)
    requires !KeepApart(names)
    ensures Run(ws, calls) && ws[0].text == "" && Among(calls, names)
    ensures |calls| == 2 && calls[1].tier == PromptUser && Decide(ws[1], calls[1])
    ensures !LetInBefore(ws, calls, 1) && !SaidYes(ws, calls, 1)
  {
    hide LoadDecision, SaveDecision, OneLine, After, Decide, Asks;
    var n, e, p, q, allow :| n in names && e in names && !OneLine(n) && Admits(p, n, allow, q, e);
    var c := Call(0, p, n, PromptUser, false, false, Some(if allow then AlwaysAllow else Deny));
    var d := Call(1, q, e, PromptUser, false, false, None);
    var w0 := World("", map[], []);
    var w1 := After(w0, c);
    NothingSaved(p, n);
    NeverItself(p, n, allow, q);
    FirstAnswer(w0, c, allow);
    StoredAdmits(w1, d);
    calls := [c, d];
    ws := [w0, w1, After(w1, d)];
    assert calls[0].endpoint != calls[1].endpoint;
  }

  lemma NeverItself(p: Bytes32, n: string, allow: bool, q: Bytes32)
    requires !OneLine(n)
    ensures !Admits(p, n, allow, q, n)
  {
    hide SaveDecision;
    NewlineNeverFound(Lines(SaveDecision("", p, n, allow)), ToHex(q), n);
  }

  lemma FirstAnswer(w: World, c: Call, allow: bool)
    requires w == World("", map[], []) && c.tier == PromptUser && c.answer == Some(if allow then AlwaysAllow else Deny)
    ensures After(w, c).text == SaveDecision("", c.peer, c.endpoint, allow) && After(w, c).cache.Keys == {(c.conn, c.endpoint)}
  {
    hide LoadDecision, SaveDecision;
    NothingSaved(c.peer, c.endpoint);
  }

  lemma StoredAdmits(w: World, c: Call)
    requires !Cached(w, c) && c.tier == PromptUser && LoadDecision(w.text, c.peer, c.endpoint) == Some(true)
    ensures Decide(w, c) && !Asks(w, c)
  {
    hide LoadDecision;
  }

  lemma SpilledText(p: Bytes32)
    ensures var last := DecisionLine(p, "b", true);
            SaveDecision("", p, "a\n" + last, true) == DecisionLine(p, "a", true) + "\n" + (last + "\n" + "")
  {
    hide ToHex;
  }

  // There are such names.
  lemma SpillingNames(p: Bytes32)
    ensures !KeepApart({"a\n" + DecisionLine(p, "b", true), "b"})
  {
    hide DecisionLine, LoadDecision, SaveDecision;
    var n := "a\n" + DecisionLine(p, "b", true);
    SpilledAdmits(p);
    assert n[1] == '\n';
    assert Admits(p, n, true, p, "b");
  }

  lemma PlainLine(p: Bytes32, endpoint: string)
    requires OneLine(endpoint)
    ensures OneLine(DecisionLine(p, endpoint, true))
  {
    HexPlain(p);
    hide ToHex;
  }

  lemma SpilledAdmits(p: Bytes32)
    ensures LoadDecision(SaveDecision("", p, "a\n" + DecisionLine(p, "b", true), true), p, "b") == Some(true)
  {
    hide DecisionLine, Verdict, ToHex, Pieces, SaveDecision;
    var first, last := DecisionLine(p, "a", true), DecisionLine(p, "b", true);
    PlainLine(p, "a");
    PlainLine(p, "b");
    LineVerdict(Decision(p, "b", true), p, "b");
    SpilledText(p);
    hide OneLine;
    FirstPiece(first, '\n', last + "\n" + "");
    FirstPiece(last, '\n', "");
    NoLines();
    assert Lines(SaveDecision("", p, "a\n" + last, true)) == [first, last];
  }

  // ---- the code --------------------------------------------------------------

  // The decision file of a service, and the host's procedure over it.
  class Authorizer {
    var text: string
    var cache: map<(nat, string), bool>
    var asked: seq<Call>

    function View(): World
      reads this
    {
      World(text, cache, asked)
    }

    constructor (text: string)
      ensures View() == World(text, map[], [])
    {
      this.text, this.cache, this.asked := text, map[], [];
    }

    method ReadVerdict(line: string, want: string, endpoint: string) returns (v: Option<bool>)
      ensures v == Verdict(line, want, endpoint)
    {
      var s1 := Find(line, ' ', 0);
      if s1 == |line| { return None; }
      var s2 := Find(line, ' ', s1 + 1);
      if s2 == |line| { return None; }
      if line[..s1] != want { return None; }
      if line[s2 + 1..] != endpoint { return None; }
      var verdict := line[s1 + 1..s2];
      if verdict == "allow" { return Some(true); }
      if verdict == "deny" { return Some(false); }
      return None;
    }

    method LoadAuthzDecision(peer: Bytes32, endpoint: string) returns (decision: Option<bool>)
      ensures decision == LoadDecision(text, peer, endpoint)
    {
      hide Pieces, Head, Tail, Verdict;
      var want := Hex.Encode(peer);
      decision := None;
      var rest := text;
      ghost var done: seq<string> := [];
      while rest != ""
        invariant Lines(text) == done + Lines(rest)
        invariant decision == Scan(done, want, endpoint)
        decreases |rest|
      {
        var line := Head(rest, '\n');
        NextLine(rest);
        rest := Tail(rest, '\n');
        assert (done + [line])[..|done|] == done;
        assert done + ([line] + Lines(rest)) == (done + [line]) + Lines(rest);
        done := done + [line];
        var verdict := ReadVerdict(line, want, endpoint);
        if verdict.Some? { decision := verdict; }
      }
      NoLines();
      assert done + Lines(rest) == done;
    }

    method Authorize(c: Call) returns (allowed: bool)
      modifies this
      ensures View() == After(old(View()), c) && allowed == Decide(old(View()), c)
    {
      if (c.conn, c.endpoint) in cache { return cache[(c.conn, c.endpoint)]; }
      allowed := false;
      match c.tier {
        case Open => allowed := true;
        case PinnedPeers => allowed := c.listed;
        case Certificate => allowed := c.certified;
        case PromptUser =>
          var persisted := LoadAuthzDecision(c.peer, c.endpoint);
          if persisted.Some? {
            allowed := persisted.value;
          } else if c.answer.Some? {
            asked := asked + [c];
            allowed := c.answer.value != Deny;
            if c.answer.value == AlwaysAllow || c.answer.value == Deny {
              text := SaveDecision(text, c.peer, c.endpoint, allowed);
            }
          }
      }
      cache := cache[(c.conn, c.endpoint) := allowed];
    }
  }
}
