/**
  Credentials: the text block, what it takes to install one, and what an installed one allows.
  Signatures are those of the handshake, which the same identities take part in.
*/
module Credentials {
  import opened Options
  import opened Bytes
  import opened Text
  import opened Hex
  import opened Transcripts
  import Handshake
  import Authorization

  type Scheme = Handshake.Scheme

  datatype Credential = Credential(peer: Bytes32, scope: string, expires: Uint64, issuer: Bytes32, signature: Bytes64)

  // ---- the text --------------------------------------------------------------

  const HEADER := "epx-credential-v1"

  function Serialize(c: Credential): string {
    HEADER + "\n" + "peer=" + ToHex(c.peer) + "\n" + "scope=" + c.scope + "\n" + "expires=" + Decimal(c.expires) + "\n"
    + "issuer=" + ToHex(c.issuer) + "\n" + "sig=" + ToHex(c.signature) + "\n"
  }

  // `std::stoull`: a minus sign wraps around, anything out of range throws.
  function Stoull(s: string): Option<Uint64> {
    match Number(s)
    case None => None
    case Some(n) =>
      if n + TWO64 <= 0 || n >= TWO64 then None
      else if n < 0 then Some(n + TWO64) else Some(n)
  }

  function Key(s: string): Option<Bytes32> {
    match FromHex(s, 32) case Some(k) => Some(k) case None => None
  }

  function Sig(s: string): Option<Bytes64> {
    match FromHex(s, 64) case Some(k) => Some(k) case None => None
  }

  // What the lines so far have set; an empty scope counts as none.
  datatype Fields = Fields(peer: Option<Bytes32>, scope: string, expires: Option<Uint64>, issuer: Option<Bytes32>, sig: Option<Bytes64>)

  const NO_FIELDS := Fields(None, "", None, None, None)

  // None when a number does not parse.
  function CredentialField(f: Fields, line: string): Option<Fields> {
    match Assignment(line)
    case None => Some(f)
    case Some((key, val)) => SetCredential(f, key, val)
  }

  function SetCredential(f: Fields, key: string, val: string): Option<Fields> {
    if key == "peer" then Some(f.(peer := Key(val)))
    else if key == "scope" then Some(f.(scope := val))
    else if key == "expires" then (match Stoull(val) case Some(n) => Some(f.(expires := Some(n))) case None => None)
    else if key == "issuer" then Some(f.(issuer := Key(val)))
    else if key == "sig" then Some(f.(sig := Sig(val)))
    else Some(f)
  }

  function FieldsOf(f: Fields, lines: seq<string>): Option<Fields>
    decreases |lines|
  {
    if lines == [] then Some(f) else
    match CredentialField(f, lines[0])
    case None => None
    case Some(g) => FieldsOf(g, lines[1..])
  }

  function Complete(f: Fields): Option<Credential> {
    if f.peer.Some? && f.scope != "" && f.expires.Some? && f.issuer.Some? && f.sig.Some?
    then Some(Credential(f.peer.value, f.scope, f.expires.value, f.issuer.value, f.sig.value))
    else None
  }

  function Parse(text: string): Option<Credential> {
    if text == "" || Head(text, '\n') != HEADER then None else
    match FieldsOf(NO_FIELDS, Lines(Tail(text, '\n')))
    case None => None
    case Some(f) => Complete(f)
  }

  function FieldLines(c: Credential): seq<string> {
    ["peer=" + ToHex(c.peer), "scope=" + c.scope, "expires=" + Decimal(c.expires),
     "issuer=" + ToHex(c.issuer), "sig=" + ToHex(c.signature)]
  }

  lemma KeyFields(f: Fields, k: Bytes32)
    ensures CredentialField(f, "peer=" + ToHex(k)) == Some(f.(peer := Some(k)))
    ensures CredentialField(f, "issuer=" + ToHex(k)) == Some(f.(issuer := Some(k)))
  {
    HexRoundTrip(k);
    assert Key(ToHex(k)) == Some(k);
    hide ToHex, Assignment, Key;
    AssignmentRead("peer", ToHex(k));
    AssignmentRead("issuer", ToHex(k));
    assert "peer" + ("=" + ToHex(k)) == "peer=" + ToHex(k) && "issuer" + ("=" + ToHex(k)) == "issuer=" + ToHex(k);
  }

  lemma ScopeField(f: Fields, scope: string)
    ensures CredentialField(f, "scope=" + scope) == Some(f.(scope := scope))
  {
    hide Assignment;
    AssignmentRead("scope", scope);
    assert "scope" + ("=" + scope) == "scope=" + scope;
  }

  lemma StoullOfDecimal(n: Uint64)
    ensures Stoull(Decimal(n)) == Some(n)
  {
    hide Number, Decimal;
    NumberOfDecimal(n);
  }

  lemma ExpiresField(f: Fields, n: Uint64)
    ensures CredentialField(f, "expires=" + Decimal(n)) == Some(f.(expires := Some(n)))
  {
    StoullOfDecimal(n);
    hide Assignment, Decimal, Stoull;
    AssignmentRead("expires", Decimal(n));
    assert "expires" + ("=" + Decimal(n)) == "expires=" + Decimal(n);
  }

  lemma SigField(f: Fields, s: Bytes64)
    ensures CredentialField(f, "sig=" + ToHex(s)) == Some(f.(sig := Some(s)))
  {
    HexRoundTrip(s);
    assert Sig(ToHex(s)) == Some(s);
    hide Assignment, ToHex, Sig;
    AssignmentRead("sig", ToHex(s));
    assert "sig" + ("=" + ToHex(s)) == "sig=" + ToHex(s);
  }

  lemma FieldsRead(c: Credential)
    ensures FieldsOf(NO_FIELDS, FieldLines(c)) == Some(Fields(Some(c.peer), c.scope, Some(c.expires), Some(c.issuer), Some(c.signature)))
  {
    hide CredentialField, ToHex, Decimal;
    var l := FieldLines(c);
    var f1 := NO_FIELDS.(peer := Some(c.peer));
    var f2 := f1.(scope := c.scope);
    var f3 := f2.(expires := Some(c.expires));
    var f4 := f3.(issuer := Some(c.issuer));
    KeyFields(NO_FIELDS, c.peer);
    ScopeField(f1, c.scope);
    ExpiresField(f2, c.expires);
    KeyFields(f3, c.issuer);
    SigField(f4, c.signature);
    assert l[1..][0] == l[1] && l[1..][1..] == l[2..];
    assert l[2..][0] == l[2] && l[2..][1..] == l[3..];
    assert l[3..][0] == l[3] && l[3..][1..] == l[4..];
    assert l[4..][0] == l[4] && l[4..][1..] == [];
    var f5 := f4.(sig := Some(c.signature));
    assert FieldsOf(f4, l[4..]) == FieldsOf(f5, []) == Some(f5);
    assert FieldsOf(f3, l[3..]) == Some(f5);
    assert FieldsOf(f2, l[2..]) == Some(f5);
    assert FieldsOf(f1, l[1..]) == Some(f5);
  }

  lemma FieldLinesOneLine(c: Credential)
    requires OneLine(c.scope)
    ensures forall k :: 0 <= k < |FieldLines(c)| ==> OneLine(FieldLines(c)[k])
  {
    Authorization.HexPlain(c.peer);
    Authorization.HexPlain(c.issuer);
    Authorization.HexPlain(c.signature);
    SignedOneLine(c.expires);
    hide ToHex, Decimal;
    Joined("peer=", ToHex(c.peer));
    Joined("scope=", c.scope);
    Joined("expires=", Decimal(c.expires));
    Joined("issuer=", ToHex(c.issuer));
    Joined("sig=", ToHex(c.signature));
  }

  lemma Joined(s: string, t: string)
    requires OneLine(s) && OneLine(t)
    ensures OneLine(s + t)
  {
  }

  lemma HeaderOneLine()
    ensures Without(HEADER, '\n')
  {
  }

  lemma SerializedLines(c: Credential)
    requires OneLine(c.scope)
    ensures var t := Serialize(c);
            t != "" && Head(t, '\n') == HEADER && Lines(Tail(t, '\n')) == FieldLines(c)
  {
    var l, t := FieldLines(c), Serialize(c);
    var body := Ended(l, '\n');
    FieldLinesOneLine(c);
    BodyIs(c);
    NoLines();
    ReadBack(l, '\n', "");
    HeaderOneLine();
    hide FieldLines, Serialize, Pieces, Ended, Head, Tail, OneLine;
    assert body + "" == body && l + [] == l;
    FirstPiece(HEADER, '\n', body);
  }

  lemma FiveEnded(l: seq<string>)
    requires |l| == 5
    ensures Ended(l, '\n') == l[0] + "\n" + (l[1] + "\n" + (l[2] + "\n" + (l[3] + "\n" + (l[4] + "\n"))))
  {
    assert l[1..][1..] == l[2..] && l[2..][1..] == l[3..] && l[3..][1..] == l[4..] && l[4..][1..] == [];
    assert Ended(l[4..], '\n') == l[4] + "\n";
    assert Ended(l[3..], '\n') == l[3] + "\n" + (l[4] + "\n");
    assert Ended(l[2..], '\n') == l[2] + "\n" + (l[3] + "\n" + (l[4] + "\n"));
    assert Ended(l[1..], '\n') == l[1] + "\n" + (l[2] + "\n" + (l[3] + "\n" + (l[4] + "\n")));
  }

  lemma BodyIs(c: Credential)
    ensures Serialize(c) == HEADER + "\n" + Ended(FieldLines(c), '\n')
  {
    hide ToHex, Decimal, Ended;
    FiveEnded(FieldLines(c));
  }

  // A scope that was read from a line has no newline.
  lemma {:induction false} ScopeOneLine(f: Fields, lines: seq<string>)
    requires OneLine(f.scope) && forall k :: 0 <= k < |lines| ==> OneLine(lines[k])
    ensures FieldsOf(f, lines).Some? ==> OneLine(FieldsOf(f, lines).value.scope)
    decreases |lines|
  {
    if lines != [] {
      var g := CredentialField(f, lines[0]);
      if g.Some? { ScopeOneLine(g.value, lines[1..]); }
    }
  }

  // ---- what a text says ------------------------------------------------------

  // A field is what its last line says, or what it was.
  function LastField<T>(lines: seq<string>, key: string, read: string -> Option<T>, was: Option<T>): Option<T> {
    match LastOf(lines, key) case Some(v) => read(v) case None => was
  }

  predicate NumbersRead(lines: seq<string>) {
    forall k :: 0 <= k < |lines| ==> Assignment(lines[k]).Some? && Assignment(lines[k]).value.0 == "expires" ==>
      Stoull(Assignment(lines[k]).value.1).Some?
  }

  lemma FieldsOnce(f: Fields, lines: seq<string>)
    requires lines != [] && CredentialField(f, lines[0]).Some?
    ensures var g, one := CredentialField(f, lines[0]).value, lines[..1];
            && g.peer == LastField(one, "peer", Key, f.peer) && g.issuer == LastField(one, "issuer", Key, f.issuer)
            && g.sig == LastField(one, "sig", Sig, f.sig) && g.expires == LastField(one, "expires", Stoull, f.expires)
            && Some(g.scope) == LastField(one, "scope", s => Some(s), Some(f.scope))
  {
    hide Assignment, LastOf, Key, Sig, Stoull;
    LastOfOne(lines, "peer");
    LastOfOne(lines, "issuer");
    LastOfOne(lines, "sig");
    LastOfOne(lines, "expires");
    LastOfOne(lines, "scope");
  }

  lemma {:induction false} FieldsAreLast(f: Fields, lines: seq<string>)
    ensures FieldsOf(f, lines).Some? <==> NumbersRead(lines)
    ensures FieldsOf(f, lines).Some? ==>
            var g := FieldsOf(f, lines).value;
            && g.peer == LastField(lines, "peer", Key, f.peer) && g.issuer == LastField(lines, "issuer", Key, f.issuer)
            && g.sig == LastField(lines, "sig", Sig, f.sig) && g.expires == LastField(lines, "expires", Stoull, f.expires)
            && Some(g.scope) == LastField(lines, "scope", s => Some(s), Some(f.scope))
    decreases |lines|
  {
    if lines != [] {
      NumbersNext(f, lines);
      if CredentialField(f, lines[0]).Some? {
        FieldsAreLast(CredentialField(f, lines[0]).value, lines[1..]);
        FieldsOnce(f, lines);
        hide CredentialField, LastOf, Key, Sig, Stoull, NumbersRead;
        LastOfFirst(lines, "peer");
        LastOfFirst(lines, "issuer");
        LastOfFirst(lines, "sig");
        LastOfFirst(lines, "expires");
        LastOfFirst(lines, "scope");
      }
    }
  }

  lemma NumbersNext(f: Fields, lines: seq<string>)
    requires lines != []
    ensures NumbersRead(lines) <==> CredentialField(f, lines[0]).Some? && NumbersRead(lines[1..])
  {
    hide Assignment, Stoull, Key, Sig;
    if NumbersRead(lines[1..]) {
      forall k | 0 < k < |lines| ensures lines[k] == lines[1..][k - 1] {}
    }
  }

  /**
    What a text says. It is read as this credential if and only if it begins with the header, every
    expiry in it is a number, and the last line of each key gives the credential's field, the scope not
    being empty.
  */
  lemma ParsesIff(text: string, c: Credential)
    ensures var lines := Lines(Tail(text, '\n'));
            Parse(text) == Some(c) <==>
              && text != "" && Head(text, '\n') == HEADER && NumbersRead(lines)
              && LastField(lines, "peer", Key, None) == Some(c.peer) && LastField(lines, "issuer", Key, None) == Some(c.issuer)
              && LastField(lines, "sig", Sig, None) == Some(c.signature) && LastField(lines, "expires", Stoull, None) == Some(c.expires)
              && LastOf(lines, "scope") == Some(c.scope) && c.scope != ""
  {
    FieldsAreLast(NO_FIELDS, Lines(Tail(text, '\n')));
    hide FieldsOf, LastOf, Key, Sig, Stoull, NumbersRead, Head, Tail, Lines;
  }

  /** An expiry is read as `stoull` reads it: a negative number wraps around, one out of range is refused. */
  lemma StoullIff(n: int)
    ensures Stoull(Signed(n)) == if 0 <= n < TWO64 then Some(n) else if n < 0 && n + TWO64 > 0 then Some(n + TWO64) else None
  {
    hide Number, Signed;
    NumberOfSigned(n);
  }

  /** A text is accepted exactly when it reads as a credential whose signature verifies, and then it is added. */
  lemma AddedIff(creds: seq<Credential>, text: string, sch: Scheme)
    ensures var (after, ok) := Added(creds, text, sch);
            && (ok <==> exists c :: Parse(text) == Some(c) && SignatureValid(c, sch))
            && (if ok then |after| == |creds| + 1 && after[..|creds|] == creds && Parse(text) == Some(after[|creds|]) else after == creds)
  {
    hide Parse, SignatureValid;
    if Parse(text).Some? { assert Parse(text) == Some(Parse(text).value); }
  }

  /** A credential survives its text unchanged if and only if its scope is not empty and has no newline. */
  lemma SurvivesIff(c: Credential)
    ensures Parse(Serialize(c)) == Some(c) <==> c.scope != "" && OneLine(c.scope)
  {
    if OneLine(c.scope) {
      SerializedLines(c);
      FieldsRead(c);
    } else {
      ScopeOneLine(NO_FIELDS, Lines(Tail(Serialize(c), '\n')));
    }
  }

  // ---- installing and using credentials --------------------------------------

  function SignedBytes(peer: Bytes32, issuer: Bytes32, scope: string, expires: Uint64): seq<byte> {
    StatementBytes(Statement(peer, issuer, Raw(scope), expires))
  }

  predicate SignatureValid(c: Credential, sch: Scheme) {
    sch.verify(c.issuer, SignedBytes(c.peer, c.issuer, c.scope, c.expires), c.signature)
  }

  predicate Covers(c: Credential, peer: Bytes32, service: string, endpoint: string, now: Uint64) {
    && c.peer == peer
    && !(c.expires != 0 && now > c.expires)
    && (c.scope == service || c.scope == service + "/" + endpoint)
  }

  // `add_credential`: the credentials afterwards, and whether the text was accepted.
  function Added(creds: seq<Credential>, text: string, sch: Scheme): (seq<Credential>, bool) {
    match Parse(text)
    case Some(c) => if SignatureValid(c, sch) then (creds + [c], true) else (creds, false)
    case None => (creds, false)
  }

  // What a host holds after these texts were given to it.
  function Installed(texts: seq<string>, sch: Scheme): seq<Credential> {
    if texts == [] then [] else Added(Installed(texts[..|texts| - 1], sch), texts[|texts| - 1], sch).0
  }

  predicate Certified(creds: seq<Credential>, issuers: set<Bytes32>, peer: Bytes32, service: string, endpoint: string, now: Uint64) {
    exists i :: 0 <= i < |creds| && creds[i].issuer in issuers && Covers(creds[i], peer, service, endpoint, now)
  }

  // `make_credential`
  function MakeCredential(sch: Scheme, peer: Bytes32, scope: string, expires: Uint64, issuer: Bytes32): Credential {
    Credential(peer, scope, expires, issuer, sch.sign(issuer, SignedBytes(peer, issuer, scope, expires)))
  }

  lemma OneAdded(text: string, c: Credential, sch: Scheme)
    requires SignatureValid(c, sch)
    ensures Installed([text], sch) == [c] <==> Parse(text) == Some(c)
  {
    hide Parse, SignatureValid;
    assert [text][..0] == [];
    assert Installed([text], sch) == Added([], text, sch).0;
    if Parse(text).Some? {
      assert [] + [Parse(text).value] == [Parse(text).value];
      assert [Parse(text).value][0] == Parse(text).value && [c][0] == c;
    }
  }

  /**
    A minted credential of a trusted issuer, installed as the only one: it can be installed if and
    only if the scope is not empty and has no newline, and then on the first decision of a connection
    a Certificate endpoint admits exactly the peer it names, within the scope it names, until it expires.
  */
  lemma MintedAdmitsExactly(
      peer: Bytes32, scope: string, expires: Uint64, issuer: Bytes32, sch: Scheme, issuers: set<Bytes32>,
      service: string, now: Uint64, w: Authorization.World, call: Authorization.Call)
    requires issuer in issuers && SignatureValid(MakeCredential(sch, peer, scope, expires, issuer), sch)
    requires call.tier == Authorization.Certificate && !Authorization.Cached(w, call)
    ensures var c := MakeCredential(sch, peer, scope, expires, issuer);
            Installed([Serialize(c)], sch) == [c] <==> scope != "" && OneLine(scope)
    ensures scope != "" && OneLine(scope) ==>
      var creds := Installed([Serialize(MakeCredential(sch, peer, scope, expires, issuer))], sch);
      call.certified == Certified(creds, issuers, call.peer, service, call.endpoint, now) ==>
      (Authorization.Decide(w, call) <==>
        call.peer == peer && (expires == 0 || now <= expires) && (scope == service || scope == service + "/" + call.endpoint))
  {
    var c := MakeCredential(sch, peer, scope, expires, issuer);
    SurvivesIff(c);
    hide Serialize, Parse, SignedBytes;
    OneAdded(Serialize(c), c, sch);
    if scope != "" && OneLine(scope) {
      hide Installed;
      assert [c][0] == c;
      assert Certified([c], issuers, call.peer, service, call.endpoint, now) <==> Covers(c, call.peer, service, call.endpoint, now);
    }
  }

  lemma {:induction false} StaysInstalled(texts: seq<string>, i: nat, c: Credential, sch: Scheme)
    requires i < |texts| && Parse(texts[i]) == Some(c) && SignatureValid(c, sch)
    ensures c in Installed(texts, sch)
  {
    hide Parse, SignatureValid;
    var n := |texts| - 1;
    if i < n { StaysInstalled(texts[..n], i, c, sch); }
  }

  /**
    Wherever a minted credential of a trusted issuer stands among the texts a host was given, it admits
    the peer it names, within its scope, until it expires.
  */
  lemma AnyInstalledAdmits(texts: seq<string>, i: nat, c: Credential, sch: Scheme, issuers: set<Bytes32>,
                           service: string, endpoint: string, now: Uint64)
    requires i < |texts| && texts[i] == Serialize(c) && SignatureValid(c, sch) && c.issuer in issuers
    requires c.scope != "" && OneLine(c.scope)
    requires (c.expires == 0 || now <= c.expires) && c.scope in {service, service + "/" + endpoint}
    ensures Certified(Installed(texts, sch), issuers, c.peer, service, endpoint, now)
  {
    SurvivesIff(c);
    hide Parse, Serialize, SignatureValid, Installed;
    StaysInstalled(texts, i, c, sch);
    var creds := Installed(texts, sch);
    var k :| 0 <= k < |creds| && creds[k] == c;
  }

  lemma {:induction false} InstalledValid(texts: seq<string>, sch: Scheme)
    ensures forall i :: 0 <= i < |Installed(texts, sch)| ==> SignatureValid(Installed(texts, sch)[i], sch)
  {
    if texts != [] {
      InstalledValid(texts[..|texts| - 1], sch);
      hide Parse, SignatureValid;
    }
  }

  /**
    Whatever texts a host was given, an admission rests on a statement that a trusted issuer minted for
    this very peer, with a scope that covers the call and that has not expired. The issuers may take
    part in any number of handshakes, as clients and as servers, at any version: no handshake signature
    of theirs stands in for a credential.
  */
  lemma OnlyTheMintedAreAdmitted(
      ws: seq<Handshake.World>, es: seq<Handshake.Event>, honest: set<Bytes32>, sch: Scheme, texts: seq<string>,
      issuers: set<Bytes32>, peer: Bytes32, service: string, endpoint: string, now: Uint64)
    returns (st: Statement)
    requires Handshake.Run(ws, es, honest) && Handshake.Sound(sch, honest, ws[|es|]) && issuers <= honest
    requires Certified(Installed(texts, sch), issuers, peer, service, endpoint, now)
    ensures st in ws[|es|].minted && st.issuer in issuers && st.peer == peer && (st.expires == 0 || now <= st.expires)
    ensures st.scope == Raw(service) || st.scope == Raw(service + "/" + endpoint)
  {
    var creds := Installed(texts, sch);
    InstalledValid(texts, sch);
    hide Installed, Raw;
    var i :| 0 <= i < |creds| && creds[i].issuer in issuers && Covers(creds[i], peer, service, endpoint, now);
    var c := creds[i];
    var own := Statement(c.peer, c.issuer, Raw(c.scope), c.expires);
    assert SignatureValid(c, sch);
    assert (c.issuer, StatementBytes(own)) in ws[|es|].signed;
    StatementTagged(own);
    Handshake.RunInv(ws, es, honest);
    hide Handshake.Run, Handshake.Inv;
    Handshake.StatementIsMinted(ws[|es|], honest, c.issuer, StatementBytes(own));
    st :| st in ws[|es|].minted && st.issuer == c.issuer && StatementBytes(own) == StatementBytes(st);
    CredentialInjective(own.peer, own.issuer, own.scope, own.expires, st.peer, st.issuer, st.scope, st.expires);
  }

  // Such an admission does happen, next to a handshake of the issuer's own.
  lemma AdmissionHappens(o: Handshake.Offer, c: Credential, now: Uint64)
    requires !SpellsTag(o.ephemeral) && o.self == c.issuer
    requires c.scope != "" && OneLine(c.scope) && (c.expires == 0 || now <= c.expires)
    ensures exists ws: seq<Handshake.World>, es: seq<Handshake.Event>, sch: Scheme ::
              && Handshake.Run(ws, es, {c.issuer}) && Handshake.Sound(sch, {c.issuer}, ws[|es|])
              && Certified(Installed([Serialize(c)], sch), {c.issuer}, c.peer, c.scope, "", now)
  {
    var st := Statement(c.peer, c.issuer, Raw(c.scope), c.expires);
    var ws, es, sch := Handshake.AskAndMint(o, st, c.signature, {c.issuer});
    assert SignatureValid(c, sch);
    SurvivesIff(c);
    hide Parse, Serialize, SignatureValid, Installed, Handshake.Run, Handshake.Sound;
    OneAdded(Serialize(c), c, sch);
    SoleAdmits(Installed([Serialize(c)], sch), c, now);
  }

  lemma SoleAdmits(creds: seq<Credential>, c: Credential, now: Uint64)
    requires creds == [c] && (c.expires == 0 || now <= c.expires)
    ensures Certified(creds, {c.issuer}, c.peer, c.scope, "", now)
  {
    assert creds[0] == c && Covers(c, c.peer, c.scope, "", now);
  }

  // ---- the code --------------------------------------------------------------

  method ParseText(text: string) returns (r: Option<Credential>)
    ensures r == Parse(text)
  {
    if text == "" { return None; }
    var first := Head(text, '\n');
    if first != HEADER { return None; }
    var rest := Tail(text, '\n');
    var f := NO_FIELDS;
    while rest != ""
      invariant FieldsOf(f, Lines(rest)) == FieldsOf(NO_FIELDS, Lines(Tail(text, '\n')))
      decreases |rest|
    {
      var line := Head(rest, '\n');
      assert Lines(rest)[0] == line && Lines(rest)[1..] == Lines(Tail(rest, '\n'));
      rest := Tail(rest, '\n');
      var eq := Find(line, '=', 0);
      if eq == |line| { continue; }
      var g := SetCredential(f, line[..eq], line[eq + 1..]);
      if g == None { return None; }
      f := g.value;
    }
    NoLines();
    if f.peer == None || f.scope == "" || f.expires == None || f.issuer == None || f.sig == None { return None; }
    return Some(Credential(f.peer.value, f.scope, f.expires.value, f.issuer.value, f.sig.value));
  }

  method AnyCovers(creds: seq<Credential>, issuers: set<Bytes32>, peer: Bytes32, service: string, endpoint: string, now: Uint64)
      returns (allowed: bool)
    ensures allowed == Certified(creds, issuers, peer, service, endpoint, now)
  {
    for i := 0 to |creds|
      invariant forall k :: 0 <= k < i ==> !(creds[k].issuer in issuers && Covers(creds[k], peer, service, endpoint, now))
    {
      if creds[i].issuer in issuers && Covers(creds[i], peer, service, endpoint, now) { return true; }
    }
    return false;
  }
}
