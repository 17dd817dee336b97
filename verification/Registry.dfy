/**
  The registry entry of a running service: written by the host, found and described by clients.
  Files are texts, and whether a process is alive is a parameter.
*/
module Registry {
  import opened Options
  import opened Bytes
  import opened EndpointKinds
  import opened Text
  import opened Hex
  import Authorization
  import Credentials

  // `long` in 64 bits.
  type Long = n: int | -0x8000_0000_0000_0000 <= n < 0x8000_0000_0000_0000

  datatype Entry = Entry(version: byte, service: string, address: string, pubkey: Bytes32, pid: Long,
                         endpoints: seq<string>, description: string)

  // ---- lists in one line -----------------------------------------------------

  function Join(v: seq<string>, sep: char): string {
    if v == [] then "" else if |v| == 1 then v[0] else v[0] + [sep] + Join(v[1..], sep)
  }

  function NonEmpty(v: seq<string>): (r: seq<string>)
    ensures forall k :: 0 <= k < |r| ==> r[k] != "" && r[k] in v
  {
    if v == [] then [] else if v[0] == "" then NonEmpty(v[1..]) else [v[0]] + NonEmpty(v[1..])
  }

  function Split(s: string, sep: char): seq<string> {
    NonEmpty(Pieces(s, sep))
  }

  predicate Item(s: string, sep: char) {
    s != "" && Without(s, sep)
  }

  lemma {:induction false} JoinedPieces(v: seq<string>, sep: char)
    requires forall k :: 0 <= k < |v| ==> Item(v[k], sep)
    ensures Pieces(Join(v, sep), sep) == v && NonEmpty(v) == v
  {
    hide Pieces;
    if v == [] {
      NoPieces(sep);
    } else if |v| == 1 {
      OnePiece(v[0], sep);
      assert v[1..] == [] && v == [v[0]] && NonEmpty([]) == [];
    } else {
      JoinedPieces(v[1..], sep);
      FirstPiece(v[0], sep, Join(v[1..], sep));
      assert Join(v, sep) == v[0] + [sep] + Join(v[1..], sep);
      hide Join;
      assert [v[0]] + v[1..] == v;
    }
  }

  lemma NoPieces(sep: char)
    ensures Pieces("", sep) == []
  {
  }

  lemma OnePiece(s: string, sep: char)
    requires Item(s, sep)
    ensures Pieces(s, sep) == [s]
  {
    FindIs(s, sep, 0, |s|);
    NoPieces(sep);
    assert s[..|s|] == s;
  }

  // A list survives its line if and only if no item is empty or contains the separator.
  lemma SplitJoinIff(v: seq<string>, sep: char)
    ensures Split(Join(v, sep), sep) == v <==> forall k :: 0 <= k < |v| ==> Item(v[k], sep)
  {
    if forall k :: 0 <= k < |v| ==> Item(v[k], sep) { JoinedPieces(v, sep); }
    var r := Split(Join(v, sep), sep);
    forall k | 0 <= k < |r| ensures Item(r[k], sep) {}
  }

  // ---- the entry's text ------------------------------------------------------

  function EntryLines(e: Entry): seq<string> {
    ["version=" + Decimal(e.version), "service=" + e.service, "address=" + e.address, "pubkey=" + ToHex(e.pubkey),
     "pid=" + Signed(e.pid), "endpoints=" + Join(e.endpoints, ','), "description=" + e.description]
  }

  function Publish(e: Entry): string {
    Ended(EntryLines(e), '\n')
  }

  function Stoi(s: string): Option<int> {
    match Number(s) case None => None case Some(n) => if -0x8000_0000 <= n < 0x8000_0000 then Some(n) else None
  }

  function Stol(s: string): Option<Long> {
    match Number(s)
    case None => None
    case Some(n) => if -0x8000_0000_0000_0000 <= n < 0x8000_0000_0000_0000 then Some(n) else None
  }

  // `uint8_t(n)`
  function Low(n: int): byte {
    n % 256
  }

  // None when the line makes the entry unreadable.
  function EntryField(e: Entry, line: string): Option<Entry> {
    match Assignment(line)
    case None => Some(e)
    case Some((key, val)) => SetEntry(e, key, val)
  }

  function SetEntry(e: Entry, key: string, val: string): Option<Entry> {
    if key == "version" then (match Stoi(val) case Some(n) => Some(e.(version := Low(n))) case None => None)
    else if key == "service" then Some(e)
    else if key == "address" then Some(e.(address := val))
    else if key == "pubkey" then (match Credentials.Key(val) case Some(k) => Some(e.(pubkey := k)) case None => None)
    else if key == "pid" then (match Stol(val) case Some(n) => Some(e.(pid := n)) case None => None)
    else if key == "endpoints" then Some(e.(endpoints := Split(val, ',')))
    else if key == "description" then Some(e.(description := val))
    else Some(e)
  }

  function Read(e: Entry, lines: seq<string>): Option<Entry>
    decreases |lines|
  {
    if lines == [] then Some(e) else
    match EntryField(e, lines[0])
    case None => None
    case Some(f) => Read(f, lines[1..])
  }

  function Blank(service: string): Entry {
    Entry(1, service, "", Zeros(32), -1, [], "")
  }

  function Lookup(service: string, file: Option<string>, alive: int -> bool): Option<Entry> {
    match file
    case None => None
    case Some(text) =>
      match Read(Blank(service), Lines(text))
      case None => None
      case Some(e) => if e.pid > 0 && alive(e.pid) then Some(e) else None
  }

  lemma StoiOfDecimal(n: nat)
    requires n < 256
    ensures Stoi(Decimal(n)) == Some(n as int) && Low(n) == n
  {
    hide Number, Decimal;
    NumberOfDecimal(n);
  }

  lemma VersionField(e: Entry, v: byte)
    ensures EntryField(e, "version=" + Decimal(v)) == Some(e.(version := v))
  {
    StoiOfDecimal(v);
    hide Assignment, Decimal, Stoi, Low;
    AssignmentRead("version", Decimal(v));
    assert "version" + ("=" + Decimal(v)) == "version=" + Decimal(v);
  }

  lemma PidField(e: Entry, pid: Long)
    ensures EntryField(e, "pid=" + Signed(pid)) == Some(e.(pid := pid))
  {
    NumberOfSigned(pid);
    hide Assignment, Signed, Number;
    AssignmentRead("pid", Signed(pid));
    assert "pid" + ("=" + Signed(pid)) == "pid=" + Signed(pid);
    assert Stol(Signed(pid)) == Some(pid);
  }

  lemma KeyField(e: Entry, k: Bytes32)
    ensures EntryField(e, "pubkey=" + ToHex(k)) == Some(e.(pubkey := k))
  {
    HexRoundTrip(k);
    hide Assignment, ToHex;
    AssignmentRead("pubkey", ToHex(k));
    assert "pubkey" + ("=" + ToHex(k)) == "pubkey=" + ToHex(k);
    assert Credentials.Key(ToHex(k)) == Some(k);
  }

  lemma TextFields(e: Entry, s: string)
    ensures EntryField(e, "service=" + s) == Some(e)
    ensures EntryField(e, "address=" + s) == Some(e.(address := s))
    ensures EntryField(e, "endpoints=" + s) == Some(e.(endpoints := Split(s, ',')))
    ensures EntryField(e, "description=" + s) == Some(e.(description := s))
  {
    hide Assignment, Split;
    AssignmentRead("service", s);
    AssignmentRead("address", s);
    AssignmentRead("endpoints", s);
    AssignmentRead("description", s);
    assert "service" + ("=" + s) == "service=" + s && "address" + ("=" + s) == "address=" + s;
    assert "endpoints" + ("=" + s) == "endpoints=" + s && "description" + ("=" + s) == "description=" + s;
  }

  // One line after the other.
  lemma ReadNext(e: Entry, lines: seq<string>, f: Entry)
    requires lines != [] && EntryField(e, lines[0]) == Some(f)
    ensures Read(e, lines) == Read(f, lines[1..])
  {
  }

  lemma EntryReads(e: Entry)
    ensures Read(Blank(e.service), EntryLines(e)) == Some(e.(endpoints := Split(Join(e.endpoints, ','), ',')))
  {
    var l, b := EntryLines(e), Blank(e.service);
    hide EntryField, Read, ToHex, Decimal, Signed, Join, Split, EntryLines;
    EntryLine(e);
    VersionField(b, e.version);
    var b1 := b.(version := e.version);
    ReadNext(b, l, b1);
    TextFields(b1, e.service);
    ReadNext(b1, l[1..], b1);
    TextFields(b1, e.address);
    var b3 := b1.(address := e.address);
    ReadNext(b1, l[2..], b3);
    KeyField(b3, e.pubkey);
    var b4 := b3.(pubkey := e.pubkey);
    ReadNext(b3, l[3..], b4);
    PidField(b4, e.pid);
    var b5 := b4.(pid := e.pid);
    ReadNext(b4, l[4..], b5);
    TextFields(b5, Join(e.endpoints, ','));
    var b6 := b5.(endpoints := Split(Join(e.endpoints, ','), ','));
    ReadNext(b5, l[5..], b6);
    TextFields(b6, e.description);
    var b7 := b6.(description := e.description);
    ReadNext(b6, l[6..], b7);
    ReadNone(b7);
  }

  lemma ReadNone(e: Entry)
    ensures Read(e, []) == Some(e)
  {
  }

  lemma EntryLine(e: Entry)
    ensures var l := EntryLines(e);
            && |l| == 7 && l[0] == "version=" + Decimal(e.version) && l[1] == "service=" + e.service
            && l[2] == "address=" + e.address && l[3] == "pubkey=" + ToHex(e.pubkey) && l[4] == "pid=" + Signed(e.pid)
            && l[5] == "endpoints=" + Join(e.endpoints, ',') && l[6] == "description=" + e.description
            && l[1..][1..] == l[2..] && l[2..][1..] == l[3..] && l[3..][1..] == l[4..] && l[4..][1..] == l[5..]
            && l[5..][1..] == l[6..] && l[6..][1..] == []
  {
  }

  lemma EntryLinesOneLine(e: Entry)
    requires OneLine(e.service) && OneLine(e.address) && OneLine(e.description) && OneLine(Join(e.endpoints, ','))
    ensures forall k :: 0 <= k < |EntryLines(e)| ==> OneLine(EntryLines(e)[k])
  {
    Authorization.HexPlain(e.pubkey);
    SignedOneLine(e.version);
    SignedOneLine(e.pid);
    hide ToHex, Decimal, Signed, Join;
  }

  lemma {:induction false} JoinOneLine(v: seq<string>)
    ensures OneLine(Join(v, ',')) <==> forall k :: 0 <= k < |v| ==> OneLine(v[k])
  {
    if |v| > 1 {
      JoinOneLine(v[1..]);
      var j, rest := Join(v, ','), Join(v[1..], ',');
      assert j == v[0] + "," + rest;
      if OneLine(j) {
        forall i | 0 <= i < |v[0]| ensures v[0][i] != '\n' { assert j[i] == v[0][i]; }
        forall i | 0 <= i < |rest| ensures rest[i] != '\n' { assert j[|v[0]| + 1 + i] == rest[i]; }
        forall k | 0 <= k < |v| ensures OneLine(v[k]) { if k > 0 { assert v[k] == v[1..][k - 1]; } }
      } else if forall k :: 0 <= k < |v| ==> OneLine(v[k]) {
        forall k | 0 <= k < |v[1..]| ensures OneLine(v[1..][k]) {}
      }
    }
  }

  // Everything read from a file is from one of its lines.
  ghost predicate FromLines(e: Entry) {
    OneLine(e.address) && OneLine(e.description) && forall k :: 0 <= k < |e.endpoints| ==> OneLine(e.endpoints[k]) && Item(e.endpoints[k], ',')
  }

  lemma SplitFromLine(s: string)
    requires OneLine(s)
    ensures forall k :: 0 <= k < |Split(s, ',')| ==> OneLine(Split(s, ',')[k]) && Item(Split(s, ',')[k], ',')
  {
    PiecesOneLine(s);
  }

  lemma {:induction false} PiecesOneLine(s: string)
    requires OneLine(s)
    ensures forall k :: 0 <= k < |Pieces(s, ',')| ==> OneLine(Pieces(s, ',')[k])
    decreases |s|
  {
    if s != "" { PiecesOneLine(Tail(s, ',')); }
  }

  lemma {:induction false} ReadFromLines(e: Entry, lines: seq<string>)
    requires FromLines(e) && forall k :: 0 <= k < |lines| ==> OneLine(lines[k])
    ensures Read(e, lines).Some? ==> FromLines(Read(e, lines).value) && Read(e, lines).value.service == e.service
    decreases |lines|
  {
    if lines != [] {
      var line := lines[0];
      var eq := Find(line, '=', 0);
      if eq < |line| { SplitFromLine(line[eq + 1..]); }
      var f := EntryField(e, line);
      hide Split;
      if f.Some? {
        assert FromLines(f.value);
        ReadFromLines(f.value, lines[1..]);
      }
    }
  }

  // ---- what a file says ------------------------------------------------------

  // The three fields that may fail to read.
  predicate LineReads(line: string) {
    match Assignment(line)
    case None => true
    case Some((key, val)) =>
      && (key == "version" ==> Stoi(val).Some?) && (key == "pid" ==> Stol(val).Some?)
      && (key == "pubkey" ==> Credentials.Key(val).Some?)
  }

  predicate AllRead(lines: seq<string>) {
    forall k :: 0 <= k < |lines| ==> LineReads(lines[k])
  }

  // A field is what its last line says, or what it was.
  function LastText(lines: seq<string>, key: string, was: string): string {
    match LastOf(lines, key) case Some(v) => v case None => was
  }

  function LastRead<T>(lines: seq<string>, key: string, read: string -> Option<T>, was: Option<T>): Option<T> {
    match LastOf(lines, key) case Some(v) => read(v) case None => was
  }

  function VersionOf(s: string): Option<byte> {
    match Stoi(s) case Some(n) => Some(Low(n)) case None => None
  }

  // This entry is what the lines make of the other one.
  predicate Says(e: Entry, lines: seq<string>, g: Entry) {
    && g.service == e.service
    && g.address == LastText(lines, "address", e.address) && g.description == LastText(lines, "description", e.description)
    && Some(g.version) == LastRead(lines, "version", VersionOf, Some(e.version))
    && Some(g.pid) == LastRead(lines, "pid", Stol, Some(e.pid))
    && Some(g.pubkey) == LastRead(lines, "pubkey", Credentials.Key, Some(e.pubkey))
    && g.endpoints == (match LastOf(lines, "endpoints") case Some(v) => Split(v, ',') case None => e.endpoints)
  }

  lemma SaysOnce(e: Entry, lines: seq<string>)
    requires lines != [] && EntryField(e, lines[0]).Some?
    ensures Says(e, lines[..1], EntryField(e, lines[0]).value)
  {
    hide Assignment, LastOf, Stoi, Stol, Credentials.Key, Split, Low;
    LastOfOne(lines, "address");
    LastOfOne(lines, "description");
    LastOfOne(lines, "version");
    LastOfOne(lines, "pid");
    LastOfOne(lines, "pubkey");
    LastOfOne(lines, "endpoints");
  }

  lemma SaysNext(e: Entry, lines: seq<string>, f: Entry, g: Entry)
    requires lines != [] && Says(e, lines[..1], f) && Says(f, lines[1..], g)
    ensures Says(e, lines, g)
  {
    hide LastOf, Stoi, Stol, Credentials.Key, Split, Low;
    LastOfFirst(lines, "address");
    LastOfFirst(lines, "description");
    LastOfFirst(lines, "version");
    LastOfFirst(lines, "pid");
    LastOfFirst(lines, "pubkey");
    LastOfFirst(lines, "endpoints");
  }

  lemma {:induction false} EntryIsLast(e: Entry, lines: seq<string>)
    ensures Read(e, lines).Some? <==> AllRead(lines)
    ensures Read(e, lines).Some? ==> Says(e, lines, Read(e, lines).value)
    decreases |lines|
  {
    if lines != [] {
      AllNext(e, lines);
      if EntryField(e, lines[0]).Some? {
        var f := EntryField(e, lines[0]).value;
        EntryIsLast(f, lines[1..]);
        SaysOnce(e, lines);
        hide EntryField, Says, AllRead;
        if Read(e, lines).Some? { SaysNext(e, lines, f, Read(e, lines).value); }
      }
    }
  }

  lemma AllNext(e: Entry, lines: seq<string>)
    requires lines != []
    ensures AllRead(lines) <==> EntryField(e, lines[0]).Some? && AllRead(lines[1..])
  {
    hide Assignment, Stoi, Stol, Credentials.Key, Split, Low;
    assert EntryField(e, lines[0]).Some? <==> LineReads(lines[0]);
    hide EntryField, LineReads;
    if AllRead(lines[1..]) {
      forall k | 0 < k < |lines| ensures lines[k] == lines[1..][k - 1] {}
    }
  }

  // The process that the last line names.
  predicate Lives(lines: seq<string>, alive: int -> bool) {
    match LastOf(lines, "pid")
    case None => false
    case Some(v) => Stol(v).Some? && Stol(v).value > 0 && alive(Stol(v).value)
  }

  /**
    What a file says. A look-up finds an entry if and only if every version, process id and key in the
    file reads, and the last process id lives; every field is that of its last line, the version 1, the
    key zero and the rest empty when there is none.
  */
  lemma LookupIff(service: string, text: string, alive: int -> bool)
    ensures var lines, r := Lines(text), Lookup(service, Some(text), alive);
            && (r.Some? <==> AllRead(lines) && Lives(lines, alive))
            && (r.Some? ==> Says(Entry(1, service, "", Zeros(32), 0, [], ""), lines, r.value))
  {
    EntryIsLast(Blank(service), Lines(text));
    hide Read, LastOf, Stol, AllRead, Lines;
  }

  /** Numbers are read as `stoi` and `stol` read them: what their type cannot hold is refused. */
  lemma StoiIff(n: int)
    ensures Stoi(Signed(n)) == if -0x8000_0000 <= n < 0x8000_0000 then Some(n) else None
    ensures Stol(Signed(n)) == if -0x8000_0000_0000_0000 <= n < 0x8000_0000_0000_0000 then Some(n) else None
  {
    hide Number, Signed;
    NumberOfSigned(n);
  }

  /**
    A published entry is recovered by a lookup if and only if its process is alive, its address and
    description have no newline, and no endpoint is empty or contains a comma or a newline.
  */
  lemma LookupRecoversIff(e: Entry, alive: int -> bool)
    requires OneLine(e.service)
    ensures Lookup(e.service, Some(Publish(e)), alive) == Some(e) <==>
            e.pid > 0 && alive(e.pid) && FromLines(e)
  {
    var r := Lookup(e.service, Some(Publish(e)), alive);
    ReadFromLines(Blank(e.service), Lines(Publish(e)));
    if FromLines(e) {
      JoinOneLine(e.endpoints);
      EntryLinesOneLine(e);
      PublishedLines(e);
      EntryReads(e);
      SplitJoinIff(e.endpoints, ',');
    }
    hide Read, Publish, EntryLines, Join, Split;
  }

  lemma PublishedLines(e: Entry)
    requires forall k :: 0 <= k < |EntryLines(e)| ==> OneLine(EntryLines(e)[k])
    ensures Lines(Publish(e)) == EntryLines(e)
  {
    hide EntryLines, Ended, Pieces;
    ReadBack(EntryLines(e), '\n', "");
    NoLines();
    assert Publish(e) + "" == Publish(e) && EntryLines(e) + [] == EntryLines(e);
  }

  // ---- describing a service --------------------------------------------------

  function KindName(k: Kind): (s: string)
    ensures Without(s, ':') && Without(s, ',') && OneLine(s)
  {
    match k
    case Receive => "receive"
    case Send => "send"
    case StreamReceive => "stream_receive"
    case StreamSend => "stream_send"
    case Topic => "topic"
  }

  // The last c in s, or |s|.
  function FindLast(s: string, c: char): (i: nat)
    ensures i <= |s| && (i < |s| ==> s[i] == c) && forall k :: (if i == |s| then 0 else i + 1) <= k < |s| ==> s[k] != c
  {
    if s == "" then 0
    else if s[|s| - 1] == c then |s| - 1
    else
      var i := FindLast(s[..|s| - 1], c);
      if i == |s| - 1 then |s| else i
  }

  lemma FindLastIs(s: string, c: char, i: nat)
    requires i < |s| && s[i] == c && forall k :: i < k < |s| ==> s[k] != c
    ensures FindLast(s, c) == i
  {
  }

  datatype Endpoint = Endpoint(name: string, kind: Kind)

  datatype Description = Description(service: string, description: string, pid: Long, pubkey: Bytes32, endpoints: seq<Endpoint>)

  // An unknown kind leaves the default.
  function KindOf(s: string): Kind {
    if s == "receive" then Receive
    else if s == "send" then Send
    else if s == "stream_receive" then StreamReceive
    else if s == "stream_send" then StreamSend
    else if s == "topic" then Topic
    else Receive
  }

  function EndpointOf(ep: string): Endpoint {
    var colon := FindLast(ep, ':');
    if colon == |ep| then Endpoint(ep, Receive) else Endpoint(ep[..colon], KindOf(ep[colon + 1..]))
  }

  function EndpointsOf(eps: seq<string>): seq<Endpoint> {
    seq(|eps|, i requires 0 <= i < |eps| => EndpointOf(eps[i]))
  }

  function Describe(service: string, file: Option<string>, alive: int -> bool): Option<Description> {
    match Lookup(service, file, alive)
    case None => None
    case Some(e) => Some(Description(e.service, e.description, e.pid, e.pubkey, EndpointsOf(e.endpoints)))
  }

  // How the host lists what it exposes.
  function Listing(endpoints: seq<Endpoint>): seq<string> {
    seq(|endpoints|, i requires 0 <= i < |endpoints| => endpoints[i].name + ":" + KindName(endpoints[i].kind))
  }

  function HostEntry(d: Description, address: string): Entry {
    Entry(1, d.service, address, d.pubkey, d.pid, Listing(d.endpoints), d.description)
  }

  lemma EndpointRead(e: Endpoint)
    ensures EndpointOf(e.name + ":" + KindName(e.kind)) == e
  {
    var kind := KindName(e.kind);
    var s := e.name + ":" + kind;
    assert KindOf(kind) == e.kind;
    hide KindName, KindOf;
    var i := |e.name|;
    assert forall k :: i < k < |s| ==> s[k] == kind[k - i - 1];
    FindLastIs(s, ':', i);
    assert s[..i] == e.name && s[i + 1..] == kind;
  }

  predicate GoodName(s: string) {
    Without(s, ',') && OneLine(s)
  }

  lemma ListingGood(endpoints: seq<Endpoint>, k: nat)
    requires k < |endpoints|
    ensures OneLine(Listing(endpoints)[k]) && Item(Listing(endpoints)[k], ',') <==> GoodName(endpoints[k].name)
  {
    var name, kind := endpoints[k].name, KindName(endpoints[k].kind);
    hide KindName;
    var s := name + ":" + kind;
    assert Listing(endpoints)[k] == s;
    forall i | 0 <= i < |name| ensures s[i] == name[i] {}
  }

  lemma ListingRead(endpoints: seq<Endpoint>)
    ensures EndpointsOf(Listing(endpoints)) == endpoints
  {
    hide KindName, KindOf, EndpointOf;
    forall i | 0 <= i < |endpoints| ensures EndpointsOf(Listing(endpoints))[i] == endpoints[i] {
      EndpointRead(endpoints[i]);
    }
  }

  // What is described comes from a line, so no name has a comma or a newline.
  lemma DescribedNames(service: string, text: string, alive: int -> bool)
    ensures var d := Describe(service, Some(text), alive);
            d.Some? ==> OneLine(d.value.description) && forall k :: 0 <= k < |d.value.endpoints| ==> GoodName(d.value.endpoints[k].name)
  {
    ReadFromLines(Blank(service), Lines(text));
    var d := Describe(service, Some(text), alive);
    if d.Some? {
      var eps := Lookup(service, Some(text), alive).value.endpoints;
      hide Read, Lookup;
      forall k | 0 <= k < |eps| ensures GoodName(d.value.endpoints[k].name) {
        assert OneLine(eps[k]) && Item(eps[k], ',');
        assert d.value.endpoints[k] == EndpointOf(eps[k]);
      }
    }
  }

  /**
    A running host describes itself as it is if and only if its description has no newline and no
    endpoint name a comma or a newline; colons in names do no harm.
  */
  lemma DescribeRecoversIff(d: Description, address: string, alive: int -> bool)
    requires OneLine(d.service) && OneLine(address) && d.pid > 0 && alive(d.pid)
    ensures Describe(d.service, Some(Publish(HostEntry(d, address))), alive) == Some(d) <==>
            OneLine(d.description) && forall k :: 0 <= k < |d.endpoints| ==> GoodName(d.endpoints[k].name)
  {
    var e := HostEntry(d, address);
    DescribedNames(d.service, Publish(e), alive);
    if OneLine(d.description) && forall k :: 0 <= k < |d.endpoints| ==> GoodName(d.endpoints[k].name) {
      forall k | 0 <= k < |e.endpoints| ensures OneLine(e.endpoints[k]) && Item(e.endpoints[k], ',') {
        ListingGood(d.endpoints, k);
      }
      hide Item, OneLine, GoodName, Publish, Lookup, Listing;
      LookupRecoversIff(e, alive);
      ListingRead(d.endpoints);
    }
  }

  // ---- the code --------------------------------------------------------------

  method JoinLoop(v: seq<string>, sep: char) returns (out: string)
    ensures out == Join(v, sep)
  {
    out := "";
    for i := 0 to |v|
      invariant Join(v, sep) == out + (if 0 < i < |v| then [sep] else "") + Join(v[i..], sep)
    {
      if i > 0 { out := out + [sep]; }
      out := out + v[i];
      assert v[i..][0] == v[i] && v[i..][1..] == v[i + 1..];
    }
    assert v[|v|..] == [];
  }

  method SplitLoop(s: string, sep: char) returns (out: seq<string>)
    ensures out == Split(s, sep)
  {
    out := [];
    var rest := s;
    while rest != ""
      invariant out + Split(rest, sep) == Split(s, sep)
      decreases |rest|
    {
      var item := Head(rest, sep);
      assert Pieces(rest, sep)[0] == item && Pieces(rest, sep)[1..] == Pieces(Tail(rest, sep), sep);
      if item != "" { out := out + [item]; }
      rest := Tail(rest, sep);
    }
  }

  method LookupEntry(service: string, file: Option<string>, alive: int -> bool) returns (r: Option<Entry>)
    ensures r == Lookup(service, file, alive)
  {
    if file == None { return None; }
    var rest := file.value;
    var e := Blank(service);
    while rest != ""
      invariant Read(e, Lines(rest)) == Read(Blank(service), Lines(file.value))
      decreases |rest|
    {
      var line := Head(rest, '\n');
      assert Lines(rest)[0] == line && Lines(rest)[1..] == Lines(Tail(rest, '\n'));
      rest := Tail(rest, '\n');
      var eq := Find(line, '=', 0);
      if eq == |line| { continue; }
      var f := SetEntry(e, line[..eq], line[eq + 1..]);
      if f == None { return None; }
      e := f.value;
    }
    NoLines();
    if e.pid <= 0 || !alive(e.pid) { return None; }
    return Some(e);
  }
}
