/** Lines, numbers and separators of the text files. A char stands for a byte of the file. */
module Text {
  import opened Options

  // The first c at or after `from`, or |s|.
  function Find(s: string, c: char, from: nat): (i: nat)
    requires from <= |s|
    ensures from <= i <= |s| && (i < |s| ==> s[i] == c)
    ensures forall k :: from <= k < i ==> s[k] != c
    decreases |s| - from
  {
    if from == |s| || s[from] == c then from else Find(s, c, from + 1)
  }

  lemma FindIs(s: string, c: char, from: nat, i: nat)
    requires from <= i <= |s| && (i < |s| ==> s[i] == c) && forall k :: from <= k < i ==> s[k] != c
    ensures Find(s, c, from) == i
  {
  }

  predicate Without(s: string, c: char) {
    forall i :: 0 <= i < |s| ==> s[i] != c
  }

  predicate OneLine(s: string) {
    Without(s, '\n')
  }

  // `std::getline` on a non-empty rest, with any separator.
  function Head(s: string, sep: char): string {
    s[..Find(s, sep, 0)]
  }

  function Tail(s: string, sep: char): (r: string)
    ensures s != "" ==> |r| < |s|
  {
    var i := Find(s, sep, 0);
    if i == |s| then "" else s[i + 1..]
  }

  // What repeated getline calls return: no empty piece after a final separator.
  function Pieces(s: string, sep: char): (r: seq<string>)
    ensures forall k :: 0 <= k < |r| ==> Without(r[k], sep)
    decreases |s|
  {
    if s == "" then [] else [Head(s, sep)] + Pieces(Tail(s, sep), sep)
  }

  function Lines(s: string): (r: seq<string>)
    ensures forall k :: 0 <= k < |r| ==> OneLine(r[k])
  {
    Pieces(s, '\n')
  }

  // Every piece is followed by the separator.
  function Ended(pieces: seq<string>, sep: char): string {
    if pieces == [] then "" else pieces[0] + [sep] + Ended(pieces[1..], sep)
  }

  lemma FirstPiece(s: string, sep: char, rest: string)
    requires Without(s, sep)
    ensures Head(s + [sep] + rest, sep) == s && Tail(s + [sep] + rest, sep) == rest
    ensures Pieces(s + [sep] + rest, sep) == [s] + Pieces(rest, sep)
  {
    var t := s + [sep] + rest;
    FindIs(t, sep, 0, |s|);
    assert t[..|s|] == s && t[|s| + 1..] == rest;
  }

  // Pieces written one after the other are read back, with whatever follows.
  lemma {:induction false} ReadBack(pieces: seq<string>, sep: char, rest: string)
    requires forall k :: 0 <= k < |pieces| ==> Without(pieces[k], sep)
    ensures Pieces(Ended(pieces, sep) + rest, sep) == pieces + Pieces(rest, sep)
  {
    hide Pieces;
    if pieces == [] {
      assert Ended(pieces, sep) + rest == rest;
      assert pieces + Pieces(rest, sep) == Pieces(rest, sep);
    } else {
      var more := Ended(pieces[1..], sep) + rest;
      ReadBack(pieces[1..], sep, rest);
      FirstPiece(pieces[0], sep, more);
      assert Ended(pieces, sep) + rest == pieces[0] + [sep] + more;
      assert [pieces[0]] + (pieces[1..] + Pieces(rest, sep)) == pieces + Pieces(rest, sep);
    }
  }

  predicate Terminated(s: string) {
    s == "" || s[|s| - 1] == '\n'
  }

  lemma NoLines()
    ensures Lines("") == []
  {
  }

  // Appending to a file of complete lines appends lines.
  lemma {:induction false} LinesAppend(s: string, more: string)
    requires Terminated(s)
    ensures Lines(s + more) == Lines(s) + Lines(more)
    decreases |s|
  {
    hide Pieces;
    if s == "" {
      assert s + more == more;
      NoLines();
    } else {
      var i := Find(s, '\n', 0);
      assert i < |s|;
      var line, rest := s[..i], s[i + 1..];
      LinesAppend(rest, more);
      FirstPiece(line, '\n', rest);
      FirstPiece(line, '\n', rest + more);
      assert s == line + "\n" + rest && s + more == line + "\n" + (rest + more);
      assert [line] + (Lines(rest) + Lines(more)) == [line] + Lines(rest) + Lines(more);
    }
  }

  // ---- lines of a key and a value --------------------------------------------

  // A line up to its first '=', and what is after it.
  function Assignment(line: string): Option<(string, string)> {
    var eq := Find(line, '=', 0);
    if eq == |line| then None else Some((line[..eq], line[eq + 1..]))
  }

  lemma AssignmentRead(key: string, val: string)
    requires Without(key, '=')
    ensures Assignment(key + ("=" + val)) == Some((key, val))
  {
    var line := key + ("=" + val);
    FindIs(line, '=', 0, |key|);
    assert line[..|key|] == key && line[|key| + 1..] == val;
  }

  // What the last line with this key assigns.
  function LastOf(lines: seq<string>, key: string): Option<string> {
    if lines == [] then None else
    var n := |lines| - 1;
    match Assignment(lines[n])
    case Some((k, val)) => if k == key then Some(val) else LastOf(lines[..n], key)
    case None => LastOf(lines[..n], key)
  }

  lemma {:induction false} LastOfFirst(lines: seq<string>, key: string)
    requires lines != []
    ensures LastOf(lines, key) == if LastOf(lines[1..], key).Some? then LastOf(lines[1..], key) else LastOf(lines[..1], key)
  {
    hide Assignment;
    var n := |lines| - 1;
    if n > 0 {
      LastOfFirst(lines[..n], key);
      assert lines[..n][1..] == lines[1..][..n - 1] && lines[..n][..1] == lines[..1];
    } else {
      assert lines[1..] == [] && lines[..1] == lines;
    }
  }

  lemma LastOfOne(lines: seq<string>, key: string)
    requires lines != []
    ensures LastOf(lines[..1], key) == match Assignment(lines[0]) case Some((k, val)) => if k == key then Some(val) else None case None => None
  {
    hide Assignment;
    assert lines[..1][..0] == [] && LastOf([], key) == None;
  }

  // ---- numbers ---------------------------------------------------------------

  predicate IsDigit(c: char) {
    '0' <= c <= '9'
  }

  function Digit(n: nat): (c: char)
    requires n < 10
    ensures IsDigit(c) && c as int - '0' as int == n
  {
    '0' + n as char
  }

  // How a stream prints an unsigned number.
  function Decimal(n: nat): (s: string)
    ensures s != "" && forall i :: 0 <= i < |s| ==> IsDigit(s[i])
  {
    if n < 10 then [Digit(n)] else Decimal(n / 10) + [Digit(n % 10)]
  }

  function Signed(n: int): string {
    if n < 0 then "-" + Decimal(-n) else Decimal(n)
  }

  // The leading digits of s, or all of it.
  function DigitsEnd(s: string, from: nat): (i: nat)
    requires from <= |s|
    ensures from <= i <= |s| && (forall k :: from <= k < i ==> IsDigit(s[k])) && (i < |s| ==> !IsDigit(s[i]))
    decreases |s| - from
  {
    if from == |s| || !IsDigit(s[from]) then from else DigitsEnd(s, from + 1)
  }

  function Value(s: string): nat
    requires forall i :: 0 <= i < |s| ==> IsDigit(s[i])
  {
    if s == "" then 0 else
    assert IsDigit(s[|s| - 1]);
    10 * Value(s[..|s| - 1]) + (s[|s| - 1] as int - '0' as int)
  }

  function SkipSpace(s: string): string {
    if s != "" && s[0] in " \t\n\U{0B}\U{0C}\r" then SkipSpace(s[1..]) else s
  }

  // What `strtol` reads: space, a sign, digits, and anything after; None when there is no digit.
  function Number(text: string): Option<int> {
    var s := SkipSpace(text);
    var minus := s != "" && s[0] == '-';
    var t := if s != "" && (s[0] == '-' || s[0] == '+') then s[1..] else s;
    var n := DigitsEnd(t, 0);
    if n == 0 then None else
    var v: int := Value(t[..n]);
    Some(if minus then -v else v)
  }

  lemma {:induction false} ValueOfDecimal(n: nat)
    ensures Value(Decimal(n)) == n
  {
    if n < 10 {
      assert Decimal(n)[..0] == "";
    } else {
      ValueOfDecimal(n / 10);
      assert Decimal(n)[..|Decimal(n)| - 1] == Decimal(n / 10);
    }
  }

  lemma {:induction false} AllDigits(s: string, from: nat)
    requires from <= |s| && forall i :: 0 <= i < |s| ==> IsDigit(s[i])
    ensures DigitsEnd(s, from) == |s|
    decreases |s| - from
  {
    if from < |s| { AllDigits(s, from + 1); }
  }

  predicate Digits(d: string) {
    d != "" && forall i :: 0 <= i < |d| ==> IsDigit(d[i])
  }

  lemma NumberOfDigits(d: string)
    requires Digits(d)
    ensures Number(d) == Some(Value(d) as int)
  {
    AllDigits(d, 0);
    hide DigitsEnd, Value;
    assert IsDigit(d[0]) && SkipSpace(d) == d;
    assert d[..|d|] == d;
  }

  lemma NumberOfMinus(d: string)
    requires Digits(d)
    ensures Number("-" + d) == Some(-(Value(d) as int))
  {
    AllDigits(d, 0);
    hide DigitsEnd, Value;
    var s := "-" + d;
    assert s[0] == '-' && SkipSpace(s) == s;
    assert s[1..] == d && d[..|d|] == d;
  }

  lemma NumberOfDecimal(n: int)
    requires n >= 0
    ensures Number(Decimal(n)) == Some(n) && Number("-" + Decimal(n)) == Some(-n)
  {
    hide Decimal, Value, Number;
    ValueOfDecimal(n);
    NumberOfDigits(Decimal(n));
    NumberOfMinus(Decimal(n));
  }

  lemma NumberOfSigned(n: int)
    ensures Number(Signed(n)) == Some(n)
  {
    NumberOfDecimal(if n < 0 then -n else n);
  }

  lemma SignedOneLine(n: int)
    ensures OneLine(Signed(n))
  {
  }
}
