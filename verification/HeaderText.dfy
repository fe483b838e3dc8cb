/**
 The header text on the wire: what headers::format prints can be read back by cutting at
 CRLF and at the first ": ", and the preamble of a chunked response announces exactly one
 Transfer-Encoding and no Content-Length (section 6.2 of RFC 9112).
 */
module HeaderText {
  import opened Texts
  import opened Wrappers
  import opened HeaderTable

  /** The characters a, b stand next to each other at i. */
  predicate At(s: string, i: int, a: char, b: char) {
    0 <= i && i + 1 < |s| && s[i] == a && s[i + 1] == b
  }

  ghost predicate Absent(s: string, a: char, b: char) {
    forall i :: !At(s, i, a, b)
  }

  /** The first place where the characters a, b stand next to each other. */
  function IndexOf(s: string, a: char, b: char): (r: Option<nat>)
    ensures r.None? <==> Absent(s, a, b)
    ensures r.Some? ==> At(s, r.value, a, b) && forall i | i < r.value :: !At(s, i, a, b)
  {
    if |s| < 2 then None
    else if At(s, 0, a, b) then Some(0)
    else
      assert forall i | i != 0 :: At(s, i, a, b) <==> At(s[1..], i - 1, a, b);
      match IndexOf(s[1..], a, b)
      case None => None
      case Some(i) => assert At(s, i + 1, a, b); Some(i + 1)
  }

  /** Splits a line at its first ": ". */
  function SplitLine(line: string): (r: Option<Entry>)
    ensures r.Some? ==> Line(r.value) == line
  {
    match IndexOf(line, ':', ' ')
    case None => None
    case Some(i) =>
      assert line == line[..i] + ": " + line[i + 2..];
      Some(Entry(line[..i], line[i + 2..]))
  }

  function Prepend(e: Entry, r: Option<(seq<Entry>, string)>): Option<(seq<Entry>, string)> {
    match r
    case None => None
    case Some((es, rest)) => Some(([e] + es, rest))
  }

  /** Field lines up to an empty line or the end, and what follows. */
  function ReadFields(s: string): Option<(seq<Entry>, string)>
    decreases |s|
  {
    if s == "" then Some(([], ""))
    else
      match IndexOf(s, '\r', '\n')
      case None => None
      case Some(0) => Some(([], s[2..]))
      case Some(i) =>
        match SplitLine(s[..i])
        case None => None
        case Some(e) =>
          Prepend(e, ReadFields(s[i + 2..]))
  }

  /** Neither part can be mistaken for a separator. */
  ghost predicate Clean(e: Entry) {
    Absent(e.name, ':', ' ') && Absent(e.name, '\r', '\n') && Absent(e.value, '\r', '\n')
  }

  lemma {:induction false} LinesFromTheFront(e: Entry, es: seq<Entry>)
    ensures FormatLines([e] + es) == Row(e) + FormatLines(es)
  {
    if es == [] {
      assert [e] + es == [e] && [e][..0] == [];
      assert FormatLines([e]) == FormatLines([]) + Row(e);
    } else {
      var n := |es| - 1;
      LinesFromTheFront(e, es[..n]);
      assert ([e] + es)[..n + 1] == [e] + es[..n];
      Assoc(Row(e), FormatLines(es[..n]), Row(es[n]));
    }
  }

  /** A text is first cut at the line end that was written there, unless an earlier one sneaked in. */
  lemma FirstCut(s: string, l: string, tail: string)
    requires s == l + CRLF + tail
    ensures s[..|l|] == l && s[|l| + 2..] == tail
    ensures IndexOf(s, '\r', '\n').Some? && IndexOf(s, '\r', '\n').value <= |l|
    ensures IndexOf(s, '\r', '\n') == Some(|l|) <==> Absent(l, '\r', '\n')
  {
    assert s[|l|] == '\r' && s[|l| + 1] == '\n';
    assert At(s, |l|, '\r', '\n');
    assert forall i | i < |l| :: At(s, i, '\r', '\n') <==> At(l, i, '\r', '\n');
  }

  /** How neighbours in a line relate to neighbours in its name and value. */
  lemma LineNeighbours(e: Entry, i: int, a: char, b: char)
    requires (a, b) == (':', ' ') || (a, b) == ('\r', '\n')
    ensures i < |e.name| ==> (At(Line(e), i, a, b) <==> At(e.name, i, a, b))
    ensures i >= |e.name| + 2 ==> (At(Line(e), i, a, b) <==> At(e.value, i - |e.name| - 2, a, b))
    ensures |e.name| <= i < |e.name| + 2 ==> (At(Line(e), i, a, b) <==> a == ':' && i == |e.name|)
  {
    var l, n := Line(e), |e.name|;
    assert |l| == n + 2 + |e.value| && l[n] == ':' && l[n + 1] == ' ';
    assert 0 <= i < n ==> l[i] == e.name[i];
    assert 0 <= i + 1 < n ==> l[i + 1] == e.name[i + 1];
    assert n + 2 <= i < |l| ==> l[i] == e.value[i - n - 2];
    assert n + 2 <= i + 1 < |l| ==> l[i + 1] == e.value[i + 1 - n - 2];
  }

  lemma LineHasNoCut(e: Entry)
    ensures Absent(Line(e), '\r', '\n') <==> Absent(e.name, '\r', '\n') && Absent(e.value, '\r', '\n')
  {
    var l, n := Line(e), |e.name|;
    if Absent(l, '\r', '\n') {
      forall i ensures !At(e.name, i, '\r', '\n') {
        LineNeighbours(e, i, '\r', '\n');
        assert !At(l, i, '\r', '\n');
      }
      forall i ensures !At(e.value, i, '\r', '\n') {
        LineNeighbours(e, i + n + 2, '\r', '\n');
        assert !At(l, i + n + 2, '\r', '\n');
      }
    } else {
      var i :| At(l, i, '\r', '\n');
      LineNeighbours(e, i, '\r', '\n');
    }
  }

  lemma LineSplitsBack(e: Entry)
    ensures SplitLine(Line(e)) == Some(e) <==> Absent(e.name, ':', ' ')
  {
    var l, n := Line(e), |e.name|;
    assert l[..n] == e.name && l[n + 2..] == e.value;
    forall i { LineNeighbours(e, i, ':', ' '); }
    assert At(l, n, ':', ' ');
  }

  /** A clean entry's row reads back exactly. */
  lemma FirstRow(e: Entry, tail: string)
    requires Clean(e)
    ensures ReadFields(Row(e) + tail) == Prepend(e, ReadFields(tail))
  {
    var s, l := Row(e) + tail, Line(e);
    FirstCut(s, l, tail);
    LineHasNoCut(e);
    LineSplitsBack(e);
    assert |l| > 0;
  }

  /** Another entry's row never does. */
  lemma FirstRowMisread(e: Entry, tail: string, es: seq<Entry>, rest: string)
    requires !Clean(e)
    ensures ReadFields(Row(e) + tail) != Some(([e] + es, rest))
  {
    var s := Row(e) + tail;
    FirstCut(s, Line(e), tail);
    FirstEntryDiffers(e, s, IndexOf(s, '\r', '\n').value);
    NotThisFirst(e, s, es, rest);
  }

  lemma FirstEntryDiffers(e: Entry, s: string, i: nat)
    requires !Clean(e) && i <= |Line(e)| <= |s| && s[..|Line(e)|] == Line(e)
    requires i == |Line(e)| <==> Absent(Line(e), '\r', '\n')
    ensures SplitLine(s[..i]) != Some(e)
  {
    LineHasNoCut(e);
    LineSplitsBack(e);
    assert |s[..i]| == i;
  }

  lemma NotThisFirst(e: Entry, s: string, es: seq<Entry>, rest: string)
    requires var i := IndexOf(s, '\r', '\n'); i.Some? && SplitLine(s[..i.value]) != Some(e)
    ensures ReadFields(s) != Some(([e] + es, rest))
  {
    if ReadFields(s).Some? {
      assert ReadFields(s).value.0 != [] ==> ReadFields(s).value.0[0] != e;
      assert ([e] + es)[0] == e;
    }
  }

  /** Reading stops at the empty line and gives back exactly the entries that were printed. */
  lemma {:induction false} CleanFieldsReadBack(es: seq<Entry>, rest: string)
    requires forall e <- es :: Clean(e)
    ensures ReadFields(FormatLines(es) + (CRLF + rest)) == Some((es, rest))
  {
    if es == [] {
      var s := FormatLines(es) + (CRLF + rest);
      assert s[0] == '\r' && s[1] == '\n' && s[2..] == rest;
    } else {
      assert [es[0]] + es[1..] == es;
      LinesFromTheFront(es[0], es[1..]);
      CleanFieldsReadBack(es[1..], rest);
      FirstRow(es[0], FormatLines(es[1..]) + (CRLF + rest));
      Assoc(Row(es[0]), FormatLines(es[1..]), CRLF + rest);
    }
  }

  /**
   The printed text is uniquely decodable if and only if no name holds ": " or CRLF and no
   value holds CRLF; in particular whenever names hold no colon, CR or LF and values no CR or LF.
   */
  lemma {:induction false} FormatReadsBackIffClean(es: seq<Entry>)
    ensures ReadFields(FormatLines(es)) == Some((es, "")) <==> forall e <- es :: Clean(e)
  {
    if es != [] {
      assert [es[0]] + es[1..] == es;
      LinesFromTheFront(es[0], es[1..]);
      FormatReadsBackIffClean(es[1..]);
      if Clean(es[0]) {
        FirstRow(es[0], FormatLines(es[1..]));
      } else {
        FirstRowMisread(es[0], FormatLines(es[1..]), es[1..], "");
      }
    }
  }

  predicate Plain(e: Entry) {
    ':' !in e.name && '\r' !in e.name && '\n' !in e.name && '\r' !in e.value && '\n' !in e.value
  }

  lemma PlainFieldsReadBack(es: seq<Entry>)
    requires forall e <- es :: Plain(e)
    ensures ReadFields(FormatLines(es)) == Some((es, ""))
  {
    FormatReadsBackIffClean(es);
  }

  // ---- the preamble of a chunked response ----

  /** The two updates both stream() functions make before printing. */
  function StreamFields(m: Fields, encoding: string): Fields {
    Apply(Apply(m, Update.Remove("Content-Length")), Update.Set("Transfer-Encoding", encoding))
  }

  function Decimal(n: int): string {
    if n < 0 then "-" + Digits(-n) else Digits(n)
  }

  function Digits(n: nat): (s: string)
    ensures forall c <- s :: '0' <= c <= '9'
  {
    if n < 10 then [("0123456789")[n]] else Digits(n / 10) + [("0123456789")[n % 10]]
  }

  function StatusLine(code: int, reason: string): string {
    "HTTP/1.1 " + Decimal(code) + " " + reason
  }

  function PreambleText(code: int, reason: string, es: seq<Entry>): (s: string)
    ensures s != ""
  {
    StatusLine(code, reason) + CRLF + (FormatText(es, false) + CRLF)
  }

  // ---- the recipient of a preamble ----

  function DecimalDigit(c: char): Option<nat> {
    if '0' <= c <= '9' then Some(c as nat - '0' as nat) else None
  }

  /** The value of a run of decimal digits; None for the empty text or any other character. */
  function ReadNat(s: string): Option<nat> {
    if s == "" then None
    else
      var init := if |s| == 1 then Some(0) else ReadNat(s[..|s| - 1]);
      match (init, DecimalDigit(s[|s| - 1]))
      case (Some(n), Some(d)) => Some(10 * n + d)
      case _ => None
  }

  function ReadInt(s: string): Option<int> {
    var negative := s != "" && s[0] == '-';
    match ReadNat(if negative then s[1..] else s)
    case None => None
    case Some(n) => Some(if negative then -(n as int) else n as int)
  }

  /** The text in front of the first space, and the text behind it. */
  function CutAtSpace(s: string): (string, string) {
    if s == "" then ("", "")
    else if s[0] == ' ' then ("", s[1..])
    else (s[..1] + CutAtSpace(s[1..]).0, CutAtSpace(s[1..]).1)
  }

  /** A response's head as its recipient has it, and the bytes after the empty line. */
  datatype Head = Head(version: string, code: int, reason: string, fields: seq<Entry>, body: string)

  /** A status line is cut at its first two spaces (section 4 of RFC 9112). */
  function ReadPreamble(s: string): Option<Head> {
    match IndexOf(s, '\r', '\n')
    case None => None
    case Some(i) =>
      var (version, rest) := CutAtSpace(s[..i]);
      var (digits, reason) := CutAtSpace(rest);
      match (ReadInt(digits), ReadFields(s[i + 2..]))
      case (Some(code), Some((es, body))) => Some(Head(version, code, reason, es, body))
      case _ => None
  }

  /** The digits printed for a number read back as it, and start with 0 for the number 0 alone. */
  lemma {:induction false} DigitsReadBack(n: nat)
    ensures ReadNat(Digits(n)) == Some(n)
    ensures Digits(n) != "" && (Digits(n)[0] == '0' <==> n == 0)
    ensures n == 0 ==> Digits(n) == "0"
  {
    if n >= 10 {
      DigitsReadBack(n / 10);
      assert Digits(n)[..|Digits(n)| - 1] == Digits(n / 10);
    }
  }

  lemma DecimalReadsBack(n: int)
    ensures ReadInt(Decimal(n)) == Some(n)
  {
    hide Digits, ReadNat;
    var m := if n < 0 then -n else n;
    DigitsReadBack(m);
    assert Digits(m)[0] in Digits(m);
    assert n < 0 ==> Decimal(n)[1..] == Digits(m);
  }

  lemma DecimalCharacters(n: int)
    ensures forall c <- Decimal(n) :: c == '-' || '0' <= c <= '9'
  {
  }

  lemma {:induction false} CutAt(head: string, tail: string)
    requires ' ' !in head
    ensures CutAtSpace(head + " " + tail) == (head, tail)
  {
    var s := head + " " + tail;
    if head == "" {
      assert s[1..] == tail;
    } else {
      assert s[0] == head[0] && s[1..] == head[1..] + " " + tail;
      CutAt(head[1..], tail);
      assert s[..1] == head[..1] && head[..1] + head[1..] == head;
    }
  }

  lemma StatusLineReadsBack(code: int, reason: string)
    ensures CutAtSpace(StatusLine(code, reason)) == ("HTTP/1.1", Decimal(code) + " " + reason)
    ensures CutAtSpace(Decimal(code) + " " + reason) == (Decimal(code), reason)
  {
    DecimalCharacters(code);
    CutAt("HTTP/1.1", Decimal(code) + " " + reason);
    CutAt(Decimal(code), reason);
    assert StatusLine(code, reason) == "HTTP/1.1" + " " + (Decimal(code) + " " + reason);
  }

  lemma StatusLineHasNoCut(code: int, reason: string)
    requires Absent(reason, '\r', '\n')
    ensures Absent(StatusLine(code, reason), '\r', '\n')
  {
    DecimalCharacters(code);
    var head := "HTTP/1.1 " + Decimal(code) + " ";
    assert forall i | 0 <= i < |Decimal(code)| :: Decimal(code)[i] in Decimal(code);
    NoCutAfterHead(head, reason);
  }

  lemma NoCutAfterHead(head: string, tail: string)
    requires forall i | 0 <= i < |head| :: head[i] != '\r'
    requires Absent(tail, '\r', '\n')
    ensures Absent(head + tail, '\r', '\n')
  {
    var s := head + tail;
    forall i ensures !At(s, i, '\r', '\n') {
      if 0 <= i < |head| {
        assert s[i] == head[i];
      } else {
        assert At(s, i, '\r', '\n') <==> At(tail, i - |head|, '\r', '\n');
      }
    }
  }

  lemma PreambleReadsBack(code: int, reason: string, es: seq<Entry>, body: string)
    requires es != [] && forall e <- es :: Clean(e)
    requires Absent(reason, '\r', '\n')
    ensures ReadPreamble(PreambleText(code, reason, es) + body) == Some(Head("HTTP/1.1", code, reason, es, body))
  {
    var l, f := StatusLine(code, reason), FormatLines(es);
    var s := PreambleText(code, reason, es) + body;
    assert s == l + CRLF + (f + (CRLF + body));
    StatusLineReadsBack(code, reason);
    StatusLineHasNoCut(code, reason);
    DecimalReadsBack(code);
    FirstCut(s, l, f + (CRLF + body));
    CleanFieldsReadBack(es, body);
  }

  /** Exactly one Transfer-Encoding, with that value. */
  ghost predicate AnnouncesOnce(es: seq<Entry>, encoding: string) {
    exists i :: 0 <= i < |es| && es[i].value == encoding &&
                forall j | 0 <= j < |es| :: SameName(es[j].name, "Transfer-Encoding") <==> j == i
  }

  /**
   Whatever was set or removed before, in any casing, a stream's headers hold no Content-Length,
   exactly one Transfer-Encoding with the requested value, and every other field as last set.
   */
  lemma StreamHeaders(us: seq<Update>, encoding: string, es: seq<Entry>)
    requires Enumerates(es, StreamFields(Replay(us), encoding))
    ensures AnnouncesOnce(es, encoding) && forall e <- es :: !SameName(e.name, "Content-Length")
    ensures forall name :: !SameName(name, "Content-Length") && !SameName(name, "Transfer-Encoding") ==>
              Lookup(StreamFields(Replay(us), encoding), name) == LastSet(us, name)
  {
    ReplayIsFolded(us);
    StreamFieldsMeaning(Replay(us), encoding);
    var m := StreamFields(Replay(us), encoding);
    var te := Lower("Transfer-Encoding");
    assert m[te] in es;
    var i :| 0 <= i < |es| && es[i] == m[te];
    forall j | 0 <= j < |es| ensures SameName(es[j].name, "Transfer-Encoding") <==> j == i {
      EqualIffSameName(es[j].name, "Transfer-Encoding");
      assert es[j] in es && es[i] in es;
    }
    forall e | e in es ensures !SameName(e.name, "Content-Length") {
      EqualIffSameName(e.name, "Content-Length");
    }
    forall name | !SameName(name, "Content-Length") && !SameName(name, "Transfer-Encoding")
      ensures Lookup(m, name) == LastSet(us, name)
    {
      EqualIffSameName(name, "Content-Length");
      EqualIffSameName(name, "Transfer-Encoding");
      LookupIsLastSet(us, name);
    }
  }

  /** And its preamble reads back as those headers, given decodable header text. */
  lemma StreamPreambleReadsBack(us: seq<Update>, encoding: string, es: seq<Entry>,
                                code: int, reason: string, body: string)
    requires Enumerates(es, StreamFields(Replay(us), encoding))
    requires forall e <- es :: Clean(e)
    requires Absent(reason, '\r', '\n')
    ensures ReadPreamble(PreambleText(code, reason, es) + body) == Some(Head("HTTP/1.1", code, reason, es, body))
    ensures AnnouncesOnce(es, encoding) && forall e <- es :: !SameName(e.name, "Content-Length")
  {
    StreamHeaders(us, encoding, es);
    PreambleReadsBack(code, reason, es, body);
  }

  lemma StreamFieldsMeaning(m: Fields, encoding: string)
    requires Folded(m)
    ensures var m' := StreamFields(m, encoding);
            && Folded(m')
            && Lower("Content-Length") !in m'
            && Lower("Transfer-Encoding") in m' && m'[Lower("Transfer-Encoding")].value == encoding
            && forall key | key != Lower("Content-Length") && key != Lower("Transfer-Encoding") ::
                 (key in m' <==> key in m) && (key in m ==> m'[key] == m[key])
  {
    assert |Lower("Content-Length")| == 14 && |Lower("Transfer-Encoding")| == 17;
  }
}
