/**
 Chunked transfer coding, as mg_http_write_chunk appends it (hexadecimal length, CRLF,
 data, CRLF) and as section 7.1 of RFC 9112 has a recipient read it back. Chunk
 extensions and trailer fields, which the server never writes, are not accepted.
 */
module ChunkCoding {
  import opened Texts
  import opened Wrappers

  /** The "%lx" rendering of a length. */
  function Hex(n: nat): (s: string)
    ensures s != []
  {
    if n < 16 then [HexDigit(n)] else Hex(n / 16) + [HexDigit(n % 16)]
  }

  function HexDigit(d: nat): char
    requires d < 16
  {
    "0123456789abcdef"[d]
  }

  function Frame(data: string): string {
    Hex(|data|) + CRLF + data + CRLF
  }

  function Frames(chunks: seq<string>): string {
    if chunks == [] then "" else Frame(chunks[0]) + Frames(chunks[1..])
  }

  /** Every chunk, then the terminating one. */
  function Encode(chunks: seq<string>): string {
    Frames(chunks) + Frame("")
  }

  // ---- the recipient ----

  /** HEXDIG in either case; None for any other character. */
  function DigitValue(c: char): Option<nat> {
    if '0' <= c <= '9' then Some(c as nat - '0' as nat)
    else if 'a' <= c <= 'f' then Some(10 + c as nat - 'a' as nat)
    else if 'A' <= c <= 'F' then Some(10 + c as nat - 'A' as nat)
    else None
  }

  /** How many hexadecimal digits the text starts with. */
  function HexSpan(s: string): (k: nat)
    ensures k <= |s|
    ensures forall i | 0 <= i < k :: DigitValue(s[i]).Some?
    ensures k < |s| ==> DigitValue(s[k]).None?
  {
    if s == [] || DigitValue(s[0]).None? then 0
    else
      var k := HexSpan(s[1..]);
      assert forall i | 1 <= i < k + 1 :: s[i] == s[1..][i - 1];
      k + 1
  }

  function HexValue(s: string): nat {
    if s == [] then 0 else 16 * HexValue(s[..|s| - 1]) + DigitValue(s[|s| - 1]).GetOr(0)
  }

  datatype Decoded = Malformed | Decoded(body: string, rest: string) {
    function After(data: string): Decoded {
      match this
      case Malformed => Malformed
      case Decoded(b, r) => Decoded(data + b, r)
    }
  }

  /** One chunk off the front of the text: its data and what follows it. */
  function ReadChunk(s: string): (r: Option<(string, string)>)
    ensures r.Some? ==> |r.value.1| < |s|
  {
    var k := HexSpan(s);
    var n := HexValue(s[..k]);
    if k == 0 || |s| < k + n + 4 || s[k..k + 2] != CRLF || s[k + 2 + n..k + n + 4] != CRLF then None
    else Some((s[k + 2..k + 2 + n], s[k + n + 4..]))
  }

  /** Reads one chunked body off the front of the text. */
  function Decode(s: string): Decoded
    decreases |s|
  {
    match ReadChunk(s)
    case None => Malformed
    case Some((data, rest)) => if data == "" then Decoded("", rest) else Decode(rest).After(data)
  }

  // ---- round trip ----

  lemma DigitReadsBack(d: nat)
    requires d < 16
    ensures DigitValue(HexDigit(d)) == Some(d)
  {
  }

  lemma {:induction false} HexReadsBack(n: nat)
    ensures HexValue(Hex(n)) == n
    ensures forall i | 0 <= i < |Hex(n)| :: DigitValue(Hex(n)[i]).Some?
  {
    hide DigitValue, HexDigit;
    DigitReadsBack(n % 16);
    if n >= 16 {
      HexReadsBack(n / 16);
      assert Hex(n)[..|Hex(n)| - 1] == Hex(n / 16);
    } else {
      assert Hex(n)[..0] == "";
    }
  }

  /** And they are lower-case digits without a leading zero. */
  lemma {:induction false} HexIsCanonical(n: nat)
    ensures forall c <- Hex(n) :: '0' <= c <= '9' || 'a' <= c <= 'f'
    ensures Hex(n)[0] == '0' <==> n == 0
    ensures n == 0 ==> Hex(n) == "0"
  {
    if n >= 16 {
      HexIsCanonical(n / 16);
    }
  }

  /** Where a frame's fields sit once it stands in front of other bytes. */
  lemma FrameFields(data: string, tail: string)
    ensures var s, k, n := Frame(data) + tail, |Hex(|data|)|, |data|;
            && k > 0 && |s| >= k + n + 4
            && s[..k] == Hex(n) && s[k..k + 2] == CRLF && s[k + 2..k + 2 + n] == data
            && s[k + 2 + n..k + n + 4] == CRLF && s[k + n + 4..] == tail
  {
  }

  lemma SpanOfFrame(data: string, tail: string)
    ensures HexSpan(Frame(data) + tail) == |Hex(|data|)|
  {
    var s, h := Frame(data) + tail, Hex(|data|);
    FrameFields(data, tail);
    HexReadsBack(|data|);
    assert s[|h|] == s[|h|..|h| + 2][0] == '\r';
    assert forall i | 0 <= i < |h| :: s[i] == h[i];
  }

  /** Reading one frame takes exactly that frame, whatever bytes the data holds. */
  lemma ReadFrame(data: string, tail: string)
    ensures ReadChunk(Frame(data) + tail) == Some((data, tail))
  {
    hide HexSpan, HexValue, Hex, Frame;
    FrameFields(data, tail);
    SpanOfFrame(data, tail);
    HexReadsBack(|data|);
  }

  /** The chunks in front of the first empty one: all a recipient gets to see. */
  function BeforeEmpty(chunks: seq<string>): (r: seq<string>)
    ensures r <= chunks
    ensures forall c <- r :: c != ""
    ensures |r| < |chunks| ==> chunks[|r|] == ""
  {
    if chunks == [] || chunks[0] == "" then [] else [chunks[0]] + BeforeEmpty(chunks[1..])
  }

  /** What a recipient is left with after the first frame of length zero. */
  function Unread(chunks: seq<string>, tail: string): string {
    var n := |BeforeEmpty(chunks)|;
    if n == |chunks| then tail else Encode(chunks[n + 1..]) + tail
  }

  /** Exact meaning of the encoded bytes, for every chunk list, empty chunks included. */
  lemma {:induction false} DecodeEncode(chunks: seq<string>, tail: string)
    ensures Decode(Encode(chunks) + tail) == Decoded(Concat(BeforeEmpty(chunks)), Unread(chunks, tail))
  {
    if chunks == [] {
      assert Encode(chunks) + tail == Frame("") + tail;
      ReadFrame("", tail);
    } else {
      var rest := chunks[1..];
      assert Encode(chunks) + tail == Frame(chunks[0]) + (Encode(rest) + tail);
      ReadFrame(chunks[0], Encode(rest) + tail);
      if chunks[0] != "" {
        DecodeEncode(rest, tail);
        var b := BeforeEmpty(rest);
        assert BeforeEmpty(chunks) == [chunks[0]] + b && BeforeEmpty(chunks)[1..] == b;
        assert |b| < |rest| ==> chunks[|b| + 2..] == rest[|b| + 1..];
      }
    }
  }

  /** A chunk list survives the wire, with whatever follows it, if and only if none of its chunks is empty. */
  lemma RoundTripIffNoEmptyChunk(chunks: seq<string>, tail: string)
    ensures Decode(Encode(chunks) + tail) == Decoded(Concat(chunks), tail) <==> forall c <- chunks :: c != ""
  {
    DecodeEncode(chunks, tail);
    var b := BeforeEmpty(chunks);
    if |b| < |chunks| {
      assert chunks[|b|] in chunks;
      assert |Unread(chunks, tail)| > |tail|;
    } else {
      assert b == chunks;
    }
  }

  lemma {:induction false} FramesAppend(chunks: seq<string>, c: string)
    ensures Frames(chunks + [c]) == Frames(chunks) + Frame(c)
  {
    if chunks == [] {
      assert Frames([c]) == Frame(c) + Frames([]);
    } else {
      assert (chunks + [c])[1..] == chunks[1..] + [c];
      FramesAppend(chunks[1..], c);
    }
  }
}
