/**
 async_request: a deep copy of a parsed HTTP message. The message's bytes are duplicated and every
 slice is moved by the distance between the two buffers.
 */
module AsyncRequests {
  import opened Wrappers
  import HT = HeaderTable

  /** An mg_str: an address, 0 for the null pointer, and a length. */
  datatype Slice = Slice(buf: int, len: nat)

  const NULL := Slice(0, 0)

  datatype Header = Header(name: Slice, value: Slice)

  /** An mg_http_message; its header table has a fixed length, unused entries are empty. */
  datatype Message = Message(message: Slice, verb: Slice, uri: Slice, query: Slice, proto: Slice,
                             headers: seq<Header>, body: Slice)

  /** The contents of memory, address by address. */
  type Bytes = int -> char

  function ByteAt(bytes: Bytes, s: Slice, i: int): char {
    bytes(s.buf + i)
  }

  /** The text is the slice's bytes, one by one. */
  ghost predicate Spells(bytes: Bytes, s: Slice, text: string) {
    |text| == s.len && forall i | 0 <= i < s.len :: text[i] == ByteAt(bytes, s, i)
  }

  function Read(bytes: Bytes, s: Slice): (r: string)
    ensures Spells(bytes, s, r)
  {
    seq(s.len, i requires 0 <= i < s.len => ByteAt(bytes, s, i))
  }

  /** The slice is empty or lies in the buffer m. */
  predicate Inside(s: Slice, m: Slice) {
    s.len == 0 || (s.buf != 0 && m.buf <= s.buf && s.buf + s.len <= m.buf + m.len)
  }

  ghost predicate AllInside(msg: Message, groups: seq<Slice>) {
    && Inside(msg.verb, msg.message) && Inside(msg.uri, msg.message) && Inside(msg.query, msg.message)
    && Inside(msg.proto, msg.message) && Inside(msg.body, msg.message)
    && (forall h <- msg.headers :: Inside(h.name, msg.message) && Inside(h.value, msg.message))
    && (forall g <- groups :: Inside(g, msg.message))
  }

  // ---- what a message says ----

  /** Everything an accessor can return, as text. */
  datatype Text = Text(verb: string, uri: string, query: string, version: string, body: string,
                       headers: seq<HT.Entry>, groups: seq<string>)

  /** The header lines up to the first empty name: all that mg_http_get_header looks at. */
  function Lines(bytes: Bytes, hs: seq<Header>): seq<HT.Entry> {
    if hs == [] || hs[0].name.len == 0 then []
    else [HT.Entry(Read(bytes, hs[0].name), Read(bytes, hs[0].value))] + Lines(bytes, hs[1..])
  }

  function TextOf(bytes: Bytes, msg: Message, groups: seq<Slice>): Text {
    Text(Read(bytes, msg.verb), Read(bytes, msg.uri), Read(bytes, msg.query), Read(bytes, msg.proto),
         Read(bytes, msg.body), Lines(bytes, msg.headers),
         seq(|groups|, i requires 0 <= i < |groups| => Read(bytes, groups[i])))
  }

  /** Line i is in front of the first empty name. */
  ghost predicate Visible(hs: seq<Header>, i: int) {
    0 <= i < |hs| && forall j | 0 <= j <= i :: hs[j].name.len > 0
  }

  /** Line i is the first visible one of that name, in any casing. */
  ghost predicate FirstNamed(bytes: Bytes, hs: seq<Header>, name: string, i: int) {
    && Visible(hs, i) && HT.SameName(Read(bytes, hs[i].name), name)
    && forall j | 0 <= j < i :: !HT.SameName(Read(bytes, hs[j].name), name)
  }

  /** Two slices of two memories hold the same bytes. */
  ghost predicate SameBytes(b: Bytes, s: Slice, b': Bytes, s': Slice) {
    s'.len == s.len && forall i | 0 <= i < s.len :: ByteAt(b', s', i) == ByteAt(b, s, i)
  }

  lemma ReadsAlike(b: Bytes, s: Slice, b': Bytes, s': Slice)
    ensures Read(b', s') == Read(b, s) <==> SameBytes(b, s, b', s')
  {
    if Read(b', s') == Read(b, s) {
      forall i | 0 <= i < s.len ensures ByteAt(b', s', i) == ByteAt(b, s, i) {
        assert Read(b', s')[i] == Read(b, s)[i];
      }
    }
  }

  // ---- moving slices ----

  function Rebase(s: Slice, delta: int): Slice {
    if s.buf == 0 then NULL else Slice(s.buf + delta, s.len)
  }

  function RebaseHeader(h: Header, delta: int): Header {
    Header(Rebase(h.name, delta), Rebase(h.value, delta))
  }

  /** to holds the same bytes in memory after as from did before. */
  ghost predicate IsCopy(before: Bytes, from: Slice, after: Bytes, to: Slice) {
    Read(after, to) == Read(before, from) && (to.len > 0 ==> to.buf > 0)
  }

  lemma RebasedSlice(before: Bytes, from: Slice, after: Bytes, to: Slice, s: Slice)
    requires IsCopy(before, from, after, to) && Inside(s, from)
    ensures Read(after, Rebase(s, to.buf - from.buf)) == Read(before, s)
    ensures Inside(Rebase(s, to.buf - from.buf), to) && Rebase(s, to.buf - from.buf).len == s.len
  {
    assert |Read(after, to)| == |Read(before, from)|;
    forall i | 0 <= i < s.len ensures Read(after, Rebase(s, to.buf - from.buf))[i] == Read(before, s)[i] {
      var j := s.buf + i - from.buf;
      assert Read(after, to)[j] == Read(before, from)[j];
    }
  }

  /** What the header loop leaves: rebased entries up to the first null name at k, nulls after it. */
  ghost predicate CopiedHeaders(hs: seq<Header>, hs': seq<Header>, delta: int, k: nat) {
    && |hs'| == |hs| && k <= |hs|
    && (forall j | 0 <= j < |hs| :: hs'[j] == if j <= k then RebaseHeader(hs[j], delta) else Header(NULL, NULL))
    && (k < |hs| ==> Rebase(hs[k].name, delta).buf == 0)
  }

  /** A header line and its copy read the same. */
  ghost predicate CopyOf(before: Bytes, after: Bytes, to: Slice, h: Header, h': Header) {
    && h'.name.len == h.name.len && Inside(h'.name, to) && Inside(h'.value, to)
    && Read(after, h'.name) == Read(before, h.name) && Read(after, h'.value) == Read(before, h.value)
  }

  lemma RebasedHeader(before: Bytes, from: Slice, after: Bytes, to: Slice, h: Header)
    requires IsCopy(before, from, after, to) && Inside(h.name, from) && Inside(h.value, from)
    ensures CopyOf(before, after, to, h, RebaseHeader(h, to.buf - from.buf))
  {
    RebasedSlice(before, from, after, to, h.name);
    RebasedSlice(before, from, after, to, h.value);
  }

  lemma {:induction false} CopiedLines(before: Bytes, from: Slice, after: Bytes, to: Slice,
                                       hs: seq<Header>, hs': seq<Header>, k: nat)
    requires IsCopy(before, from, after, to)
    requires forall h <- hs :: Inside(h.name, from) && Inside(h.value, from)
    requires CopiedHeaders(hs, hs', to.buf - from.buf, k)
    ensures Lines(after, hs') == Lines(before, hs)
    ensures forall h <- hs' :: Inside(h.name, to) && Inside(h.value, to)
  {
    hide Read, IsCopy;
    forall j | 0 <= j < |hs|
      ensures CopyOf(before, after, to, hs[j], RebaseHeader(hs[j], to.buf - from.buf))
    {
      assert hs[j] in hs;
      RebasedHeader(before, from, after, to, hs[j]);
    }
    if hs != [] && hs[0].name.len > 0 {
      assert k > 0;
      CopiedLines(before, from, after, to, hs[1..], hs'[1..], k - 1);
    }
  }

  /** Every visible line is copied byte by byte, and no other becomes visible. */
  lemma CopiedVisibly(before: Bytes, from: Slice, after: Bytes, to: Slice,
                      hs: seq<Header>, hs': seq<Header>, k: nat, i: int)
    requires IsCopy(before, from, after, to)
    requires forall h <- hs :: Inside(h.name, from) && Inside(h.value, from)
    requires CopiedHeaders(hs, hs', to.buf - from.buf, k)
    ensures Visible(hs', i) <==> Visible(hs, i)
    ensures Visible(hs, i) ==> SameBytes(before, hs[i].name, after, hs'[i].name) &&
                               SameBytes(before, hs[i].value, after, hs'[i].value)
  {
    hide Read, IsCopy;
    forall j | 0 <= j < |hs|
      ensures CopyOf(before, after, to, hs[j], RebaseHeader(hs[j], to.buf - from.buf))
    {
      assert hs[j] in hs;
      RebasedHeader(before, from, after, to, hs[j]);
    }
    if Visible(hs, i) {
      assert k <= i ==> hs[k].name.len > 0;
      ReadsAlike(before, hs[i].name, after, hs'[i].name);
      ReadsAlike(before, hs[i].value, after, hs'[i].value);
    }
  }

  /** Two messages hold the same bytes, slice by slice, as far as any accessor looks. */
  ghost predicate SameMessage(b: Bytes, msg: Message, groups: seq<Slice>,
                              b': Bytes, msg': Message, groups': seq<Slice>) {
    && SameBytes(b, msg.verb, b', msg'.verb) && SameBytes(b, msg.uri, b', msg'.uri)
    && SameBytes(b, msg.query, b', msg'.query) && SameBytes(b, msg.proto, b', msg'.proto)
    && SameBytes(b, msg.body, b', msg'.body)
    && (forall i :: Visible(msg'.headers, i) <==> Visible(msg.headers, i))
    && (forall i | Visible(msg.headers, i) ::
          SameBytes(b, msg.headers[i].name, b', msg'.headers[i].name) &&
          SameBytes(b, msg.headers[i].value, b', msg'.headers[i].value))
    && |groups'| == |groups| && forall i | 0 <= i < |groups| :: SameBytes(b, groups[i], b', groups'[i])
  }

  lemma RebasedBytes(before: Bytes, msg: Message, groups: seq<Slice>, after: Bytes, msg': Message, groups': seq<Slice>,
                     k: nat)
    requires AllInside(msg, groups) && IsCopy(before, msg.message, after, msg'.message)
    requires CopiedHeaders(msg.headers, msg'.headers, msg'.message.buf - msg.message.buf, k)
    requires |groups'| == |groups| && TextOf(after, msg', groups') == TextOf(before, msg, groups)
    ensures SameMessage(before, msg, groups, after, msg', groups')
  {
    hide Read, Lines, IsCopy, Visible, SameBytes, Rebase;
    ReadsAlike(before, msg.verb, after, msg'.verb);
    ReadsAlike(before, msg.uri, after, msg'.uri);
    ReadsAlike(before, msg.query, after, msg'.query);
    ReadsAlike(before, msg.proto, after, msg'.proto);
    ReadsAlike(before, msg.body, after, msg'.body);
    forall i {
      CopiedVisibly(before, msg.message, after, msg'.message, msg.headers, msg'.headers, k, i);
    }
    forall i | 0 <= i < |groups| ensures SameBytes(before, groups[i], after, groups'[i]) {
      ReadsAlike(before, groups[i], after, groups'[i]);
      assert TextOf(after, msg', groups').groups[i] == TextOf(before, msg, groups).groups[i];
    }
  }

  /** A rebased message says what the original said, out of the copy alone. */
  lemma RebasedMessage(before: Bytes, msg: Message, groups: seq<Slice>, after: Bytes, msg': Message, groups': seq<Slice>,
                        k: nat)
    requires AllInside(msg, groups) && IsCopy(before, msg.message, after, msg'.message)
    requires var delta := msg'.message.buf - msg.message.buf;
             && msg'.verb == Rebase(msg.verb, delta) && msg'.uri == Rebase(msg.uri, delta)
             && msg'.query == Rebase(msg.query, delta) && msg'.proto == Rebase(msg.proto, delta)
             && msg'.body == Rebase(msg.body, delta) && CopiedHeaders(msg.headers, msg'.headers, delta, k)
             && |groups'| == |groups| && forall i | 0 <= i < |groups| :: groups'[i] == Rebase(groups[i], delta)
    ensures TextOf(after, msg', groups') == TextOf(before, msg, groups) && AllInside(msg', groups')
    ensures SameMessage(before, msg, groups, after, msg', groups')
  {
    hide Read, Lines, IsCopy, SameMessage, Rebase;
    var from, to := msg.message, msg'.message;
    RebasedSlice(before, from, after, to, msg.verb);
    RebasedSlice(before, from, after, to, msg.uri);
    RebasedSlice(before, from, after, to, msg.query);
    RebasedSlice(before, from, after, to, msg.proto);
    RebasedSlice(before, from, after, to, msg.body);
    CopiedLines(before, from, after, to, msg.headers, msg'.headers, k);
    forall i | 0 <= i < |groups|
      ensures Read(after, groups'[i]) == Read(before, groups[i]) && Inside(groups'[i], to)
    {
      assert groups[i] in groups;
      RebasedSlice(before, from, after, to, groups[i]);
    }
    RebasedBytes(before, msg, groups, after, msg', groups', k);
  }

  // ---- only the buffer matters ----

  lemma SameSlice(b: Bytes, b': Bytes, m: Slice, s: Slice)
    requires Inside(s, m) && forall p | m.buf <= p < m.buf + m.len :: b'(p) == b(p)
    ensures Read(b', s) == Read(b, s)
  {
  }

  lemma {:induction false} SameLines(b: Bytes, b': Bytes, m: Slice, hs: seq<Header>)
    requires forall h <- hs :: Inside(h.name, m) && Inside(h.value, m)
    requires forall p | m.buf <= p < m.buf + m.len :: b'(p) == b(p)
    ensures Lines(b', hs) == Lines(b, hs)
  {
    if hs != [] {
      SameSlice(b, b', m, hs[0].name);
      SameSlice(b, b', m, hs[0].value);
      SameLines(b, b', m, hs[1..]);
    }
  }

  /** Whatever happens to memory outside its own buffer, a message keeps saying the same. */
  lemma OnlyItsBufferMatters(b: Bytes, b': Bytes, msg: Message, groups: seq<Slice>)
    requires AllInside(msg, groups)
    requires forall p | msg.message.buf <= p < msg.message.buf + msg.message.len :: b'(p) == b(p)
    ensures TextOf(b', msg, groups) == TextOf(b, msg, groups)
  {
    SameSlice(b, b', msg.message, msg.verb);
    SameSlice(b, b', msg.message, msg.uri);
    SameSlice(b, b', msg.message, msg.query);
    SameSlice(b, b', msg.message, msg.proto);
    SameSlice(b, b', msg.message, msg.body);
    SameLines(b, b', msg.message, msg.headers);
    forall i | 0 <= i < |groups| ensures Read(b', groups[i]) == Read(b, groups[i]) {
      SameSlice(b, b', msg.message, groups[i]);
    }
  }

  // ---- memory and the copy ----

  /** Memory with a text written at an address. */
  function Placed(bytes: Bytes, at: int, text: string): Bytes {
    p => if at <= p < at + |text| then text[p - at] else bytes(p)
  }

  lemma PlacedReadsBack(bytes: Bytes, at: int, text: string)
    ensures Read(Placed(bytes, at, text), Slice(at, |text|)) == text
    ensures forall p | p < at || at + |text| <= p :: Placed(bytes, at, text)(p) == bytes(p)
  {
  }

  /** Everything at or above top is free. */
  class Memory {
    var bytes: Bytes
    var top: int

    constructor (bytes: Bytes, top: int)
      requires top > 0
      ensures this.bytes == bytes && this.top == top
    {
      this.bytes, this.top := bytes, top;
    }

    /** mg_strdup: an empty slice gives the null slice. */
    method Strdup(s: Slice) returns (r: Slice)
      requires top > 0
      modifies this
      ensures top >= old(top) && forall p | p < old(top) :: bytes(p) == old(bytes)(p)
      ensures s.len == 0 || s.buf == 0 ==> r == NULL
      ensures s.len > 0 && s.buf != 0 ==>
                r.len == s.len && old(top) <= r.buf && r.buf + r.len <= top && Read(bytes, r) == Read(old(bytes), s)
    {
      hide Read, Placed;
      if s.len == 0 || s.buf == 0 {
        return NULL;
      }
      r := Slice(top, s.len);
      PlacedReadsBack(bytes, top, Read(bytes, s));
      bytes := Placed(bytes, top, Read(bytes, s));
      top := top + s.len + 1;
    }
  }

  class AsyncRequest {
    const mem: Memory
    var message: Slice
    var verb: Slice
    var uri: Slice
    var query: Slice
    var proto: Slice
    var body: Slice
    const headers: array<Header>
    const groups: array<Slice>

    ghost function Msg(): Message
      reads this, headers
    {
      Message(message, verb, uri, query, proto, headers[..], body)
    }

    ghost predicate Valid()
      reads this, headers, groups
    {
      AllInside(Msg(), groups[..])
    }

    /** What the accessors return. */
    ghost function View(): Text
      reads this, headers, groups, mem
    {
      TextOf(mem.bytes, Msg(), groups[..])
    }

    /** The copying constructor: no slice of the message may be null with a length, or leave its buffer. */
    constructor (mem: Memory, msg: Message, groups: seq<Slice>)
      requires mem.top > 0 && AllInside(msg, groups) && (msg.message.buf == 0 ==> msg.message.len == 0)
      modifies mem
      ensures this.mem == mem && Valid() && fresh(headers) && fresh(this.groups)
      ensures View() == old(TextOf(mem.bytes, msg, groups))
      ensures SameMessage(old(mem.bytes), msg, groups,
                          mem.bytes, Message(message, verb, uri, query, proto, headers[..], body), this.groups[..])
      ensures message.len > 0 ==> old(mem.top) <= message.buf && message.buf + message.len <= mem.top
      ensures forall p | p < old(mem.top) :: mem.bytes(p) == old(mem.bytes)(p)
    {
      hide Read, TextOf, AllInside, SameMessage, CopiedHeaders;
      this.mem := mem;
      message, verb, uri, query, proto, body := NULL, NULL, NULL, NULL, NULL, NULL;
      headers := new Header[|msg.headers|](_ => Header(NULL, NULL));
      this.groups := new Slice[|groups|](i requires 0 <= i < |groups| => groups[i]);
      new;
      message := mem.Strdup(msg.message);
      var delta := message.buf - msg.message.buf;
      verb := Rebase(msg.verb, delta);
      uri := Rebase(msg.uri, delta);
      query := Rebase(msg.query, delta);
      proto := Rebase(msg.proto, delta);
      ghost var k := CopyHeaders(headers, msg.headers, delta);
      body := Rebase(msg.body, delta);
      RebaseGroups(this.groups, delta);
      RebasedMessage(old(mem.bytes), msg, groups, mem.bytes, Msg(), this.groups[..], k);
    }

    /** Nothing written outside the copy's own buffer is ever seen, wherever the original was. */
    twostate lemma OutlivesItsOriginal()
      requires old(Valid()) && unchanged(this) && unchanged(headers) && unchanged(groups)
      requires forall p | message.buf <= p < message.buf + message.len :: mem.bytes(p) == old(mem.bytes)(p)
      ensures Valid() && View() == old(View())
    {
      OnlyItsBufferMatters(old(mem.bytes), mem.bytes, Msg(), groups[..]);
    }

    method Method() returns (r: string)
      ensures Spells(mem.bytes, verb, r) && r == View().verb
    {
      r := Read(mem.bytes, verb);
    }

    method Uri() returns (r: string)
      ensures Spells(mem.bytes, uri, r) && r == View().uri
    {
      r := Read(mem.bytes, uri);
    }

    method Query() returns (r: string)
      ensures Spells(mem.bytes, query, r) && r == View().query
    {
      r := Read(mem.bytes, query);
    }

    method Version() returns (r: string)
      ensures Spells(mem.bytes, proto, r) && r == View().version
    {
      r := Read(mem.bytes, proto);
    }

    method Body() returns (r: string)
      ensures Spells(mem.bytes, body, r) && r == View().body
    {
      r := Read(mem.bytes, body);
    }

    method GetParam(index: nat) returns (r: Option<string>)
      ensures r.Some? <==> index < groups.Length
      ensures r.Some? ==> Spells(mem.bytes, groups[index], r.value) && r.value == View().groups[index]
    {
      if index >= groups.Length {
        return None;
      }
      r := Some(Read(mem.bytes, groups[index]));
    }

    /** The search of mg_http_get_header: it stops at the first empty name. */
    method GetHeader(name: string) returns (r: Option<string>)
      ensures r.Some? <==> exists i :: FirstNamed(mem.bytes, headers[..], name, i)
      ensures forall i | FirstNamed(mem.bytes, headers[..], name, i) ::
                r.Some? && Spells(mem.bytes, headers[i].value, r.value)
    {
      var i := 0;
      while i < headers.Length && headers[i].name.len > 0
        invariant i <= headers.Length
        invariant forall j | 0 <= j < i ::
                    headers[j].name.len > 0 && !HT.SameName(Read(mem.bytes, headers[j].name), name)
      {
        HT.EqualIffSameName(Read(mem.bytes, headers[i].name), name);
        if HT.IsEqual(Read(mem.bytes, headers[i].name), name) {
          assert FirstNamed(mem.bytes, headers[..], name, i);
          return Some(Read(mem.bytes, headers[i].value));
        }
        i := i + 1;
      }
      r := None;
    }
  }

  /** The header loop: it stops after the first null name, leaving the rest null. */
  method CopyHeaders(to: array<Header>, from: seq<Header>, delta: int) returns (ghost k: nat)
    requires to.Length == |from| && forall j | 0 <= j < to.Length :: to[j] == Header(NULL, NULL)
    modifies to
    ensures CopiedHeaders(from, to[..], delta, k)
  {
    var i := 0;
    while i < to.Length
      invariant i <= to.Length
      invariant forall j | 0 <= j < to.Length :: to[j] == if j < i then RebaseHeader(from[j], delta) else Header(NULL, NULL)
    {
      to[i] := Header(Rebase(from[i].name, delta), Rebase(from[i].value, delta));
      if to[i].name.buf == 0 {
        break;
      }
      i := i + 1;
    }
    k := i;
  }

  method RebaseGroups(groups: array<Slice>, delta: int)
    modifies groups
    ensures forall i | 0 <= i < groups.Length :: groups[i] == Rebase(old(groups[i]), delta)
  {
    for i := 0 to groups.Length
      invariant forall j | 0 <= j < groups.Length ::
                  groups[j] == if j < i then Rebase(old(groups[j]), delta) else old(groups[j])
    {
      groups[i] := Rebase(groups[i], delta);
    }
  }
}
