/**
 The case-insensitive header table: an FNV-1a hash over folded bytes, an equality that
 folds both sides, and the hash table they drive. The table's specification is a map on
 folded names; its whole-history meaning is "the last value set under any casing".
 */
module HeaderTable {
  import opened Texts
  import opened Wrappers

  /** std::tolower in the "C" locale. */
  function ToLower(c: char): char {
    if 'A' <= c <= 'Z' then (c as int + 32) as char else c
  }

  function Lower(s: string): (r: string)
    ensures |r| == |s|
  {
    seq(|s|, i requires 0 <= i < |s| => ToLower(s[i]))
  }

  predicate IsEqual(l: string, r: string) {
    |l| == |r| && forall i | 0 <= i < |l| :: ToLower(l[i]) == ToLower(r[i])
  }

  /** The same character, or the upper- and the lower-case form of one of the 26 letters. */
  predicate SameLetter(a: char, b: char) {
    || a == b
    || ('A' <= a <= 'Z' && 'a' <= b <= 'z' && a as int - 'A' as int == b as int - 'a' as int)
    || ('a' <= a <= 'z' && 'A' <= b <= 'Z' && a as int - 'a' as int == b as int - 'A' as int)
  }

  /** The same name up to casing, said without folding anything. */
  predicate SameName(l: string, r: string) {
    |l| == |r| && forall i | 0 <= i < |l| :: SameLetter(l[i], r[i])
  }

  const FNV_OFFSET: nat := 14695981039346656037
  const FNV_PRIME: nat := 1099511628211
  const TWO_TO_THE_64: nat := 0x1_0000_0000_0000_0000

  /** Exclusive or of the low n bits. */
  function Xor(a: nat, b: nat, n: nat): nat {
    if n == 0 then 0 else (if a % 2 == b % 2 then 0 else 1) + 2 * Xor(a / 2, b / 2, n - 1)
  }

  /** The bit of weight 2^k. */
  function Bit(a: nat, k: nat): nat {
    if k == 0 then a % 2 else Bit(a / 2, k - 1)
  }

  /** Bit by bit: set where exactly one operand's is, and none at or above n. */
  lemma {:induction false} XorIsBitwise(a: nat, b: nat, n: nat, k: nat)
    ensures Bit(Xor(a, b, n), k) == if k < n && Bit(a, k) != Bit(b, k) then 1 else 0
  {
    if n == 0 {
      ZeroBits(k);
    } else if k > 0 {
      XorIsBitwise(a / 2, b / 2, n - 1, k - 1);
    }
  }

  lemma {:induction false} ZeroBits(k: nat)
    ensures Bit(0, k) == 0
  {
    if k > 0 {
      ZeroBits(k - 1);
    }
  }

  /** One FNV-1a round on a 64-bit size_t. A header name holds octets. */
  function Mix(hash: nat, c: char): nat {
    (Xor(hash, ToLower(c) as int % 256, 64) * FNV_PRIME) % TWO_TO_THE_64
  }

  function HashOf(key: string): nat {
    if key == "" then FNV_OFFSET else Mix(HashOf(key[..|key| - 1]), key[|key| - 1])
  }

  method HashKey(key: string) returns (hash: nat)
    ensures hash == HashOf(key)
  {
    hash := FNV_OFFSET;
    for i := 0 to |key|
      invariant hash == HashOf(key[..i])
    {
      assert key[..i + 1][..i] == key[..i];
      hash := Mix(hash, key[i]);
    }
    assert key[..|key|] == key;
  }

  function PowerOfTwo(n: nat): (p: nat)
    ensures p > 0
  {
    if n == 0 then 1 else 2 * PowerOfTwo(n - 1)
  }

  /** Exclusive or with a number of k bits leaves everything above them alone. */
  lemma {:induction false} XorBelow(h: nat, q: nat, l: nat, b: nat, k: nat, n: nat)
    requires l < PowerOfTwo(k) && b < PowerOfTwo(k) && h < PowerOfTwo(n)
    requires q == PowerOfTwo(k) * h
    ensures Xor(q + l, b, k + n) == q + Xor(l, b, k)
  {
    if k > 0 {
      HalfProduct(k, h);
      XorBelow(h, q / 2, l / 2, b / 2, k - 1, n);
      XorHalves(q / 2, l, b, k, n);
    } else {
      XorZero(q, n);
    }
  }

  lemma {:induction false} XorZero(h: nat, n: nat)
    requires h < PowerOfTwo(n)
    ensures Xor(h, 0, n) == h
  {
    if n > 0 {
      XorZero(h / 2, n - 1);
    }
  }

  lemma HalfProduct(k: nat, h: nat)
    requires k > 0
    ensures PowerOfTwo(k) * h == 2 * (PowerOfTwo(k - 1) * h)
  {
  }

  lemma XorHalves(q: nat, l: nat, b: nat, k: nat, n: nat)
    requires k > 0 && Xor(q + l / 2, b / 2, k - 1 + n) == q + Xor(l / 2, b / 2, k - 1)
    ensures Xor(2 * q + l, b, k + n) == 2 * q + Xor(l, b, k)
  {
    assert (2 * q + l) / 2 == q + l / 2 && (2 * q + l) % 2 == l % 2;
  }

  lemma {:induction false} PowersMultiply(m: nat, n: nat)
    ensures PowerOfTwo(m + n) == PowerOfTwo(m) * PowerOfTwo(n)
  {
    if m > 0 {
      PowersMultiply(m - 1, n);
      assert PowerOfTwo(m) * PowerOfTwo(n) == 2 * (PowerOfTwo(m - 1) * PowerOfTwo(n));
    }
  }

  lemma SevenOctets()
    ensures PowerOfTwo(8) == 0x100 && PowerOfTwo(56) == 0x100_0000_0000_0000
  {
    assert PowerOfTwo(8) == 0x100;
    PowersMultiply(8, 8);
    PowersMultiply(16, 8);
    PowersMultiply(24, 24);
    PowersMultiply(48, 8);
  }

  /** A round flips bits of the lowest octet only, then multiplies modulo 2^64, in this order. */
  lemma MixIsOneRound(h: nat, l: nat, c: char)
    requires h < 0x100_0000_0000_0000 && l < 0x100
    ensures Mix(0x100 * h + l, c) ==
            ((0x100 * h + Xor(l, ToLower(c) as int % 0x100, 8)) * 1099511628211) % 0x1_0000_0000_0000_0000
  {
    hide Xor, ToLower, PowerOfTwo;
    SevenOctets();
    XorBelow(h, 0x100 * h, l, ToLower(c) as int % 0x100, 8, 56);
  }

  /** The published 64-bit FNV-1a values of the empty text and of "a", which "A" shares. */
  lemma PublishedHashes()
    ensures HashOf("") == 0xcbf29ce484222325
    ensures HashOf("a") == 0xaf63dc4c8601ec8c && HashOf("A") == 0xaf63dc4c8601ec8c
  {
    assert "a"[..0] == "" && "A"[..0] == "";
    ExampleRound('a');
    ExampleRound('A');
  }

  lemma ExampleRound(c: char)
    requires c == 'a' || c == 'A'
    ensures Mix(0xcbf29ce484222325, c) == 0xaf63dc4c8601ec8c
  {
    assert ToLower(c) as int % 0x100 == 0x61;
    hide Mix, Xor, ToLower;
    ExampleXor();
    MixIsOneRound(0xcbf29ce4842223, 0x25, c);
    ExampleProduct();
  }

  lemma ExampleProduct()
    ensures (0xcbf29ce484222344 * 1099511628211) % 0x1_0000_0000_0000_0000 == 0xaf63dc4c8601ec8c
  {
  }

  lemma ExampleXor()
    ensures Xor(0x25, 0x61, 8) == 0x44
  {
    assert Xor(2, 6, 4) == 4 && Xor(9, 24, 6) == 17;
  }

  // ---- hash and equality agree ----

  /** The table's equality is equality of folded names, hence an equivalence. */
  lemma EqualIffSameFold(l: string, r: string)
    ensures IsEqual(l, r) <==> Lower(l) == Lower(r)
  {
    if Lower(l) == Lower(r) {
      forall i | 0 <= i < |l| ensures ToLower(l[i]) == ToLower(r[i]) {
        assert Lower(l)[i] == Lower(r)[i];
      }
    }
  }

  /** Names are equal to the table if and only if they differ in the casing of letters at most. */
  lemma EqualIffSameName(l: string, r: string)
    ensures IsEqual(l, r) <==> SameName(l, r)
    ensures Lower(l) == Lower(r) <==> SameName(l, r)
  {
    EqualIffSameFold(l, r);
  }

  /** Names the table calls equal land in the same bucket. */
  lemma {:induction false} EqualNamesHashAlike(l: string, r: string)
    requires IsEqual(l, r)
    ensures HashOf(l) == HashOf(r)
  {
    if l != "" {
      EqualNamesHashAlike(l[..|l| - 1], r[..|r| - 1]);
    }
  }

  // ---- what the table means ----

  /** A stored field: the name keeps the casing it was first set with. */
  datatype Entry = Entry(name: string, value: string)

  type Fields = map<string, Entry>

  datatype Update = Set(name: string, value: string) | Remove(name: string) | Clear

  function Apply(m: Fields, u: Update): Fields {
    match u
    case Set(n, v) => m[Lower(n) := Entry(if Lower(n) in m then m[Lower(n)].name else n, v)]
    case Remove(n) => m - {Lower(n)}
    case Clear => map[]
  }

  function Replay(us: seq<Update>): Fields {
    if us == [] then map[] else Apply(Replay(us[..|us| - 1]), us[|us| - 1])
  }

  function Lookup(m: Fields, name: string): Option<string> {
    if Lower(name) in m then Some(m[Lower(name)].value) else None
  }

  /** Reads the history backwards, with no table, no folding and no hash. */
  function LastSet(us: seq<Update>, name: string): Option<string> {
    if us == [] then None
    else
      var rest := us[..|us| - 1];
      match us[|us| - 1]
      case Set(n, v) => if SameName(n, name) then Some(v) else LastSet(rest, name)
      case Remove(n) => if SameName(n, name) then None else LastSet(rest, name)
      case Clear => None
  }

  /** The casing the name was set in first, since it was last removed. */
  function FirstCasing(us: seq<Update>, name: string): Option<string> {
    if us == [] then None
    else
      var r := FirstCasing(us[..|us| - 1], name);
      match us[|us| - 1]
      case Set(n, _) => if r.None? && SameName(n, name) then Some(n) else r
      case Remove(n) => if SameName(n, name) then None else r
      case Clear => None
  }

  /**
   After any history of updates, a name of any casing finds the last value set under it, filed under
   the casing it was first set in.
   */
  lemma {:induction false} LookupIsLastSet(us: seq<Update>, name: string)
    ensures Lookup(Replay(us), name) == LastSet(us, name)
    ensures FirstCasing(us, name) ==
            if Lower(name) in Replay(us) then Some(Replay(us)[Lower(name)].name) else None
  {
    if us != [] {
      LookupIsLastSet(us[..|us| - 1], name);
      match us[|us| - 1]
      case Set(n, v) => EqualIffSameName(n, name);
      case Remove(n) => EqualIffSameName(n, name);
      case Clear =>
    }
  }

  /** Every key is the folding of the name filed under it. */
  ghost predicate Folded(m: Fields) {
    forall key | key in m :: Lower(m[key].name) == key
  }

  lemma {:induction false} ReplayIsFolded(us: seq<Update>)
    ensures Folded(Replay(us))
  {
    if us != [] {
      ReplayIsFolded(us[..|us| - 1]);
    }
  }

  /** The entries, each once, in whatever order the table iterates. */
  ghost predicate Enumerates(es: seq<Entry>, m: Fields) {
    && (forall e <- es :: Lower(e.name) in m && m[Lower(e.name)] == e)
    && (forall key | key in m :: m[key] in es)
    && (forall i, j | 0 <= i < j < |es| :: Lower(es[i].name) != Lower(es[j].name))
  }

  /** The entry of a name stands somewhere among them, and the name nowhere else. */
  ghost predicate ListedOnce(es: seq<Entry>, name: string, e: Entry) {
    exists i :: 0 <= i < |es| && es[i] == e && forall j | 0 <= j < |es| :: SameName(es[j].name, name) <==> j == i
  }

  /**
   What a table prints, whatever its order: for each name that was set and not removed since, one
   entry with its last value and its first casing, and nothing for any other.
   */
  lemma EntriesAreLastSet(us: seq<Update>, es: seq<Entry>, name: string)
    requires Enumerates(es, Replay(us))
    ensures LastSet(us, name).Some? <==> FirstCasing(us, name).Some?
    ensures LastSet(us, name).Some? ==>
              ListedOnce(es, name, Entry(FirstCasing(us, name).value, LastSet(us, name).value))
    ensures LastSet(us, name).None? ==> forall e <- es :: !SameName(e.name, name)
  {
    ReplayIsFolded(us);
    LookupIsLastSet(us, name);
    forall e: Entry { EqualIffSameName(e.name, name); }
    var m, key := Replay(us), Lower(name);
    if key in m {
      var i :| 0 <= i < |es| && es[i] == m[key];
      assert forall j | 0 <= j < |es| :: es[j] in es;
    }
  }

  const DEFAULT_LINE := "Content-Type: text/plain\r\n"

  function Line(e: Entry): string {
    e.name + ": " + e.value
  }

  function Row(e: Entry): string {
    Line(e) + CRLF
  }

  function FormatLines(es: seq<Entry>): string {
    if es == [] then "" else FormatLines(es[..|es| - 1]) + Row(es[|es| - 1])
  }

  function FormatText(es: seq<Entry>, empty: bool): string {
    if es == [] && !empty then DEFAULT_LINE else FormatLines(es)
  }

  function Flatten(buckets: seq<seq<Entry>>): seq<Entry> {
    if buckets == [] then [] else Flatten(buckets[..|buckets| - 1]) + buckets[|buckets| - 1]
  }

  /** The bucket a name belongs to among n of them. */
  function Slot(name: string, n: nat): (i: nat)
    requires n > 0
    ensures i < n
  {
    HashOf(name) % n
  }

  /** Every bucket holds entries of its own slot, and only what the contents hold. */
  ghost predicate Sound(buckets: seq<seq<Entry>>, contents: Fields) {
    forall i, j | 0 <= i < |buckets| && 0 <= j < |buckets[i]| ::
      var e := buckets[i][j];
      Slot(e.name, |buckets|) == i && Lower(e.name) in contents && contents[Lower(e.name)] == e
  }

  ghost predicate Complete(buckets: seq<seq<Entry>>, contents: Fields) {
    forall key | key in contents && |buckets| > 0 ::
      contents[key] in buckets[Slot(contents[key].name, |buckets|)]
  }

  ghost predicate Distinct(bucket: seq<Entry>) {
    forall j, k | 0 <= j < k < |bucket| :: Lower(bucket[j].name) != Lower(bucket[k].name)
  }

  ghost predicate Filed(buckets: seq<seq<Entry>>, contents: Fields) {
    Sound(buckets, contents) && Complete(buckets, contents) && forall i | 0 <= i < |buckets| :: Distinct(buckets[i])
  }

  /** Iterating all buckets in order meets every entry exactly once. */
  lemma {:induction false} FlattenPrefix(buckets: seq<seq<Entry>>, contents: Fields, n: nat)
    requires n <= |buckets| && Filed(buckets, contents)
    ensures var es := Flatten(buckets[..n]);
            && (forall e :: e in es <==> exists i :: 0 <= i < n && e in buckets[i])
            && (forall e <- es :: Slot(e.name, |buckets|) < n)
            && Distinct(es)
  {
    hide Lower, Slot, Complete;
    if n > 0 {
      FlattenPrefix(buckets, contents, n - 1);
      var es, es' := Flatten(buckets[..n - 1]), Flatten(buckets[..n]);
      assert buckets[..n][..n - 1] == buckets[..n - 1];
      var last := buckets[n - 1];
      assert es' == es + last;
      forall a, b | a in es && b in last ensures Lower(a.name) != Lower(b.name) {
        var k :| 0 <= k < |last| && last[k] == b;
        assert Slot(last[k].name, |buckets|) == n - 1;
        SameFoldSameSlot(a.name, b.name, |buckets|);
      }
      DistinctJoin(es, last);
    }
  }

  lemma DistinctJoin(es: seq<Entry>, last: seq<Entry>)
    requires Distinct(es) && Distinct(last)
    requires forall a, b | a in es && b in last :: Lower(a.name) != Lower(b.name)
    ensures Distinct(es + last)
  {
    hide Lower;
    var all := es + last;
    forall j, k | 0 <= j < k < |all| ensures Lower(all[j].name) != Lower(all[k].name) {
      if j >= |es| {
        assert all[j] == last[j - |es|] && all[k] == last[k - |es|];
      } else if k >= |es| {
        assert all[j] in es && all[k] in last;
      }
    }
  }

  lemma SameFoldSameSlot(l: string, r: string, n: nat)
    requires n > 0
    ensures Lower(l) == Lower(r) ==> Slot(l, n) == Slot(r, n)
  {
    if Lower(l) == Lower(r) {
      EqualIffSameFold(l, r);
      EqualNamesHashAlike(l, r);
    }
  }

  // ---- the table ----

  /** A chained hash table with a fixed, arbitrary number of buckets. */
  class Headers {
    var buckets: seq<seq<Entry>>
    ghost var contents: Fields

    ghost predicate Valid()
      reads this
    {
      |buckets| > 0 && Folded(contents) && Filed(buckets, contents)
    }

    constructor (n: nat)
      requires n > 0
      ensures Valid() && contents == map[] && |buckets| == n
    {
      buckets := seq(n, _ => []);
      contents := map[];
    }

    /** Walks one bucket with the table's equality. */
    method Find(name: string) returns (b: nat, at: Option<nat>)
      requires Valid()
      ensures b < |buckets| && b == Slot(name, |buckets|)
      ensures at.None? <==> Lower(name) !in contents
      ensures at.Some? ==> at.value < |buckets[b]| && buckets[b][at.value] == contents[Lower(name)]
      ensures at.Some? <==> exists key :: key in contents && SameName(contents[key].name, name)
      ensures at.Some? ==> SameName(buckets[b][at.value].name, name)
    {
      var hash := HashKey(name);
      b := hash % |buckets|;
      forall key | key in contents { EqualIffSameName(contents[key].name, name); }
      var j := 0;
      while j < |buckets[b]|
        invariant j <= |buckets[b]|
        invariant forall k | 0 <= k < j :: Lower(buckets[b][k].name) != Lower(name)
      {
        EqualIffSameName(buckets[b][j].name, name);
        if IsEqual(buckets[b][j].name, name) {
          return b, Some(j);
        }
        j := j + 1;
      }
      if Lower(name) in contents {
        SameFoldSameSlot(contents[Lower(name)].name, name, |buckets|);
      }
      at := None;
    }

    method Has(name: string) returns (r: bool)
      requires Valid()
      ensures r <==> Lookup(contents, name).Some?
      ensures r <==> exists key :: key in contents && SameName(contents[key].name, name)
    {
      var b, at := Find(name);
      r := at.Some?;
    }

    method Get(name: string) returns (r: Option<string>)
      requires Valid()
      ensures r == Lookup(contents, name)
      ensures r.Some? <==> exists key :: key in contents && SameName(contents[key].name, name)
      ensures forall key | key in contents && SameName(contents[key].name, name) :: r == Some(contents[key].value)
    {
      var b, at := Find(name);
      forall key | key in contents { EqualIffSameName(contents[key].name, name); }
      r := if at.Some? then Some(buckets[b][at.value].value) else None;
    }

    method Set(name: string, value: string)
      requires Valid()
      modifies this
      ensures Valid() && |buckets| == old(|buckets|)
      ensures contents == Apply(old(contents), Update.Set(name, value))
    {
      var b, at := Find(name);
      ghost var m := Apply(contents, Update.Set(name, value));
      var bs := buckets;
      if at.Some? {
        ReplaceStaysFiled(bs, contents, name, value, at.value);
        bs := bs[b := bs[b][at.value := Entry(bs[b][at.value].name, value)]];
      } else {
        AppendStaysFiled(bs, contents, name, value);
        bs := bs[b := bs[b] + [Entry(name, value)]];
      }
      assert Folded(m) && Filed(bs, m);
      buckets, contents := bs, m;
    }

    method Remove(name: string)
      requires Valid()
      modifies this
      ensures Valid() && |buckets| == old(|buckets|)
      ensures contents == Apply(old(contents), Update.Remove(name))
    {
      var b, at := Find(name);
      if at.Some? {
        EraseStaysFiled(buckets, contents, name, at.value);
        buckets := buckets[b := buckets[b][..at.value] + buckets[b][at.value + 1..]];
      }
      contents := Apply(contents, Update.Remove(name));
    }

    method Clear()
      requires Valid()
      modifies this
      ensures Valid() && |buckets| == old(|buckets|)
      ensures contents == Apply(old(contents), Update.Clear)
    {
      buckets := seq(|buckets|, _ => []);
      contents := map[];
    }

    /** The entries in iteration order, one "name: value" line each. */
    method Format(empty: bool) returns (text: string, ghost es: seq<Entry>)
      requires Valid()
      ensures Enumerates(es, contents)
      ensures text == FormatText(es, empty)
      ensures contents == map[] ==> text == if empty then "" else "Content-Type: text/plain\r\n"
      ensures contents != map[] ==>
                text == Concat(seq(|es|, i requires 0 <= i < |es| => es[i].name + ": " + es[i].value + "\r\n"))
    {
      text := "";
      es := [];
      for i := 0 to |buckets|
        invariant es == Flatten(buckets[..i]) && text == FormatLines(es)
      {
        assert Flatten(buckets[..i + 1]) == es + buckets[i] by { assert buckets[..i + 1][..i] == buckets[..i]; }
        text, es := FormatBucket(buckets[i], text, es);
      }
      assert es == Flatten(buckets) by { assert buckets[..|buckets|] == buckets; }
      FlattenEnumerates(buckets, contents);
      FormatLinesConcat(es);
      if !empty && text == "" {
        text := DEFAULT_LINE;
      }
    }
  }

  /** The inner part of the format loop: the entries of one bucket. */
  method FormatBucket(bucket: seq<Entry>, text: string, ghost es: seq<Entry>)
    returns (text': string, ghost es': seq<Entry>)
    requires text == FormatLines(es)
    ensures es' == es + bucket && text' == FormatLines(es')
  {
    text', es' := text, es;
    for j := 0 to |bucket|
      invariant es' == es + bucket[..j] && text' == FormatLines(es')
    {
      FormatLinesAppend(es', bucket[j]);
      es' := es' + [bucket[j]];
      text' := text' + bucket[j].name + ": " + bucket[j].value + CRLF;
    }
  }

  /** The printed lines, one after the other. */
  lemma {:induction false} FormatLinesConcat(es: seq<Entry>)
    ensures FormatLines(es) ==
            Concat(seq(|es|, i requires 0 <= i < |es| => es[i].name + ": " + es[i].value + "\r\n"))
  {
    var rows := seq(|es|, i requires 0 <= i < |es| => es[i].name + ": " + es[i].value + "\r\n");
    if es != [] {
      var init, e := es[..|es| - 1], es[|es| - 1];
      FormatLinesConcat(init);
      var rows' := seq(|init|, i requires 0 <= i < |init| => init[i].name + ": " + init[i].value + "\r\n");
      assert rows == rows' + [Row(e)];
      ConcatAppend(rows', Row(e));
    }
  }

  lemma FormatLinesAppend(es: seq<Entry>, e: Entry)
    ensures FormatLines(es + [e]) == FormatLines(es) + e.name + ": " + e.value + CRLF
  {
    assert (es + [e])[..|es|] == es;
  }

  lemma FlattenEnumerates(buckets: seq<seq<Entry>>, contents: Fields)
    requires |buckets| > 0 && Folded(contents) && Filed(buckets, contents)
    ensures Enumerates(Flatten(buckets), contents)
    ensures FormatLines(Flatten(buckets)) == "" <==> Flatten(buckets) == []
  {
    assert buckets[..|buckets|] == buckets;
    FlattenPrefix(buckets, contents, |buckets|);
    var es := Flatten(buckets);
    forall key | key in contents ensures contents[key] in es {
      assert contents[key] in buckets[Slot(contents[key].name, |buckets|)];
    }
  }

  lemma ReplaceStaysFiled(buckets: seq<seq<Entry>>, contents: Fields, name: string, value: string, j: nat)
    requires |buckets| > 0 && Folded(contents) && Filed(buckets, contents)
    requires var b := Slot(name, |buckets|);
             j < |buckets[b]| && Lower(name) in contents && buckets[b][j] == contents[Lower(name)]
    ensures var b := Slot(name, |buckets|);
            var m := Apply(contents, Update.Set(name, value));
            Folded(m) && Filed(buckets[b := buckets[b][j := Entry(buckets[b][j].name, value)]], m)
  {
    hide Slot, Lower;
    var b := Slot(name, |buckets|);
    var m, e := Apply(contents, Update.Set(name, value)), Entry(buckets[b][j].name, value);
    var bs := buckets[b := buckets[b][j := e]];
    assert bs[b][j] == e;
    assert Sound(bs, m) by {
      forall i, k | 0 <= i < |bs| && 0 <= k < |bs[i]|
        ensures var x := bs[i][k]; Slot(x.name, |bs|) == i && Lower(x.name) in m && m[Lower(x.name)] == x
      {
        if (i, k) != (b, j) {
          assert bs[i][k] == buckets[i][k];
          if i == b { assert Distinct(buckets[b]); }
          if Lower(bs[i][k].name) == Lower(e.name) { SameFoldSameSlot(bs[i][k].name, e.name, |bs|); }
        }
      }
    }
    assert Complete(bs, m) by {
      forall key | key in m ensures m[key] in bs[Slot(m[key].name, |bs|)] {
        if key != Lower(name) {
          var i := Slot(contents[key].name, |buckets|);
          var k :| 0 <= k < |buckets[i]| && buckets[i][k] == contents[key];
          assert bs[i][k] == m[key];
        }
      }
    }
    forall i | 0 <= i < |bs| ensures Distinct(bs[i]) { assert Distinct(buckets[i]); }
  }

  lemma AppendStaysFiled(buckets: seq<seq<Entry>>, contents: Fields, name: string, value: string)
    requires |buckets| > 0 && Folded(contents) && Filed(buckets, contents)
    requires Lower(name) !in contents
    ensures var b := Slot(name, |buckets|);
            var m := Apply(contents, Update.Set(name, value));
            Folded(m) && Filed(buckets[b := buckets[b] + [Entry(name, value)]], m)
  {
    hide Slot;
    var b := Slot(name, |buckets|);
    var m := Apply(contents, Update.Set(name, value));
    var bs := buckets[b := buckets[b] + [Entry(name, value)]];
    assert bs[b][|buckets[b]|] == Entry(name, value);
    assert Complete(bs, m) by {
      forall key | key in m ensures m[key] in bs[Slot(m[key].name, |bs|)] {
        if key != Lower(name) {
          assert contents[key] in buckets[Slot(contents[key].name, |buckets|)];
        }
      }
    }
    forall i | 0 <= i < |bs| ensures Distinct(bs[i]) { assert Distinct(buckets[i]); }
  }

  /** A bucket without its entry at j. */
  function Erased(bucket: seq<Entry>, j: nat): seq<Entry>
    requires j < |bucket|
  {
    bucket[..j] + bucket[j + 1..]
  }

  lemma ErasedBucket(bucket: seq<Entry>, j: nat, e: Entry)
    requires j < |bucket| && Distinct(bucket)
    ensures Distinct(Erased(bucket, j))
    ensures e in Erased(bucket, j) <==> e in bucket && Lower(e.name) != Lower(bucket[j].name)
  {
    var es := Erased(bucket, j);
    assert forall k | 0 <= k < |es| :: es[k] == bucket[if k < j then k else k + 1];
    if e in bucket && Lower(e.name) != Lower(bucket[j].name) {
      var k :| 0 <= k < |bucket| && bucket[k] == e;
      assert es[if k < j then k else k - 1] == e;
    }
  }

  lemma EraseStaysFiled(buckets: seq<seq<Entry>>, contents: Fields, name: string, j: nat)
    requires |buckets| > 0 && Folded(contents) && Filed(buckets, contents)
    requires var b := Slot(name, |buckets|);
             j < |buckets[b]| && Lower(name) in contents && buckets[b][j] == contents[Lower(name)]
    ensures var b := Slot(name, |buckets|);
            var m := Apply(contents, Update.Remove(name));
            Folded(m) && Filed(buckets[b := buckets[b][..j] + buckets[b][j + 1..]], m)
  {
    hide Slot, Lower;
    var b := Slot(name, |buckets|);
    var m := Apply(contents, Update.Remove(name));
    var bs := buckets[b := buckets[b][..j] + buckets[b][j + 1..]];
    assert Distinct(buckets[b]);
    forall i | 0 <= i < |bs| ensures Distinct(bs[i]) {
      ErasedBucket(buckets[b], j, buckets[b][j]);
      assert Distinct(buckets[i]);
    }
    forall i, k | 0 <= i < |bs| && 0 <= k < |bs[i]|
      ensures var x := bs[i][k]; Slot(x.name, |bs|) == i && Lower(x.name) in m && m[Lower(x.name)] == x
    {
      var x := bs[i][k];
      ErasedBucket(buckets[b], j, x);
      SameFoldSameSlot(x.name, buckets[b][j].name, |bs|);
      assert x in bs[i] && x in buckets[i];
    }
    forall key | key in m ensures m[key] in bs[Slot(m[key].name, |bs|)] {
      ErasedBucket(buckets[b], j, m[key]);
      assert contents[key] in buckets[Slot(contents[key].name, |buckets|)];
    }
  }
}
