/**
 The server's log line buffer: characters arrive one at a time in a fixed array, and the
 listener gets the held text at every newline or when the array is full.
 */
module LogBuffer {
  import opened Texts

  /** Handed over as soon as possible: at its first newline, or when it fills the buffer. */
  predicate IsPiece(p: string, size: nat) {
    && 0 < |p| <= size
    && (forall i | 0 <= i < |p| - 1 :: p[i] != '\n')
    && (p[|p| - 1] == '\n' || |p| == size)
  }

  /** Not yet due for the listener. */
  predicate IsHeld(h: string, size: nat) {
    |h| < size && '\n' !in h
  }

  /** The input cut greedily; says nothing of any array or offset. */
  ghost predicate IsGreedySplit(pieces: seq<string>, held: string, input: string, size: nat) {
    && Concat(pieces) + held == input
    && (forall p <- pieces :: IsPiece(p, size))
    && IsHeld(held, size)
  }

  /** There is only one greedy split of an input. */
  lemma {:induction false} GreedySplitIsUnique(ps: seq<string>, h: string, qs: seq<string>, k: string,
                                               input: string, size: nat)
    requires IsGreedySplit(ps, h, input, size) && IsGreedySplit(qs, k, input, size)
    ensures ps == qs && h == k
  {
    if ps == [] {
      assert h == input;
      HeldHoldsNoPiece(h, qs, k, size);
      assert "" + k == k;
    } else if qs == [] {
      assert k == input;
      HeldHoldsNoPiece(k, ps, h, size);
    } else {
      var rest := Concat(ps[1..]) + h;
      FirstPieceIsUnique(ps[0], rest, qs[0], Concat(qs[1..]) + k, input, size);
      assert input[|ps[0]|..] == rest == Concat(qs[1..]) + k;
      GreedySplitIsUnique(ps[1..], h, qs[1..], k, rest, size);
      assert ps == [ps[0]] + ps[1..] && qs == [qs[0]] + qs[1..];
    }
  }

  lemma HeldHoldsNoPiece(h: string, qs: seq<string>, k: string, size: nat)
    requires h == Concat(qs) + k && IsHeld(h, size)
    ensures qs == [] || !IsPiece(qs[0], size)
  {
    if qs != [] && qs[0] != "" {
      assert h[|qs[0]| - 1] == qs[0][|qs[0]| - 1];
    }
  }

  lemma FirstPieceIsUnique(p: string, pr: string, q: string, qr: string, input: string, size: nat)
    requires p + pr == input == q + qr
    requires IsPiece(p, size) && IsPiece(q, size)
    ensures p == q
  {
    assert forall i | 0 <= i < |p| :: input[i] == p[i];
    assert forall i | 0 <= i < |q| :: input[i] == q[i];
    assert p == input[..|p|] && q == input[..|q|];
  }

  /** struct server::logger with the listener's invocations kept as a log. */
  class Logger {
    var buffer: array<char>
    var offset: nat
    ghost var emitted: seq<string>
    ghost var input: string

    ghost predicate Valid()
      reads this, buffer
    {
      offset < buffer.Length && IsGreedySplit(emitted, buffer[..offset], input, buffer.Length)
    }

    /** As the server makes it: no buffer yet. */
    constructor ()
      ensures buffer.Length == 0 && offset == 0 && emitted == [] && input == ""
    {
      buffer := new char[0];
      offset := 0;
      emitted, input := [], "";
    }

    /**
     register_logger, at first or again: the buffer is resized, offset and the text held stay. The
     new listener's input starts with that text. A size that does not exceed the offset leaves no room.
     */
    method Register(size: nat)
      requires Valid() || (offset == 0 && emitted == [] && input == "")
      modifies this
      ensures fresh(buffer) && buffer.Length == size && offset == old(offset)
      ensures forall i | 0 <= i < size :: buffer[i] == if i < old(buffer.Length) then old(buffer[i]) else '\0'
      ensures emitted == [] && input == old(buffer[..offset])
      ensures Valid() <==> old(offset) < size
    {
      var resized := new char[size](i requires 0 <= i < size reads this, buffer =>
        if i < buffer.Length then buffer[i] else '\0');
      emitted, input := [], buffer[..offset];
      assert offset < size ==> resized[..offset] == buffer[..offset];
      buffer := resized;
    }

    /** event_manager_logger: one character. */
    method Log(ch: char)
      requires Valid()
      modifies this, buffer
      ensures Valid() && buffer == old(buffer)
      ensures input == old(input) + [ch]
      ensures if ch == '\n' || old(offset) + 1 == buffer.Length
              then offset == 0 && emitted == old(emitted) + [old(buffer[..offset]) + [ch]]
              else emitted == old(emitted) && offset == old(offset) + 1 &&
                   buffer[..offset] == old(buffer[..offset]) + [ch]
    {
      ghost var held := buffer[..offset];
      buffer[offset] := ch;
      offset := offset + 1;
      input := input + [ch];
      assert buffer[..offset] == held + [ch];
      if ch == '\n' || offset >= buffer.Length {
        emitted := emitted + [buffer[..offset]];
        ConcatAppend(old(emitted), held + [ch]);
        assert IsPiece(held + [ch], buffer.Length);
        offset := 0;
        assert Concat(emitted) + buffer[..0] == input;
      } else {
        assert Concat(emitted) + (held + [ch]) == input;
      }
    }

    /** A whole run: after any text the listener has been given the one greedy split of all its input. */
    method LogAll(text: string)
      requires Valid()
      modifies this, buffer
      ensures Valid() && buffer == old(buffer) && input == old(input) + text
      ensures forall ps, h :: IsGreedySplit(ps, h, input, buffer.Length) ==> emitted == ps && buffer[..offset] == h
    {
      for i := 0 to |text|
        invariant Valid() && buffer == old(buffer) && input == old(input) + text[..i]
      {
        Log(text[i]);
        assert text[..i + 1] == text[..i] + [text[i]];
      }
      assert text[..|text|] == text;
      forall ps, h | IsGreedySplit(ps, h, input, buffer.Length) ensures emitted == ps && buffer[..offset] == h {
        GreedySplitIsUnique(emitted, buffer[..offset], ps, h, input, buffer.Length);
      }
    }
  }
}
