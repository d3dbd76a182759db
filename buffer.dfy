/** The per-collection buffer: pre-serialised record payloads, a running
    byte counter, and the JSON array that a flush sends. */
module Buffers {
  import opened Bytes
  import opened Objects

  const LeftBracket: byte := 0x5B   // '['
  const Comma: byte := 0x2C         // ','
  const RightBracket: byte := 0x5D  // ']'

  /** The sum of the payloads' lengths. */
  function TotalSize(es: seq<Bytes>): nat
  {
    if es == [] then 0 else TotalSize(es[..|es| - 1]) + |es[|es| - 1]|
  }

  lemma TotalSizeAppend(es: seq<Bytes>, x: Bytes)
    ensures TotalSize(es + [x]) == TotalSize(es) + |x|
  {
    assert (es + [x])[..|es|] == es;
  }

  /** `bytes.Join`: the payloads in order with one separator between each
      neighbouring pair. */
  function Join(es: seq<Bytes>, sep: byte): Bytes
  {
    if |es| == 0 then []
    else if |es| == 1 then es[0]
    else Join(es[..|es| - 1], sep) + [sep] + es[|es| - 1]
  }

  /** What `marshalArray` produces: '[' + the payloads joined by ',' + ']'. */
  function JsonArray(es: seq<Bytes>): Bytes
  {
    [LeftBracket] + Join(es, Comma) + [RightBracket]
  }

  /** The number of separators between n payloads. */
  function Separators(n: nat): nat
  {
    if n == 0 then 0 else n - 1
  }

  lemma {:induction false} JoinLength(es: seq<Bytes>, sep: byte)
    ensures |Join(es, sep)| == TotalSize(es) + Separators(|es|)
  {
    if |es| == 1 {
      assert es == [] + [es[0]];
      TotalSizeAppend([], es[0]);
    } else if |es| > 1 {
      var init := es[..|es| - 1];
      JoinLength(init, sep);
      assert es == init + [es[|es| - 1]];
      TotalSizeAppend(init, es[|es| - 1]);
    }
  }

  /** An empty buffer marshals to exactly `[]`. */
  lemma JsonArrayEmpty()
    ensures JsonArray([]) == [LeftBracket, RightBracket]
  {
  }

  /** The output is two brackets, the payload bytes, and one comma between
      each neighbouring pair: `2 + size() + max(count() - 1, 0)`. */
  lemma JsonArrayLength(es: seq<Bytes>)
    ensures |JsonArray(es)| == 2 + TotalSize(es) + Separators(|es|)
  {
    JoinLength(es, Comma);
  }

  /** Where payload i starts inside the joined bytes. */
  function JoinOffset(es: seq<Bytes>, i: nat): nat
    requires i <= |es|
  {
    TotalSize(es[..i]) + i
  }

  /** The last payload ends the joined bytes. */
  lemma JoinAtLast(es: seq<Bytes>, sep: byte)
    requires |es| > 0
    ensures JoinOffset(es, |es| - 1) + |es[|es| - 1]| == |Join(es, sep)|
    ensures Join(es, sep)[JoinOffset(es, |es| - 1)..] == es[|es| - 1]
  {
    var n := |es|;
    var init := es[..n - 1];
    assert es[..n - 1] == init;
    JoinLength(init, sep);
    if n == 1 {
      assert init == [];
    } else {
      assert Join(es, sep) == Join(init, sep) + [sep] + es[n - 1];
    }
  }

  lemma {:induction false} JoinAt(es: seq<Bytes>, sep: byte, i: nat)
    requires i < |es|
    ensures JoinOffset(es, i) + |es[i]| <= |Join(es, sep)|
    ensures Join(es, sep)[JoinOffset(es, i)..JoinOffset(es, i) + |es[i]|] == es[i]
    ensures i + 1 < |es| ==> JoinOffset(es, i) + |es[i]| < |Join(es, sep)|
    ensures i + 1 < |es| ==> Join(es, sep)[JoinOffset(es, i) + |es[i]|] == sep
    ensures i + 1 == |es| ==> JoinOffset(es, i) + |es[i]| == |Join(es, sep)|
  {
    var n := |es|;
    if i == n - 1 {
      JoinAtLast(es, sep);
    } else {
      var init := es[..n - 1];
      var j := Join(init, sep);
      assert Join(es, sep) == j + [sep] + es[n - 1];
      JoinAt(init, sep, i);
      assert init[..i] == es[..i];
      var o := JoinOffset(es, i);
      assert JoinOffset(init, i) == o;
      assert Join(es, sep)[o..o + |es[i]|] == j[o..o + |es[i]|];
      if i + 1 < n - 1 {
        assert Join(es, sep)[o + |es[i]|] == j[o + |es[i]|];
      } else {
        assert o + |es[i]| == |j|;
      }
    }
  }

  /** Byte-exactness of `marshalArray`: it opens with '[', every payload sits
      unchanged at its own offset, in insertion order, and is followed by ','
      or, for the last one, by the closing ']'. */
  lemma JsonArrayAt(es: seq<Bytes>, i: nat)
    requires i < |es|
    ensures JsonArray(es)[0] == LeftBracket
    ensures 1 + JoinOffset(es, i) + |es[i]| < |JsonArray(es)|
    ensures JsonArray(es)[1 + JoinOffset(es, i)..1 + JoinOffset(es, i) + |es[i]|] == es[i]
    ensures JsonArray(es)[1 + JoinOffset(es, i) + |es[i]|] == if i + 1 < |es| then Comma else RightBracket
  {
    JoinAt(es, Comma, i);
    var j := Join(es, Comma);
    var o := JoinOffset(es, i);
    assert JsonArray(es)[1 + o..1 + o + |es[i]|] == j[o..o + |es[i]|];
  }

  // The array production of section 5 of RFC 8259, without the optional
  // whitespace:  array = begin-array [ value *( value-separator value ) ] end-array

  /** `value *( value-separator value )`, read from the front. */
  function ValueList(es: seq<Bytes>): Bytes
  {
    if es == [] then [] else es[0] + MoreValues(es[1..])
  }

  /** `*( value-separator value )`. */
  function MoreValues(es: seq<Bytes>): Bytes
  {
    if es == [] then [] else [Comma] + es[0] + MoreValues(es[1..])
  }

  /** The text of a JSON array whose elements are `es`, in order. */
  function ArrayText(es: seq<Bytes>): Bytes
  {
    [LeftBracket] + ValueList(es) + [RightBracket]
  }

  lemma {:induction false} MoreValuesAppend(es: seq<Bytes>, x: Bytes)
    ensures MoreValues(es + [x]) == MoreValues(es) + [Comma] + x
  {
    if es == [] {
      assert ([] + [x])[1..] == [];
    } else {
      assert (es + [x])[1..] == es[1..] + [x];
      MoreValuesAppend(es[1..], x);
    }
  }

  lemma {:induction false} JoinIsValueList(es: seq<Bytes>)
    ensures Join(es, Comma) == ValueList(es)
  {
    var n := |es|;
    if n == 1 {
      assert es[1..] == [];
    } else if n > 1 {
      var init := es[..n - 1];
      JoinIsValueList(init);
      assert init[0] == es[0];
      assert es[1..] == init[1..] + [es[n - 1]];
      MoreValuesAppend(init[1..], es[n - 1]);
    }
  }

  /** Whenever every payload is a JSON value, `marshalArray`'s output is the
      JSON array (section 5 of RFC 8259) whose elements are those payloads in
      insertion order. */
  lemma JsonArrayIsArrayText(es: seq<Bytes>)
    ensures JsonArray(es) == ArrayText(es)
  {
    JoinIsValueList(es);
  }

  /** `buffer`: one collection's mailbox and accumulated payloads. */
  class Buffer {
    const collection: GoString
    /** `Channel`, the worker's mailbox, oldest record first. */
    var channel: seq<Object>
    var buf: seq<Bytes>
    var currentByteSize: int

    /** The byte counter is the total length of the buffered payloads. */
    ghost predicate Valid()
      reads this`buf, this`currentByteSize
    {
      currentByteSize == TotalSize(buf)
    }

    /** Nothing is buffered and nothing waits in the mailbox. */
    ghost predicate Drained()
      reads this`buf, this`currentByteSize, this`channel
    {
      Valid() && buf == [] && channel == []
    }

    /** `newBuffer`. */
    constructor (collection: GoString)
      ensures Valid()
      ensures this.collection == collection
      ensures buf == [] && currentByteSize == 0 && channel == []
    {
      this.collection := collection;
      channel := [];
      buf := [];
      currentByteSize := 0;
    }

    /** `add`: append one payload. */
    method Add(x: Bytes)
      requires Valid()
      modifies this`buf, this`currentByteSize
      ensures Valid()
      ensures buf == old(buf) + [x]
      ensures currentByteSize == old(currentByteSize) + |x|
    {
      TotalSizeAppend(buf, x);
      buf := buf + [x];
      currentByteSize := currentByteSize + |x|;
    }

    /** `Channel <- o`: the record joins the end of the mailbox. */
    method Send(o: Object)
      modifies this`channel
      ensures channel == old(channel) + [o]
    {
      channel := channel + [o];
    }

    /** `size`. */
    method Size() returns (n: int)
      requires Valid()
      ensures n == TotalSize(buf)
    {
      n := currentByteSize;
    }

    /** `count`. */
    method Count() returns (n: nat)
      ensures n == |buf|
    {
      n := |buf|;
    }

    /** `reset`: empty the payloads and the counter; the collection and the
        mailbox are untouched. */
    method Reset()
      modifies this`buf, this`currentByteSize
      ensures Valid()
      ensures buf == [] && currentByteSize == 0
    {
      buf := [];
      currentByteSize := 0;
    }

    /** `marshalArray`. */
    method MarshalArray() returns (rm: Bytes)
      ensures rm == JsonArray(buf)
    {
      rm := Join(buf, Comma);
      rm := [LeftBracket] + rm;
      rm := rm + [RightBracket];
    }
  }
}
