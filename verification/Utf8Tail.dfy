/** Tail truncation at a rune boundary (UTF-8, section 4 of RFC 3629). */
module Utf8Tail {

  type Byte = x: int | 0 <= x < 256

  predicate Continuation(b: Byte) { 0x80 <= b < 0xC0 }

  predicate RuneStart(b: Byte) { !Continuation(b) }

  /** The number of bytes of the rune that text starts with; 0 when it does not start
      with a well-formed one (overlong forms, surrogates and values past U+10FFFF). */
  function RuneWidth(text: seq<Byte>): (width: nat)
    ensures width <= 4 && width <= |text|
  {
    if text == [] then 0
    else
      var lead := text[0];
      if lead < 0x80 then 1
      else if 0xC2 <= lead <= 0xDF then
        if |text| >= 2 && Continuation(text[1]) then 2 else 0
      else if 0xE0 <= lead <= 0xEF then
        var low := if lead == 0xE0 then 0xA0 else 0x80;
        var high := if lead == 0xED then 0x9F else 0xBF;
        if |text| >= 3 && low <= text[1] <= high && Continuation(text[2]) then 3 else 0
      else if 0xF0 <= lead <= 0xF4 then
        var low := if lead == 0xF0 then 0x90 else 0x80;
        var high := if lead == 0xF4 then 0x8F else 0xBF;
        if |text| >= 4 && low <= text[1] <= high && Continuation(text[2]) && Continuation(text[3]) then 4 else 0
      else 0
  }

  predicate ValidUtf8(text: seq<Byte>)
    decreases |text|
  {
    text == [] || (RuneWidth(text) > 0 && ValidUtf8(text[RuneWidth(text)..]))
  }

  /** The first rune boundary at or after start. */
  function AlignedStart(text: seq<Byte>, start: nat): (r: nat)
    requires start <= |text|
    ensures start <= r <= |text|
    ensures r < |text| ==> RuneStart(text[r])
    ensures forall k :: start <= k < r ==> Continuation(text[k])
    decreases |text| - start
  {
    if start < |text| && !RuneStart(text[start]) then AlignedStart(text, start + 1) else start
  }

  /** What is kept of text when at most maxBytes of it fit. */
  function Tail(text: seq<Byte>, maxBytes: int): (tail: seq<Byte>)
    ensures maxBytes >= 0 ==> |tail| <= maxBytes
    ensures |tail| <= |text| && tail == text[|text| - |tail|..]
  {
    if maxBytes >= |text| then text
    else if maxBytes <= 0 then []
    else text[AlignedStart(text, |text| - maxBytes)..]
  }

  method ValidTail(text: seq<Byte>, maxBytes: int) returns (tail: seq<Byte>)
    ensures tail == Tail(text, maxBytes)
  {
    if maxBytes >= |text| { return text; }
    if maxBytes <= 0 { return []; }
    var start := |text| - maxBytes;
    while start < |text| && !RuneStart(text[start])
      invariant |text| - maxBytes <= start <= |text|
      invariant AlignedStart(text, start) == AlignedStart(text, |text| - maxBytes)
    {
      start := start + 1;
    }
    return text[start..];
  }

  /** Cutting valid text at a rune start leaves valid text. */
  lemma {:induction false} SuffixValid(text: seq<Byte>, start: nat)
    requires ValidUtf8(text) && start <= |text|
    requires start < |text| ==> RuneStart(text[start])
    ensures ValidUtf8(text[start..])
    decreases |text|
  {
    if start == 0 || start == |text| {
      assert text[0..] == text;
    } else {
      var w := RuneWidth(text);
      assert start >= w;
      assert text[w..][start - w..] == text[start..];
      SuffixValid(text[w..], start - w);
    }
  }

  /** A valid suffix begins at a rune start. */
  lemma ValidStartsRune(text: seq<Byte>)
    requires ValidUtf8(text) && text != []
    ensures RuneStart(text[0])
  {
  }

  /** In valid text no four consecutive bytes are all continuation bytes. */
  lemma {:induction false} BoundaryWithinFour(text: seq<Byte>, start: nat)
    requires ValidUtf8(text) && start <= |text|
    ensures AlignedStart(text, start) <= start + 3
    decreases |text|
  {
    if start > 0 && start < |text| {
      var w := RuneWidth(text);
      if start >= w {
        BoundaryWithinFour(text[w..], start - w);
        AlignedShift(text, w, start);
      } else {
        if w < |text| { ValidStartsRune(text[w..]); }
        AlignedBy(text, start, w);
      }
    }
  }

  lemma {:induction false} AlignedBy(text: seq<Byte>, start: nat, stop: nat)
    requires start <= stop <= |text| && (stop < |text| ==> RuneStart(text[stop]))
    ensures AlignedStart(text, start) <= stop
    decreases stop - start
  {
    if start < stop { AlignedBy(text, start + 1, stop); }
  }

  lemma {:induction false} AlignedShift(text: seq<Byte>, w: nat, start: nat)
    requires w <= start <= |text|
    ensures AlignedStart(text, start) == w + AlignedStart(text[w..], start - w)
    decreases |text| - start
  {
    if start < |text| && !RuneStart(text[start]) {
      AlignedShift(text, w, start + 1);
    }
  }

  /** The tail of valid text is valid, fits, wastes at most three bytes of its share,
      and is the longest valid suffix that fits. */
  lemma TailIsLongestValid(text: seq<Byte>, maxBytes: nat)
    requires ValidUtf8(text)
    ensures ValidUtf8(Tail(text, maxBytes))
    ensures |text| <= maxBytes ==> Tail(text, maxBytes) == text
    ensures |text| > maxBytes ==> maxBytes - 3 <= |Tail(text, maxBytes)| <= maxBytes
    ensures forall k :: 0 <= k <= |text| && |text| - k <= maxBytes && ValidUtf8(text[k..]) ==>
              |text[k..]| <= |Tail(text, maxBytes)|
  {
    if 0 < maxBytes < |text| {
      var start := |text| - maxBytes;
      SuffixValid(text, AlignedStart(text, start));
      BoundaryWithinFour(text, start);
      forall k | start <= k < |text| && ValidUtf8(text[k..])
        ensures AlignedStart(text, start) <= k
      {
        ValidStartsRune(text[k..]);
        AlignedBy(text, start, k);
      }
    }
  }
}
