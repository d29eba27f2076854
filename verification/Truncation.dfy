/**
 Cutting UTF-8 text at a byte limit (src/tracing_fmt.rs, src/util.rs). An event buffer collects
 what is written for one log event and cuts it when it is dropped.
 */
module Truncation {
  import opened Decimals
  import opened Utf8

  const LINE_FEED: Byte := 10

  /** The nearest position at or below `pos` without a continuation octet, or 0. */
  function Floor(bytes: seq<Byte>, pos: nat): (cut: nat)
    requires pos == 0 || pos < |bytes|
    ensures cut <= pos
  {
    if pos > 0 && Continuation(bytes[pos]) then Floor(bytes, pos - 1) else pos
  }

  method Utf8Floor(bytes: seq<Byte>, pos: nat) returns (i: nat)
    requires pos == 0 || pos < |bytes|
    ensures i == Floor(bytes, pos)
  {
    i := pos;
    while i > 0 && Continuation(bytes[i])
      invariant i <= pos && Floor(bytes, i) == Floor(bytes, pos)
    {
      i := i - 1;
    }
  }

  /** `str::is_char_boundary` of the standard library. */
  predicate IsCharBoundary(bytes: seq<Byte>, pos: nat) {
    pos == 0 || pos == |bytes| || (pos < |bytes| && !Continuation(bytes[pos]))
  }

  method FloorCharBoundary(bytes: seq<Byte>, pos: nat) returns (i: nat)
    ensures i == if pos >= |bytes| then |bytes| else Floor(bytes, pos)
  {
    if pos >= |bytes| { return |bytes|; }
    i := pos;
    while i > 0 && !IsCharBoundary(bytes, i)
      invariant i <= pos && Floor(bytes, i) == Floor(bytes, pos)
    {
      i := i - 1;
    }
  }

  // ---------------------------------------------------------------- the event buffer

  function Ascii(text: string): seq<Byte>
    requires forall k :: 0 <= k < |text| ==> text[k] as int < 128
  {
    seq(|text|, k requires 0 <= k < |text| => text[k] as int)
  }

  function Suffix(total: nat): (text: string)
    ensures forall k :: 0 <= k < |text| ==> text[k] as int < 128
  {
    assert forall k :: 0 <= k < |ShowNat(total)| ==> Digit(ShowNat(total)[k]);
    "...[" + ShowNat(total) + "B total]\n"
  }

  /** The suffix names the size of the whole in decimal. */
  lemma SuffixNamesTheSize(total: nat) returns (digits: string)
    ensures AllDigits(digits) && Value(digits) == total && Suffix(total) == "...[" + digits + "B total]\n"
  {
    digits := ShowNat(total);
  }

  function Trimmed(bytes: seq<Byte>): seq<Byte> {
    if bytes != [] && bytes[|bytes| - 1] == LINE_FEED then bytes[..|bytes| - 1] else bytes
  }

  function SuffixBytes(total: nat): seq<Byte> { Ascii(Suffix(total)) }

  /** What a dropped buffer writes. */
  function Flushed(buf: seq<Byte>, maxBytes: nat): seq<Byte> {
    if |buf| <= maxBytes then buf else Trimmed(buf[..Floor(buf, maxBytes)]) + SuffixBytes(|buf|)
  }

  class EventBuffer {
    var buf: seq<Byte>
    const maxBytes: nat

    constructor (maxBytes: nat)
      ensures buf == [] && this.maxBytes == maxBytes
    {
      buf, this.maxBytes := [], maxBytes;
    }

    method Write(data: seq<Byte>) returns (written: nat)
      modifies this
      ensures buf == old(buf) + data && written == |data|
    {
      buf := buf + data;
      written := |data|;
    }

    method Drop() returns (output: seq<Byte>)
      ensures output == Flushed(buf, maxBytes)
    {
      if buf == [] { return []; }
      if |buf| <= maxBytes { return buf; }
      var cut := Utf8Floor(buf, maxBytes);
      var trimmed := StripLineFeed(buf[..cut]);
      output := trimmed + SuffixBytes(|buf|);
    }

    method StripLineFeed(cutSlice: seq<Byte>) returns (trimmed: seq<Byte>)
      ensures trimmed == Trimmed(cutSlice)
    {
      trimmed := cutSlice;
      if |cutSlice| > 0 && cutSlice[|cutSlice| - 1] == LINE_FEED {
        trimmed := cutSlice[..|cutSlice| - 1];
      }
    }
  }

  // ---------------------------------------------------------------- what the cut keeps

  lemma {:induction false} FloorStops(bytes: seq<Byte>, pos: nat)
    requires pos == 0 || pos < |bytes|
    ensures Floor(bytes, pos) == 0 || !Continuation(bytes[Floor(bytes, pos)])
    ensures forall n :: Floor(bytes, pos) < n <= pos ==> Continuation(bytes[n])
  {
    if pos > 0 && Continuation(bytes[pos]) {
      FloorStops(bytes, pos - 1);
    }
  }

  /** On valid text the cut is the largest character boundary within the limit, at most three bytes below it. */
  lemma FloorIsLargestBoundary(text: seq<Char>, pos: nat)
    requires pos < |Encode(text)|
    ensures Boundary(text, Floor(Encode(text), pos))
    ensures forall n :: Floor(Encode(text), pos) < n <= pos ==> !Boundary(text, n)
    ensures pos - 3 <= Floor(Encode(text), pos) <= pos
  {
    var bytes := Encode(text);
    var cut := Floor(bytes, pos);
    FloorStops(bytes, pos);
    EndsAreBoundaries(text);
    BoundaryIff(text, cut);
    forall n | cut < n <= pos ensures !Boundary(text, n) {
      BoundaryIff(text, n);
    }
    var near := BoundaryNearby(text, pos);
  }

  /** The same for the polyfill, at every position; the two agree wherever both are defined. */
  lemma FloorCharBoundaryIsLargest(text: seq<Char>, pos: nat, cut: nat)
    requires cut == if pos >= |Encode(text)| then |Encode(text)| else Floor(Encode(text), pos)
    ensures cut <= pos && Boundary(text, cut) && IsCharBoundary(Encode(text), cut)
    ensures forall n :: cut < n <= pos ==> !Boundary(text, n)
  {
    EndsAreBoundaries(text);
    if pos < |Encode(text)| {
      FloorIsLargestBoundary(text, pos);
      FloorStops(Encode(text), pos);
    } else {
      forall n | cut < n <= pos ensures !Boundary(text, n) {
        if Boundary(text, n) { BoundariesAreInside(text, n); }
      }
    }
  }

  lemma BoundariesAreInside(text: seq<Char>, n: nat)
    requires Boundary(text, n)
    ensures n <= |Encode(text)|
  {
    var k :| 0 <= k <= |text| && n == |Encode(text[..k])|;
    assert text == text[..k] + text[k..];
    EncodeAppend(text[..k], text[k..]);
  }

  lemma {:induction false} AsciiIsUtf8(text: string)
    requires forall k :: 0 <= k < |text| ==> text[k] as int < 128
    ensures exists chars: seq<Char> :: Encode(chars) == Ascii(text)
  {
    if text == "" {
      assert Encode([]) == Ascii(text);
    } else {
      AsciiIsUtf8(text[1..]);
      var rest: seq<Char> :| Encode(rest) == Ascii(text[1..]);
      var c: Char := text[0] as int;
      assert ([c] + rest)[1..] == rest;
      assert Encode([c] + rest) == Ascii(text);
    }
  }

  lemma PrefixAtBoundary(text: seq<Char>, cut: nat) returns (k: nat)
    requires Boundary(text, cut)
    ensures k <= |text| && cut <= |Encode(text)| && Encode(text)[..cut] == Encode(text[..k])
  {
    k :| 0 <= k <= |text| && cut == |Encode(text[..k])|;
    assert text == text[..k] + text[k..];
    EncodeAppend(text[..k], text[k..]);
  }

  /** A final line feed octet is a line feed character. */
  lemma TrimmedIsUtf8(text: seq<Char>) returns (kept: nat)
    ensures kept <= |text| && Trimmed(Encode(text)) == Encode(text[..kept])
  {
    kept := |text|;
    assert text[..kept] == text;
    if text != [] {
      var last := text[|text| - 1];
      assert text == text[..|text| - 1] + [last];
      EncodeAppend(text[..|text| - 1], [last]);
      assert Encode([last]) == Octets(last) + [];
      OctetsStart(last);
      var bytes := Encode(text);
      assert bytes[|bytes| - 1] == Octets(last)[|Octets(last)| - 1];
      if bytes[|bytes| - 1] == LINE_FEED {
        kept := |text| - 1;
        assert |Octets(last)| == 1;
      }
    }
  }

  /** The output is the first `k` characters and the suffix; at most one line feed and three bytes are lost below the limit. */
  ghost predicate KeepsPrefix(text: seq<Char>, k: int, maxBytes: nat) {
    && 0 <= k <= |text|
    && Flushed(Encode(text), maxBytes) == Encode(text[..k]) + SuffixBytes(|Encode(text)|)
    && maxBytes - 4 <= |Encode(text[..k])| <= maxBytes
  }

  lemma CutKeepsPrefix(text: seq<Char>, maxBytes: nat) returns (kept: nat)
    requires |Encode(text)| > maxBytes
    ensures KeepsPrefix(text, kept, maxBytes)
  {
    FloorIsLargestBoundary(text, maxBytes);
    var k := PrefixAtBoundary(text, Floor(Encode(text), maxBytes));
    kept := TrimmedIsUtf8(text[..k]);
    assert text[..k][..kept] == text[..kept];
  }

  /**
   Whatever valid text was written, in whatever pieces, what comes out is valid: the text itself
   within the limit, and otherwise a prefix of it, character by character, and the suffix.
   */
  lemma FlushedIsUtf8(text: seq<Char>, maxBytes: nat)
    ensures |Encode(text)| <= maxBytes ==> Flushed(Encode(text), maxBytes) == Encode(text)
    ensures |Encode(text)| > maxBytes ==> exists k :: KeepsPrefix(text, k, maxBytes)
    ensures exists out: seq<Char> :: Flushed(Encode(text), maxBytes) == Encode(out)
  {
    if |Encode(text)| > maxBytes {
      var kept := CutKeepsPrefix(text, maxBytes);
      AsciiIsUtf8(Suffix(|Encode(text)|));
      var tail: seq<Char> :| Encode(tail) == Ascii(Suffix(|Encode(text)|));
      EncodeAppend(text[..kept], tail);
      assert Flushed(Encode(text), maxBytes) == Encode(text[..kept] + tail);
    }
  }
}
