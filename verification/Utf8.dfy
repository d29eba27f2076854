/** UTF-8 as RFC 3629 defines it in section 3: the octet sequence of each character number. */
module Utf8 {
  type Byte = b: int | 0 <= b < 256

  /** Character numbers, without those reserved for surrogate pairs. */
  type Char = c: int | 0 <= c <= 0x10FFFF && !(0xD800 <= c <= 0xDFFF)

  /** The low six bits in an octet `10xxxxxx`. */
  function Tail(c: nat): Byte { 0x80 + c % 64 }

  /** The first octet, whose top bits tell how many follow. */
  function Lead(c: Char): Byte {
    if c <= 0x7F then c
    else if c <= 0x7FF then 0xC0 + c / 64
    else if c <= 0xFFFF then 0xE0 + c / 4096
    else 0xF0 + c / 262144
  }

  function Octets(c: Char): (octets: seq<Byte>)
    ensures 1 <= |octets| <= 4
  {
    if c <= 0x7F then [Lead(c)]
    else if c <= 0x7FF then [Lead(c), Tail(c)]
    else if c <= 0xFFFF then [Lead(c), Tail(c / 64), Tail(c)]
    else [Lead(c), Tail(c / 4096), Tail(c / 64), Tail(c)]
  }

  function Encode(text: seq<Char>): seq<Byte> {
    if text == [] then [] else Octets(text[0]) + Encode(text[1..])
  }

  /** A position between two characters, or at either end. */
  ghost predicate Boundary(text: seq<Char>, pos: int) {
    exists k :: 0 <= k <= |text| && pos == |Encode(text[..k])|
  }

  /** The two top bits are `10`. */
  predicate Continuation(b: Byte) { b / 64 == 2 }

  lemma OctetsStart(c: Char)
    ensures forall k :: 0 <= k < |Octets(c)| ==> (Continuation(Octets(c)[k]) <==> k > 0)
  {
  }

  lemma {:induction false} EncodeAppend(a: seq<Char>, b: seq<Char>)
    ensures Encode(a + b) == Encode(a) + Encode(b)
  {
    if a == [] {
      assert a + b == b;
    } else {
      assert (a + b)[1..] == a[1..] + b;
      EncodeAppend(a[1..], b);
    }
  }

  /** A position inside the bytes is a boundary exactly when no continuation octet is there. */
  lemma {:induction false} BoundaryIff(text: seq<Char>, pos: nat)
    requires pos < |Encode(text)|
    ensures Boundary(text, pos) <==> !Continuation(Encode(text)[pos])
  {
    var first := Octets(text[0]);
    var size := |first|;
    OctetsStart(text[0]);
    assert text[..0] == [] && Encode(text[..0]) == [];
    if pos == 0 {
    } else if pos < size {
      forall k | 0 <= k <= |text| ensures pos != |Encode(text[..k])| {
        if k > 0 {
          assert text[..k][0] == text[0];
        }
      }
    } else {
      BoundaryIff(text[1..], pos - size);
      if Boundary(text[1..], pos - size) {
        var k :| 0 <= k <= |text[1..]| && pos - size == |Encode(text[1..][..k])|;
        assert text[..k + 1][1..] == text[1..][..k];
        assert pos == |Encode(text[..k + 1])|;
      }
      if Boundary(text, pos) {
        var k :| 0 <= k <= |text| && pos == |Encode(text[..k])|;
        assert text[..k][1..] == text[1..][..k - 1];
        assert pos - size == |Encode(text[1..][..k - 1])|;
      }
    }
  }

  lemma EndsAreBoundaries(text: seq<Char>)
    ensures Boundary(text, 0) && Boundary(text, |Encode(text)|)
  {
    assert text[..0] == [] && Encode(text[..0]) == [];
    assert text[..|text|] == text;
  }

  /** No four octets in a row are inside a character. */
  lemma {:induction false} BoundaryNearby(text: seq<Char>, pos: nat) returns (near: nat)
    requires pos < |Encode(text)|
    ensures pos - 3 <= near <= pos && !Continuation(Encode(text)[near])
  {
    var size := |Octets(text[0])|;
    OctetsStart(text[0]);
    if pos < size {
      near := 0;
    } else {
      near := BoundaryNearby(text[1..], pos - size);
      near := near + size;
    }
  }
}
