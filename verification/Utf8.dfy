/** UTF-8 as section 4 of RFC 3629 defines it: the code points some bytes encode,
    if they are well formed. */
module Utf8 {
  import opened Results

  predicate Continues(bytes: seq<int>, i: nat, low: int, high: int) {
    i < |bytes| && low <= bytes[i] <= high
  }

  /** The length of the sequence some bytes begin with, if they begin with one. */
  function SequenceLength(bytes: seq<int>): Option<nat> {
    if bytes == [] then None
    else
      var b := bytes[0];
      if 0 <= b < 0x80 then Some(1)
      else if 0xC2 <= b <= 0xDF && Continues(bytes, 1, 0x80, 0xBF) then Some(2)
      else if 0xE0 <= b <= 0xEF && Continues(bytes, 1, if b == 0xE0 then 0xA0 else 0x80, if b == 0xED then 0x9F else 0xBF)
              && Continues(bytes, 2, 0x80, 0xBF) then Some(3)
      else if 0xF0 <= b <= 0xF4 && Continues(bytes, 1, if b == 0xF0 then 0x90 else 0x80, if b == 0xF4 then 0x8F else 0xBF)
              && Continues(bytes, 2, 0x80, 0xBF) && Continues(bytes, 3, 0x80, 0xBF) then Some(4)
      else None
  }

  function CodePoint(bytes: seq<int>, length: nat): (c: int)
    requires SequenceLength(bytes) == Some(length)
    ensures 0 <= c < 0xD800 || 0xE000 <= c < 0x11_0000
  {
    if length == 1 then bytes[0]
    else if length == 2 then (bytes[0] - 0xC0) * 64 + (bytes[1] - 0x80)
    else if length == 3 then ((bytes[0] - 0xE0) * 64 + (bytes[1] - 0x80)) * 64 + (bytes[2] - 0x80)
    else (((bytes[0] - 0xF0) * 64 + (bytes[1] - 0x80)) * 64 + (bytes[2] - 0x80)) * 64 + (bytes[3] - 0x80)
  }

  function Decode(bytes: seq<int>): Option<string> {
    if bytes == [] then Some("")
    else match SequenceLength(bytes)
      case None => None
      case Some(n) =>
        match Decode(bytes[n..])
        case None => None
        case Some(rest) => Some([CodePoint(bytes, n) as char] + rest)
  }

  // --- encoding

  function Encode(c: char): (bytes: seq<int>)
    ensures 1 <= |bytes| <= 4
  {
    var v := c as int;
    if v < 0x80 then [v]
    else if v < 0x800 then [0xC0 + v / 64, 0x80 + v % 64]
    else if v < 0x1_0000 then [0xE0 + v / 4096, 0x80 + v / 64 % 64, 0x80 + v % 64]
    else [0xF0 + v / 262144, 0x80 + v / 4096 % 64, 0x80 + v / 64 % 64, 0x80 + v % 64]
  }

  function EncodeAll(s: string): seq<int> {
    if s == "" then [] else Encode(s[0]) + EncodeAll(s[1..])
  }

  /** What the four digits of a number to base 64 are. */
  lemma Digits64(w: nat, x: nat, y: nat, z: nat, v: nat)
    requires x < 64 && y < 64 && z < 64 && v == ((w * 64 + x) * 64 + y) * 64 + z
    ensures v % 64 == z && v / 64 == (w * 64 + x) * 64 + y && v / 64 % 64 == y
    ensures v / 4096 == w * 64 + x && v / 4096 % 64 == x && v / 262144 == w
  {
  }

  lemma DigitsOf(v: nat) returns (w: nat, x: nat, y: nat, z: nat)
    ensures x < 64 && y < 64 && z < 64 && v == ((w * 64 + x) * 64 + y) * 64 + z
  {
    w, x, y, z := v / 262144, v / 4096 % 64, v / 64 % 64, v % 64;
  }

  /** A character's bytes are read as that character. */
  lemma EncodedRead(c: char, rest: seq<int>)
    ensures var bytes := Encode(c) + rest;
            SequenceLength(bytes) == Some(|Encode(c)|) && CodePoint(bytes, |Encode(c)|) == c as int
  {
    var v := c as int;
    assert v < 0xD800 || 0xE000 <= v < 0x11_0000;
    var w, x, y, z := DigitsOf(v);
    Digits64(w, x, y, z, v);
    var bytes := Encode(c) + rest;
    assert forall i :: 0 <= i < |Encode(c)| ==> bytes[i] == Encode(c)[i];
  }

  /** Bytes that are read as a character are its own, and no others. */
  lemma ReadEncoded(bytes: seq<int>, n: nat)
    requires SequenceLength(bytes) == Some(n)
    ensures n <= |bytes| && Encode(CodePoint(bytes, n) as char) == bytes[..n]
  {
    var v := CodePoint(bytes, n);
    if n == 2 {
      Digits64(0, 0, bytes[0] - 0xC0, bytes[1] - 0x80, v);
    } else if n == 3 {
      Digits64(0, bytes[0] - 0xE0, bytes[1] - 0x80, bytes[2] - 0x80, v);
    } else if n == 4 {
      Digits64(bytes[0] - 0xF0, bytes[1] - 0x80, bytes[2] - 0x80, bytes[3] - 0x80, v);
    }
  }

  /** Decoding is the inverse of encoding, on all bytes and all texts: of what
      encodes no text nothing is read, overlong forms and surrogates included. */
  lemma {:induction false} DecodeInvertsEncode(bytes: seq<int>, s: string)
    ensures Decode(bytes) == Some(s) <==> EncodeAll(s) == bytes
    decreases |bytes| + |s|
  {
    hide CodePoint, SequenceLength, Encode;
    if bytes == [] {
    } else if SequenceLength(bytes).Some? {
      var n := SequenceLength(bytes).value;
      LengthPositive(bytes);
      ReadEncoded(bytes, n);
      var c := CodePoint(bytes, n) as char;
      assert bytes == bytes[..n] + bytes[n..];
      if s != "" {
        DecodeInvertsEncode(bytes[n..], s[1..]);
        if EncodeAll(s) == bytes {
          EncodedRead(s[0], EncodeAll(s[1..]));
          assert s[0] == c && s == [c] + s[1..];
          assert (Encode(c) + EncodeAll(s[1..]))[n..] == EncodeAll(s[1..]);
        }
        if Decode(bytes) == Some(s) {
          var rest := Decode(bytes[n..]).value;
          assert s == [c] + rest;
          assert s[0] == c && s[1..] == rest;
        }
      }
    } else if s != "" && EncodeAll(s) == bytes {
      EncodedRead(s[0], EncodeAll(s[1..]));
      assert false;
    }
  }

  lemma LengthPositive(bytes: seq<int>)
    ensures SequenceLength(bytes).Some? ==> 1 <= SequenceLength(bytes).value <= 4
  {
  }
}
