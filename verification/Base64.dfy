/** Base64 with the standard alphabet (section 4 of RFC 4648): an encoder that
    leaves the padding off, and a decoder that wants it. */
module Base64 {
  import opened Results

  predicate AreBytes(b: seq<int>) {
    forall i :: 0 <= i < |b| ==> 0 <= b[i] < 256
  }

  function Letter(v: nat): char
    requires v < 64
  {
    if v < 26 then ('A' as int + v) as char
    else if v < 52 then ('a' as int + (v - 26)) as char
    else if v < 62 then ('0' as int + (v - 52)) as char
    else if v == 62 then '+' else '/'
  }

  function Value(c: char): (v: Option<nat>)
    ensures v.Some? ==> v.value < 64
  {
    if 'A' <= c <= 'Z' then Some(c as int - 'A' as int)
    else if 'a' <= c <= 'z' then Some(c as int - 'a' as int + 26)
    else if '0' <= c <= '9' then Some(c as int - '0' as int + 52)
    else if c == '+' then Some(62)
    else if c == '/' then Some(63)
    else None
  }

  lemma LetterValue(v: nat, c: char)
    requires v < 64
    ensures Value(Letter(v)) == Some(v)
    ensures Value(c).Some? ==> Letter(Value(c).value) == c
    ensures Letter(v) != '='
  {
  }

  // --- the decoder

  function Joined(front: seq<int>, rest: Option<seq<int>>): Option<seq<int>> {
    match rest
    case None => None
    case Some(more) => Some(front + more)
  }

  lemma JoinTwice(a: seq<int>, b: seq<int>, rest: Option<seq<int>>)
    ensures Joined(a, Joined(b, rest)) == Joined(a + b, rest)
    ensures Joined([], rest) == rest
  {
    if rest.Some? {
      assert a + (b + rest.value) == a + b + rest.value;
      assert [] + rest.value == rest.value;
    }
  }

  /** How many bytes of the text are before its trailing `=`s. */
  function BodyLength(text: string): (n: nat)
    ensures n <= |text|
    ensures n > 0 ==> text[n - 1] != '='
    ensures forall i :: n <= i < |text| ==> text[i] == '='
  {
    if text != "" && text[|text| - 1] == '=' then BodyLength(text[..|text| - 1]) else |text|
  }

  /** The decoder's accumulator: some bits not yet put out. */
  predicate Carried(acc: nat, bits: nat) {
    (bits == 0 && acc == 0) || (bits == 2 && acc < 4) || (bits == 4 && acc < 16) || (bits == 6 && acc < 64)
  }

  predicate Left(left: nat) {
    left == 0 || left == 2 || left == 4
  }

  /** `all >> left`. */
  function Shifted(all: nat, left: nat): nat
    requires Left(left)
  {
    if left == 4 then all / 16 else if left == 2 then all / 4 else all
  }

  /** The `left` low bits of `all`. */
  function Masked(all: nat, left: nat): nat
    requires Left(left)
  {
    if left == 4 then all % 16 else if left == 2 then all % 4 else 0
  }

  function Decoded(body: string, acc: nat, bits: nat): (r: Option<seq<int>>)
    requires Carried(acc, bits)
    decreases |body|
  {
    if body == "" then Some([])
    else
      match Value(body[0])
      case None => None
      case Some(v) =>
        var all := acc * 64 + v;
        if bits + 6 >= 8 then
          var left := bits - 2;
          Joined([Shifted(all, left)], Decoded(body[1..], Masked(all, left), left))
        else Decoded(body[1..], all, 6)
  }

  predicate WellPadded(text: string) {
    |text| % 4 == 0 && |text| - BodyLength(text) <= 2
  }

  function Decode(text: string): Option<seq<int>> {
    if WellPadded(text) then Decoded(text[..BodyLength(text)], 0, 0) else None
  }

  method Base64Decode(text: string) returns (r: Option<seq<int>>)
    ensures r == Decode(text)
  {
    hide Decoded;
    var n := |text|;
    while n > 0 && text[n - 1] == '='
      invariant 0 <= n <= |text| && BodyLength(text[..n]) == BodyLength(text)
    {
      assert text[..n][..n - 1] == text[..n - 1];
      n := n - 1;
    }
    assert text[..|text|] == text;
    if |text| % 4 != 0 || |text| - n > 2 {
      return None;
    }
    r := DecodeBody(text[..n]);
  }

  /** Six bits in for every letter, eight out as soon as they are there. */
  method DecodeBody(body: string) returns (r: Option<seq<int>>)
    ensures Carried(0, 0) && r == Decoded(body, 0, 0)
  {
    var out: seq<int> := [];
    var acc: nat, bits: nat := 0, 0;
    var i := 0;
    ghost var spec := Decoded(body, 0, 0);
    assert body[0..] == body;
    JoinTwice([], [], spec);
    while i < |body|
      invariant i <= |body| && Carried(acc, bits)
      invariant spec == Joined(out, Decoded(body[i..], acc, bits))
    {
      assert body[i..][1..] == body[i + 1..];
      var v := Value(body[i]);
      if v.None? {
        return None;
      }
      acc := acc * 64 + v.value;
      bits := bits + 6;
      if bits >= 8 {
        bits := bits - 8;
        JoinTwice(out, [Shifted(acc, bits)], Decoded(body[i + 1..], Masked(acc, bits), bits));
        out := out + [Shifted(acc, bits)];
        acc := Masked(acc, bits);
      }
      i := i + 1;
    }
    assert body[i..] == "" && out + [] == out;
    return Some(out);
  }

  // --- the encoder

  function ByteAt(b: seq<int>, i: nat): (c: nat)
    ensures c < 256
  {
    if i < |b| && 0 <= b[i] < 256 then b[i] else 0
  }

  /** Three bytes' 24 bits, six at a time. */
  function Group(b: seq<int>, i: nat): (v: nat)
    requires i < 4
    ensures v < 64
  {
    if i == 0 then ByteAt(b, 0) / 4
    else if i == 1 then ByteAt(b, 0) % 4 * 16 + ByteAt(b, 1) / 16
    else if i == 2 then ByteAt(b, 1) % 16 * 4 + ByteAt(b, 2) / 64
    else ByteAt(b, 2) % 64
  }

  /** The letters of a group from the `i`-th to the `n`-th, and then more. */
  function Letters(b: seq<int>, i: nat, n: nat, rest: string): string
    requires i <= n <= 4
    decreases n - i
  {
    if i == n then rest else [Letter(Group(b, i))] + Letters(b, i + 1, n, rest)
  }

  function Encode(b: seq<int>): string
    decreases |b|
  {
    if b == [] then ""
    else if |b| < 3 then Letters(b, 0, |b| + 1, "")
    else Letters(b, 0, 4, Encode(b[3..]))
  }

  lemma Parts(q: nat, r: nat)
    ensures r < 64 ==> (q * 64 + r) / 64 == q && (q * 64 + r) % 64 == r
    ensures r < 4096 ==> (q * 4096 + r) / 4096 == q
    ensures r < 262144 ==> (q * 262144 + r) / 262144 == q
  {
  }

  /** Four six-bit numbers make one of 24 bits; a shift and a mask give each back. */
  lemma Sextets(a: nat, b: nat, c: nat, d: nat, n: nat)
    requires a < 64 && b < 64 && c < 64 && d < 64 && n == a * 262144 + b * 4096 + c * 64 + d
    ensures n / 262144 % 64 == a && n / 4096 % 64 == b && n / 64 % 64 == c && n % 64 == d
  {
    Parts(a, b * 4096 + c * 64 + d);
    Parts(a * 64 + b, c * 64 + d);
    Parts(a, b);
    Parts(a * 4096 + b * 64 + c, d);
    Parts(a * 64 + b, c);
    assert n == a * 262144 + (b * 4096 + c * 64 + d);
    assert n == (a * 64 + b) * 4096 + (c * 64 + d);
    assert n == (a * 4096 + b * 64 + c) * 64 + d;
    assert a * 4096 + b * 64 + c == (a * 64 + b) * 64 + c;
  }

  /** A shift and a mask of the 24-bit number are the six bits at that place. */
  lemma GroupIs(b: seq<int>, n: int)
    requires n == ByteAt(b, 0) * 65536 + ByteAt(b, 1) * 256 + ByteAt(b, 2)
    ensures n / 262144 % 64 == Group(b, 0) && n / 4096 % 64 == Group(b, 1)
    ensures n / 64 % 64 == Group(b, 2) && n % 64 == Group(b, 3)
  {
    hide ByteAt;
    Whole(ByteAt(b, 0), ByteAt(b, 1), ByteAt(b, 2));
    Sextets(Group(b, 0), Group(b, 1), Group(b, 2), Group(b, 3), n);
  }

  lemma Whole(c0: nat, c1: nat, c2: nat)
    ensures c0 * 65536 + c1 * 256 + c2 == c0 / 4 * 262144 + (c0 % 4 * 16 + c1 / 16) * 4096 + (c1 % 16 * 4 + c2 / 64) * 64 + c2 % 64
  {
    assert c0 == c0 / 4 * 4 + c0 % 4 && c1 == c1 / 16 * 16 + c1 % 16 && c2 == c2 / 64 * 64 + c2 % 64;
  }

  method Base64EncodeUnpadded(b: seq<int>) returns (s: string)
    ensures s == Encode(b)
  {
    hide Letter, Group, Encode;
    s := "";
    var k := 0;
    assert b[0..] == b;
    while k < |b|
      invariant k <= |b| && s + Encode(b[k..]) == Encode(b)
    {
      var c := b[k..if k + 3 <= |b| then k + 3 else |b|];
      var letters := ChunkLetters(c);
      EncodedMore(b, k, c, letters, s);
      s := s + letters;
      k := k + |c|;
    }
    assert b[k..] == [];
    EncodeNone();
    assert s + "" == s;
  }

  lemma EncodeNone()
    ensures Encode([]) == ""
  {
  }

  lemma EncodedMore(b: seq<int>, k: nat, c: seq<int>, letters: string, s: string)
    requires k < |b| && c == b[k..if k + 3 <= |b| then k + 3 else |b|]
    requires |letters| == |c| + 1 && forall j :: 0 <= j < |letters| ==> letters[j] == Letter(Group(c, j))
    ensures s + letters + Encode(b[k + |c|..]) == s + Encode(b[k..])
  {
    hide Letter, Group, Encode;
    ChunkEncodes(b[k..], c, letters);
    assert b[k..][|c|..] == b[k + |c|..];
  }

  /** The letters of at most three bytes: one more than there are bytes. */
  method ChunkLetters(c: seq<int>) returns (s: string)
    requires 1 <= |c| <= 3
    ensures |s| == |c| + 1 && forall j :: 0 <= j < |s| ==> s[j] == Letter(Group(c, j))
  {
    s := "";
    var n := ByteAt(c, 0) * 65536 + ByteAt(c, 1) * 256 + ByteAt(c, 2);
    GroupIs(c, n);
    var shift := [262144, 4096, 64, 1];
    var i := 0;
    while i < |c| + 1
      invariant i <= |c| + 1 && |s| == i && forall j :: 0 <= j < i ==> s[j] == Letter(Group(c, j))
    {
      s := s + [Letter(n / shift[i] % 64)];
      i := i + 1;
    }
  }

  lemma {:induction false} LettersAre(b: seq<int>, i: nat, n: nat, s: string, rest: string)
    requires i <= n <= 4 && |s| == n && forall j :: i <= j < n ==> s[j] == Letter(Group(b, j))
    ensures Letters(b, i, n, rest) == s[i..] + rest
    decreases n - i
  {
    hide Letter, Group, ByteAt, Letters;
    LettersStep(b, i, n, rest);
    if i < n {
      LettersAre(b, i + 1, n, s, rest);
      assert s[i..] + rest == [s[i]] + (s[i + 1..] + rest);
    } else {
      assert s[i..] + rest == rest;
    }
  }

  lemma ChunkEncodes(b: seq<int>, c: seq<int>, s: string)
    requires b != [] && c == b[..if 3 <= |b| then 3 else |b|]
    requires |s| == |c| + 1 && forall j :: 0 <= j < |s| ==> s[j] == Letter(Group(c, j))
    ensures Encode(b) == s + Encode(b[|c|..])
  {
    hide Letter, Group, ByteAt, Letters;
    SameGroups(b, c);
    var rest := Encode(b[|c|..]);
    LettersAre(b, 0, |s|, s, rest);
    assert s[0..] == s;
    if |b| < 3 {
      assert b[|c|..] == [];
    }
  }

  lemma SameGroups(b: seq<int>, c: seq<int>)
    requires b != [] && c == b[..if 3 <= |b| then 3 else |b|]
    ensures forall j: nat :: j < 4 ==> Group(c, j) == Group(b, j)
  {
  }

  // --- round trip

  /** What the encoder leaves off. */
  function Padding(b: seq<int>): string
    decreases |b|
  {
    if b == [] then "" else if |b| == 1 then "==" else if |b| == 2 then "=" else Padding(b[3..])
  }

  function Padded(b: seq<int>): string {
    Encode(b) + Padding(b)
  }

  lemma OneLetter(v: nat, rest: string, acc: nat, bits: nat)
    requires Carried(acc, bits) && v < 64
    ensures bits == 0 ==> Carried(v, 6) && Decoded([Letter(v)] + rest, acc, bits) == Decoded(rest, v, 6)
    ensures bits > 0 ==>
              var all, left := acc * 64 + v, bits - 2;
              && Shifted(all, left) < 256 && Carried(Masked(all, left), left)
              && Decoded([Letter(v)] + rest, acc, bits) == Joined([Shifted(all, left)], Decoded(rest, Masked(all, left), left))
  {
    LetterValue(v, 'A');
    assert ([Letter(v)] + rest)[1..] == rest;
  }

  /** Where the bits of three bytes go, and that they come back. */
  lemma BitsBack(c0: nat, c1: nat, c2: nat)
    requires c0 < 256 && c1 < 256 && c2 < 256
    ensures (c0 / 4 * 64 + (c0 % 4 * 16 + c1 / 16)) / 16 == c0 && (c0 / 4 * 64 + (c0 % 4 * 16 + c1 / 16)) % 16 == c1 / 16
    ensures (c1 / 16 * 64 + (c1 % 16 * 4 + c2 / 64)) / 4 == c1 && (c1 / 16 * 64 + (c1 % 16 * 4 + c2 / 64)) % 4 == c2 / 64
    ensures c2 / 64 * 64 + c2 % 64 == c2
  {
    assert c0 / 4 * 64 + (c0 % 4 * 16 + c1 / 16) == c0 * 16 + c1 / 16;
    assert c1 / 16 * 64 + (c1 % 16 * 4 + c2 / 64) == c1 * 4 + c2 / 64;
  }

  /** The bits of a byte that its letter shares with the byte before. */
  function High(b: seq<int>, i: nat): nat {
    if i == 1 then ByteAt(b, 1) / 16 else ByteAt(b, 2) / 64
  }

  /** Two letters give the first byte of a group, the third the second, the fourth the third. */
  lemma FirstByte(b: seq<int>, rest: string)
    ensures Carried(Group(b, 0), 6) && Carried(High(b, 1), 4)
    ensures Decoded([Letter(Group(b, 1))] + rest, Group(b, 0), 6) == Joined([ByteAt(b, 0)], Decoded(rest, High(b, 1), 4))
  {
    hide Decoded, Letter, ByteAt, Joined;
    OneLetter(Group(b, 1), rest, Group(b, 0), 6);
    BitsBack(ByteAt(b, 0), ByteAt(b, 1), 0);
  }

  lemma SecondByte(b: seq<int>, rest: string)
    ensures Carried(High(b, 1), 4) && Carried(High(b, 2), 2)
    ensures Decoded([Letter(Group(b, 2))] + rest, High(b, 1), 4) == Joined([ByteAt(b, 1)], Decoded(rest, High(b, 2), 2))
  {
    hide Decoded, Letter, ByteAt, Joined;
    OneLetter(Group(b, 2), rest, High(b, 1), 4);
    BitsBack(0, ByteAt(b, 1), ByteAt(b, 2));
  }

  lemma ThirdByte(b: seq<int>, rest: string)
    ensures Carried(High(b, 2), 2) && Carried(0, 0)
    ensures Decoded([Letter(Group(b, 3))] + rest, High(b, 2), 2) == Joined([ByteAt(b, 2)], Decoded(rest, 0, 0))
  {
    hide Decoded, Letter, ByteAt, Joined;
    OneLetter(Group(b, 3), rest, High(b, 2), 2);
    BitsBack(0, 0, ByteAt(b, 2));
  }

  /** What the letters of a group decode to, as many as there are. */
  lemma GroupDecodes(b: seq<int>, n: nat, rest: string)
    requires 2 <= n <= 4
    ensures Carried(0, 0) && Carried(High(b, 1), 4) && Carried(High(b, 2), 2)
    ensures n == 2 ==> Decoded(Letters(b, 0, n, rest), 0, 0) == Joined([ByteAt(b, 0)], Decoded(rest, High(b, 1), 4))
    ensures n == 3 ==> Decoded(Letters(b, 0, n, rest), 0, 0) == Joined([ByteAt(b, 0)], Joined([ByteAt(b, 1)], Decoded(rest, High(b, 2), 2)))
    ensures n == 4 ==> Decoded(Letters(b, 0, n, rest), 0, 0) == Joined([ByteAt(b, 0)], Joined([ByteAt(b, 1)], Joined([ByteAt(b, 2)], Decoded(rest, 0, 0))))
  {
    hide Decoded, Letter, Group, ByteAt, High, Joined, Letters;
    LettersStep(b, 0, n, rest);
    LettersStep(b, 1, n, rest);
    LettersStep(b, 2, n, rest);
    OneLetter(Group(b, 0), Letters(b, 1, n, rest), 0, 0);
    FirstByte(b, Letters(b, 2, n, rest));
    if n >= 3 {
      LettersStep(b, 3, n, rest);
      SecondByte(b, Letters(b, 3, n, rest));
      if n == 4 {
        LettersStep(b, 4, n, rest);
        ThirdByte(b, Letters(b, 4, n, rest));
      }
    } else {
      SecondByte(b, "");
    }
  }

  lemma LettersStep(b: seq<int>, i: nat, n: nat, rest: string)
    requires i <= n <= 4
    ensures Letters(b, i, n, rest) == if i == n then rest else [Letter(Group(b, i))] + Letters(b, i + 1, n, rest)
  {
  }

  lemma {:induction false} EncodedDecodes(b: seq<int>)
    requires AreBytes(b)
    ensures Carried(0, 0) && Decoded(Encode(b), 0, 0) == Some(b)
    decreases |b|
  {
    hide Letters, High, Carried, Decoded;
    var n := if |b| < 3 then |b| + 1 else 4;
    var rest := if |b| < 3 then "" else Encode(b[3..]);
    if b == [] {
      NothingDecodes(0, 0);
    } else {
      GroupDecodes(b, n, rest);
      if |b| == 1 {
        NothingDecodes(High(b, 1), 4);
        assert [b[0]] + [] == b;
      } else if |b| == 2 {
        NothingDecodes(High(b, 2), 2);
        assert [b[1]] + [] == [b[1]] && [b[0]] + [b[1]] == b;
      } else {
        EncodedDecodes(b[3..]);
        assert [b[2]] + b[3..] == b[2..] && [b[1]] + b[2..] == b[1..] && [b[0]] + b[1..] == b;
      }
    }
  }

  lemma NothingDecodes(acc: nat, bits: nat)
    requires acc == 0 == bits || Carried(acc, bits)
    ensures Carried(acc, bits) && Decoded("", acc, bits) == Some([])
  {
  }

  lemma {:induction false} LettersPlain(b: seq<int>, i: nat, n: nat, rest: string)
    requires i <= n <= 4 && '=' !in rest
    ensures '=' !in Letters(b, i, n, rest) && |Letters(b, i, n, rest)| == n - i + |rest|
    decreases n - i
  {
    if i < n {
      LettersPlain(b, i + 1, n, rest);
      LetterValue(Group(b, i), 'A');
    }
  }

  lemma {:induction false} EncodedHasNoPadding(b: seq<int>)
    ensures '=' !in Encode(b)
    decreases |b|
  {
    if |b| >= 3 {
      EncodedHasNoPadding(b[3..]);
      LettersPlain(b, 0, 4, Encode(b[3..]));
    } else {
      LettersPlain(b, 0, |b| + 1, "");
    }
  }

  lemma {:induction false} BodyOf(s: string, pad: string)
    requires '=' !in s
    requires forall i :: 0 <= i < |pad| ==> pad[i] == '='
    ensures BodyLength(s + pad) == |s|
    decreases |pad|
  {
    if pad != "" {
      assert (s + pad)[..|s + pad| - 1] == s + pad[..|pad| - 1];
      BodyOf(s, pad[..|pad| - 1]);
    } else {
      assert s + pad == s;
    }
  }

  function Groups(b: seq<int>): nat
    decreases |b|
  {
    if b == [] then 0 else if |b| <= 3 then 1 else 1 + Groups(b[3..])
  }

  lemma {:induction false} PaddedLength(b: seq<int>)
    ensures |Padded(b)| == 4 * Groups(b) && |Padding(b)| <= 2
    ensures forall i :: 0 <= i < |Padding(b)| ==> Padding(b)[i] == '='
    decreases |b|
  {
    if b != [] {
      EncodedHasNoPadding(if |b| < 3 then [] else b[3..]);
      LettersPlain(b, 0, if |b| < 3 then |b| + 1 else 4, if |b| < 3 then "" else Encode(b[3..]));
      if |b| >= 3 {
        PaddedLength(b[3..]);
        if |b| == 3 {
          assert b[3..] == [];
        }
      }
    }
  }

  lemma PaddedMultiple(b: seq<int>)
    ensures |Padded(b)| % 4 == 0 && |Padding(b)| <= 2
    ensures forall i :: 0 <= i < |Padding(b)| ==> Padding(b)[i] == '='
  {
    PaddedLength(b);
    hide Padded, Padding;
    assert 4 * Groups(b) % 4 == 0;
  }

  /** Every sequence of bytes, encoded and its padding restored, decodes to itself. */
  lemma Base64RoundTrip(b: seq<int>)
    requires AreBytes(b)
    ensures Decode(Padded(b)) == Some(b)
  {
    EncodedDecodes(b);
    hide Decoded, Encode, BodyLength, Carried, Padding;
    EncodedHasNoPadding(b);
    PaddedMultiple(b);
    BodyOf(Encode(b), Padding(b));
    assert Padded(b)[..|Encode(b)|] == Encode(b);
  }

  // --- which texts are accepted, and which of them the bytes determine

  predicate AllLetters(body: string) {
    forall i :: 0 <= i < |body| ==> Value(body[i]).Some?
  }

  lemma {:induction false} LettersAccepted(body: string, acc: nat, bits: nat)
    requires Carried(acc, bits)
    ensures Decoded(body, acc, bits).Some? <==> AllLetters(body)
    decreases |body|
  {
    if body != "" && Value(body[0]).Some? {
      var all := acc * 64 + Value(body[0]).value;
      if bits + 6 >= 8 {
        LettersAccepted(body[1..], Masked(all, bits - 2), bits - 2);
      } else {
        LettersAccepted(body[1..], all, 6);
      }
      assert body == [body[0]] + body[1..];
    }
  }

  /** A text is accepted just where its length is a multiple of four, it ends
      with two `=` at the most, and all before those are letters of the alphabet. */
  lemma DecodeAccepts(text: string)
    ensures Decode(text).Some? <==> WellPadded(text) && AllLetters(text[..BodyLength(text)])
  {
    hide Decoded;
    if WellPadded(text) {
      LettersAccepted(text[..BodyLength(text)], 0, 0);
    }
  }

  /** The bytes four letters give. */
  function Byte(i: nat, v: nat, w: nat): nat {
    if i == 0 then v * 4 + w / 16 else if i == 1 then v % 16 * 16 + w / 4 else v % 4 * 64 + w
  }

  lemma ByteZero(v: nat, w: nat)
    requires v < 64 && w < 64
    ensures Shifted(v * 64 + w, 4) == Byte(0, v, w) < 256 && Masked(v * 64 + w, 4) == w % 16 < 16
    ensures Byte(0, v, w) / 4 == v && Byte(0, v, w) % 4 == w / 16
  {
    assert v * 64 + w == Byte(0, v, w) * 16 + w % 16;
  }

  lemma ByteOne(v: nat, w: nat)
    requires v < 64 && w < 64
    ensures Shifted(v % 16 * 64 + w, 2) == Byte(1, v, w) < 256 && Masked(v % 16 * 64 + w, 2) == w % 4 < 4
    ensures Byte(1, v, w) / 16 == v % 16 && Byte(1, v, w) % 16 == w / 4
  {
    assert v % 16 * 64 + w == Byte(1, v, w) * 4 + w % 4;
  }

  lemma ByteTwo(v: nat, w: nat)
    requires v < 64 && w < 64
    ensures Shifted(v % 4 * 64 + w, 0) == Byte(2, v, w) < 256 && Masked(v % 4 * 64 + w, 0) == 0
    ensures Byte(2, v, w) / 64 == v % 4 && Byte(2, v, w) % 64 == w
  {
  }

  lemma Halves(v: nat)
    ensures v / 16 * 16 + v % 16 == v && v / 4 * 4 + v % 4 == v
  {
  }

  function ValueOf(body: string, i: nat): (v: nat)
    requires AllLetters(body) && i < |body|
    ensures v < 64 && Letter(v) == body[i]
  {
    LetterValue(0, body[i]);
    Value(body[i]).value
  }

  /** The bits of the last letter that are in no byte. */
  predicate SpareBitsZero(body: string)
    requires AllLetters(body)
  {
    && (|body| % 4 == 2 ==> ValueOf(body, |body| - 1) % 16 == 0)
    && (|body| % 4 == 3 ==> ValueOf(body, |body| - 1) % 4 == 0)
  }

  /** The first two letters, and the third and the fourth where they are there. */
  lemma FirstTwo(body: string)
    requires AllLetters(body) && |body| >= 2
    ensures var v, w := ValueOf(body, 0), ValueOf(body, 1);
            Carried(w % 16, 4) && Decoded(body, 0, 0) == Joined([Byte(0, v, w)], Decoded(body[2..], w % 16, 4))
  {
    var v, w := ValueOf(body, 0), ValueOf(body, 1);
    hide Decoded, Letter, ValueOf;
    assert body == [body[0]] + ([body[1]] + body[2..]);
    OneLetter(v, [body[1]] + body[2..], 0, 0);
    OneLetter(w, body[2..], v, 6);
    ByteZero(v, w);
  }

  lemma ThirdLetter(body: string)
    requires AllLetters(body) && |body| >= 3
    ensures var v, w := ValueOf(body, 1), ValueOf(body, 2);
            && Carried(v % 16, 4) && Carried(w % 4, 2)
            && Decoded(body[2..], v % 16, 4) == Joined([Byte(1, v, w)], Decoded(body[3..], w % 4, 2))
  {
    var v, w := ValueOf(body, 1), ValueOf(body, 2);
    hide Decoded, Letter, ValueOf;
    assert body[2..] == [body[2]] + body[3..];
    OneLetter(w, body[3..], v % 16, 4);
    ByteOne(v, w);
  }

  lemma FourthLetter(body: string)
    requires AllLetters(body) && |body| >= 4
    ensures var v, w := ValueOf(body, 2), ValueOf(body, 3);
            && Carried(v % 4, 2)
            && Decoded(body[3..], v % 4, 2) == Joined([Byte(2, v, w)], Decoded(body[4..], 0, 0))
  {
    var v, w := ValueOf(body, 2), ValueOf(body, 3);
    hide Decoded, Letter, ValueOf;
    assert body[3..] == [body[3]] + body[4..];
    OneLetter(w, body[4..], v % 4, 2);
    ByteTwo(v, w);
  }

  /** Some bytes are encoded as some letters, but for the last one's spare bits. */
  predicate Encodes(b: seq<int>, body: string)
    requires AllLetters(body)
  {
    && AreBytes(b) && |Encode(b)| == |body| && |Padding(b)| == (4 - |body| % 4) % 4
    && (Encode(b) == body <==> SpareBitsZero(body))
  }

  /** What letters decode to is encoded as those letters, but that the last one's
      spare bits are then zero. */
  lemma {:induction false} DecodedEncodes(body: string)
    requires AllLetters(body) && |body| % 4 != 1
    ensures Decoded(body, 0, 0).Some? && Encodes(Decoded(body, 0, 0).value, body)
    decreases |body|
  {
    hide Decoded, ValueOf, Encodes, Byte;
    if body == "" {
      NothingDecodes(0, 0);
      NothingEncodes();
    } else if |body| == 2 {
      TwoDecoded(body);
    } else if |body| == 3 {
      ThreeDecoded(body);
    } else {
      WholeGroup(body);
      DecodedEncodes(body[4..]);
      GroupEncodes(body, Decoded(body[4..], 0, 0).value);
    }
  }

  lemma NothingEncodes()
    ensures Encodes([], "")
  {
  }

  function FirstBytes(body: string): (b: seq<int>)
    requires AllLetters(body) && |body| >= 4
    ensures |b| == 3
  {
    [Byte(0, ValueOf(body, 0), ValueOf(body, 1)), Byte(1, ValueOf(body, 1), ValueOf(body, 2)), Byte(2, ValueOf(body, 2), ValueOf(body, 3))]
  }

  lemma WholeGroup(body: string)
    requires AllLetters(body) && |body| >= 4
    ensures Decoded(body, 0, 0) == Joined(FirstBytes(body), Decoded(body[4..], 0, 0))
  {
    hide Decoded, ValueOf, Byte, Joined;
    FirstTwo(body);
    ThirdLetter(body);
    FourthLetter(body);
    var rest := Decoded(body[4..], 0, 0);
    var x, y, z := FirstBytes(body)[0], FirstBytes(body)[1], FirstBytes(body)[2];
    JoinTwice([y], [z], rest);
    JoinTwice([x], [y, z], rest);
    assert [y] + [z] == [y, z] && [x] + [y, z] == FirstBytes(body);
  }

  /** A whole group comes back letter for letter. */
  lemma GroupLetters(body: string, rest: seq<int>)
    requires AllLetters(body) && |body| >= 4
    ensures AreBytes(FirstBytes(body))
    ensures var b := FirstBytes(body) + rest;
            Encode(b) == body[..4] + Encode(rest) && Padding(b) == Padding(rest)
  {
    hide Letter, ValueOf;
    var b := FirstBytes(body) + rest;
    assert b[3..] == rest;
    GroupsBack(b, ValueOf(body, 0), ValueOf(body, 1), ValueOf(body, 2), ValueOf(body, 3));
    hide Byte, Group, Letters;
    FourLetters(b, Encode(rest));
    assert body[..4] == [body[0], body[1], body[2], body[3]];
  }

  lemma GroupsBack(b: seq<int>, v0: nat, v1: nat, v2: nat, v3: nat)
    requires v0 < 64 && v1 < 64 && v2 < 64 && v3 < 64
    requires |b| >= 3 && b[0] == Byte(0, v0, v1) && b[1] == Byte(1, v1, v2) && b[2] == Byte(2, v2, v3)
    ensures b[0] < 256 && b[1] < 256 && b[2] < 256
    ensures Group(b, 0) == v0 && Group(b, 1) == v1 && Group(b, 2) == v2 && Group(b, 3) == v3
  {
    ByteZero(v0, v1);
    ByteOne(v1, v2);
    ByteTwo(v2, v3);
    Halves(v1);
    Halves(v2);
    hide Byte;
  }

  lemma GroupEncodes(body: string, rest: seq<int>)
    requires AllLetters(body) && |body| >= 4 && Encodes(rest, body[4..])
    ensures Encodes(FirstBytes(body) + rest, body)
  {
    hide FirstBytes, ValueOf, Encode, Padding;
    var b := FirstBytes(body) + rest;
    GroupLetters(body, rest);
    SpareBitsOfRest(body);
    assert body == body[..4] + body[4..];
    assert Encode(b)[4..] == Encode(rest);
    hide SpareBitsZero;
    FourLess(|body|);
  }

  lemma FourLess(n: nat)
    requires n >= 4
    ensures (n - 4) % 4 == n % 4
  {
  }

  lemma SpareBitsOfRest(body: string)
    requires AllLetters(body) && |body| >= 4
    ensures SpareBitsZero(body[4..]) <==> SpareBitsZero(body)
  {
    FourLess(|body|);
    if |body| > 4 {
      assert body[4..][|body| - 5] == body[|body| - 1];
    }
  }

  lemma FourLetters(b: seq<int>, rest: string)
    ensures Letters(b, 0, 4, rest) == [Letter(Group(b, 0)), Letter(Group(b, 1)), Letter(Group(b, 2)), Letter(Group(b, 3))] + rest
  {
    hide Letters, Letter, Group;
    LettersStep(b, 0, 4, rest);
    LettersStep(b, 1, 4, rest);
    LettersStep(b, 2, 4, rest);
    LettersStep(b, 3, 4, rest);
    LettersStep(b, 4, 4, rest);
  }

  lemma LetterInjective(v: nat, w: nat)
    requires v < 64 && w < 64 && Letter(v) == Letter(w)
    ensures v == w
  {
    LetterValue(v, 'A');
    LetterValue(w, 'A');
  }

  lemma TwoBack(v: nat, w: nat)
    requires v < 64 && w < 64
    ensures var c := Byte(0, v, w); c < 256 && c / 4 == v && c % 4 == w / 16
    ensures w / 16 * 16 == w <==> w % 16 == 0
  {
    ByteZero(v, w);
    Halves(w);
  }

  lemma ThreeBack(u: nat, v: nat, w: nat)
    requires u < 64 && v < 64 && w < 64
    ensures var c, d := Byte(0, u, v), Byte(1, v, w);
            c < 256 && d < 256 && c / 4 == u && c % 4 * 16 + d / 16 == v && d % 16 == w / 4
    ensures w / 4 * 4 == w <==> w % 4 == 0
  {
    ByteZero(u, v);
    ByteOne(v, w);
    Halves(v);
    Halves(w);
    hide Byte;
  }

  /** The last group where it is of two letters, or of three. */
  lemma TwoDecoded(body: string)
    requires AllLetters(body) && |body| == 2
    ensures Decoded(body, 0, 0).Some? && Encodes(Decoded(body, 0, 0).value, body)
  {
    var v, w := ValueOf(body, 0), ValueOf(body, 1);
    assert Decoded(body, 0, 0) == Some([Byte(0, v, w)]) by {
      hide Decoded, ValueOf, Byte;
      FirstTwo(body);
      NothingDecodes(w % 16, 4);
      assert body[2..] == "";
      assert [Byte(0, v, w)] + [] == [Byte(0, v, w)];
    }
    hide Decoded, Letter, Encode, Padding;
    hide Byte;
    TwoBack(v, w);
    TwoLetters(Byte(0, v, w), v, w);
    assert body == [Letter(v), Letter(w)];
    if Letter(w / 16 * 16) == Letter(w) {
      LetterInjective(w / 16 * 16, w);
    }
    assert body[1] == Letter(w) && [Letter(v), Letter(w / 16 * 16)][1] == Letter(w / 16 * 16);
  }

  lemma ThreeDecoded(body: string)
    requires AllLetters(body) && |body| == 3
    ensures Decoded(body, 0, 0).Some? && Encodes(Decoded(body, 0, 0).value, body)
  {
    hide Decoded, ValueOf, Byte, Encodes, Letter;
    FirstTwo(body);
    ThirdLetter(body);
    var u, v, w := ValueOf(body, 0), ValueOf(body, 1), ValueOf(body, 2);
    NothingDecodes(w % 4, 2);
    assert body[3..] == "";
    assert [Byte(1, v, w)] + [] == [Byte(1, v, w)] && [Byte(0, u, v)] + [Byte(1, v, w)] == [Byte(0, u, v), Byte(1, v, w)];
    ThreeEncoded(body, u, v, w);
  }

  lemma ThreeEncoded(body: string, u: nat, v: nat, w: nat)
    requires AllLetters(body) && |body| == 3 && u == ValueOf(body, 0) && v == ValueOf(body, 1) && w == ValueOf(body, 2)
    ensures Encodes([Byte(0, u, v), Byte(1, v, w)], body)
  {
    hide ValueOf, Byte, Letter, Encode, Padding;
    ThreeBack(u, v, w);
    var x := w / 4 * 4;
    ThreeLetters(Byte(0, u, v), Byte(1, v, w), u, v, w);
    var text := [Letter(u), Letter(v), Letter(x)];
    assert body[0] == Letter(u) && body[1] == Letter(v) && body[2] == Letter(w);
    if Letter(x) == Letter(w) {
      LetterInjective(x, w);
      assert text == body;
    } else {
      assert text[2] != body[2];
    }
  }

  lemma TwoLetters(c: nat, v: nat, w: nat)
    requires c < 256 && v < 64 && w < 64 && c / 4 == v && c % 4 == w / 16
    ensures w / 16 * 16 < 64 && Encode([c]) == [Letter(v), Letter(w / 16 * 16)] && Padding([c]) == "=="
  {
    hide Letter;
    LettersStep([c], 0, 2, "");
    LettersStep([c], 1, 2, "");
    LettersStep([c], 2, 2, "");
  }

  lemma ThreeLetters(c: nat, d: nat, u: nat, v: nat, w: nat)
    requires c < 256 && d < 256 && u < 64 && v < 64 && w < 64
    requires c / 4 == u && c % 4 * 16 + d / 16 == v && d % 16 == w / 4
    ensures w / 4 * 4 < 64 && Encode([c, d]) == [Letter(u), Letter(v), Letter(w / 4 * 4)] && Padding([c, d]) == "="
  {
    hide Letter;
    LettersStep([c, d], 0, 3, "");
    LettersStep([c, d], 1, 3, "");
    LettersStep([c, d], 2, 3, "");
    LettersStep([c, d], 3, 3, "");
  }

  /** Every accepted text is read as bytes, and it is what those bytes are
      encoded as just where the bits of its last letter that are in no byte are
      zero: those are what the decoder does not look at, and all it does not. */
  lemma BytesDetermineText(text: string)
    requires Decode(text).Some?
    ensures var body := text[..BodyLength(text)];
            && AllLetters(body) && AreBytes(Decode(text).value)
            && (Padded(Decode(text).value) == text <==> SpareBitsZero(body))
  {
    DecodeAccepts(text);
    var n := BodyLength(text);
    var body, b := text[..n], Decode(text).value;
    hide Decoded, Encode, Padding, SpareBitsZero;
    BodyMod(|text|, n);
    DecodedEncodes(body);
    PaddedMultiple(b);
    assert text == body + text[n..];
    assert Padded(b)[..n] == Encode(b);
    assert Padding(b) == text[n..] by {
      assert |Padding(b)| == |text[n..]|;
      assert forall i :: 0 <= i < |Padding(b)| ==> Padding(b)[i] == text[n..][i];
    }
  }

  lemma BodyMod(m: nat, n: nat)
    requires m % 4 == 0 && n <= m <= n + 2
    ensures n % 4 != 1 && (4 - n % 4) % 4 == m - n
  {
  }

  /** The last group's spare bits are not looked at: two texts, one byte. */
  lemma SpareBitsIgnored()
    ensures Decode("YQ==") == Decode("YR==") == Some([97])
  {
    SpareBits('Q', 16, 0);
    SpareBits('R', 17, 1);
    assert "YQ" + "==" == "YQ==" && "YR" + "==" == "YR==";
  }

  lemma SpareBits(c: char, v: nat, spare: nat)
    requires Value(c) == Some(v) && v == 16 + spare && spare < 16 && c != '='
    ensures Decode(['Y', c] + "==") == Some([97])
  {
    var text := ['Y', c] + "==";
    BodyOf(['Y', c], "==");
    assert text[..2] == ['Y', c] && ['Y', c][1..] == [c] && [c][1..] == "";
    assert BodyLength(text) == 2 && |text| == 4;
    hide BodyLength;
    assert WellPadded(text);
    assert Decode(text) == Decoded(['Y', c], 0, 0);
    assert Value('Y') == Some(24);
    var all := 24 * 64 + v;
    assert Shifted(all, 4) == 97 && Masked(all, 4) == spare;
    NothingDecodes(spare, 4);
    var a: seq<int> := [97];
    assert a + [] == a;
    assert Decoded([c], 24, 6) == Joined(a, Decoded("", spare, 4)) == Some(a);
    assert Decoded(['Y', c], 0, 0) == Decoded([c], 24, 6);
  }
}
