/** What tags, their handles and URIs read as, percent escapes decoded, and that
    any text can be written as a URI and read back. */
module TagText {
  import opened Results
  import opened ScannerState
  import opened FlowScalars
  import Utf8

  datatype Bytes = Bytes(bytes: seq<int>, next: nat)

  function More(codes: seq<int>, r: Result<Bytes>): Result<Bytes> {
    match r
    case Ok(Bytes(bytes, next)) => Ok(Bytes(codes + bytes, next))
    case Err(fault) => Err(fault)
  }

  /** The bytes of a run of percent escapes. */
  function Escapes(b: seq<char>, p: nat): (r: Result<Bytes>)
    ensures r.Ok? ==> p <= r.value.next && (p < |b| ==> r.value.next <= |b|)
    ensures r.Ok? && CharAt(b, p) == '%' ==> p < r.value.next
    decreases |b| - p
  {
    if CharAt(b, p) != '%' then Ok(Bytes([], p))
    else if Hex(CharAt(b, p + 1)) && Hex(CharAt(b, p + 2)) then
      More([HexValue(b[p + 1]) * 16 + HexValue(b[p + 2])], Escapes(b, p + 3))
    else Err(ScanFault)
  }

  function EscapedText(b: seq<char>, p: nat): (r: Result<Read>)
    ensures r.Ok? ==> p <= r.value.next && (p < |b| ==> r.value.next <= |b|)
    ensures r.Ok? && CharAt(b, p) == '%' ==> p < r.value.next
  {
    var run :- Escapes(b, p);
    match Utf8.Decode(run.bytes)
    case Some(text) => Ok(Read(text, run.next))
    case None => Err(ScanFault)
  }

  /** The characters a URI may have, its escapes decoded. */
  function Uri(b: seq<char>, p: nat): (r: Result<Read>)
    ensures r.Ok? ==> p <= r.value.next && (p < |b| ==> r.value.next <= |b|)
    decreases |b| - p
  {
    var c := CharAt(b, p);
    if !UriChar(c) then Ok(Read("", p))
    else if c == '%' then
      var text :- EscapedText(b, p);
      Join(text.text, Uri(b, text.next))
    else Join([c], Uri(b, p + 1))
  }

  function WordEnd(b: seq<char>, p: nat): (q: nat)
    ensures p <= q && !Word(CharAt(b, q))
    ensures forall i :: p <= i < q ==> Word(CharAt(b, i))
    decreases |b| - p
  {
    if p < |b| && Word(b[p]) then WordEnd(b, p + 1) else p
  }

  /** `!` alone before a space, or a word between two. */
  function Handle(b: seq<char>, p: nat): (r: Result<Read>)
    ensures r.Ok? ==> p < r.value.next <= |b|
  {
    if CharAt(b, p) != '!' then Err(ScanFault)
    else if CharAt(b, p + 1) == ' ' then Ok(Read("!", p + 1))
    else
      var q := WordEnd(b, p + 1);
      if CharAt(b, q) == '!' then Ok(Read(b[p..q + 1], q + 1)) else Err(ScanFault)
  }

  /** Whether a `!` comes before the next space, break or end. */
  predicate BangAhead(b: seq<char>, p: nat)
    decreases |b| - p
  {
    p < |b| && !Blankz(b[p]) && (b[p] == '!' || BangAhead(b, p + 1))
  }

  datatype ReadTag = ReadTag(handle: Option<string>, suffix: string, next: nat)

  /** A tag: `!<uri>`, `!` alone, or a handle and a suffix. */
  function TagAt(b: seq<char>, p: nat): Result<ReadTag> {
    if CharAt(b, p + 1) == '<' then
      var uri :- Uri(b, p + 2);
      if uri.text != "" && CharAt(b, uri.next) == '>' && Blankz(CharAt(b, uri.next + 1))
      then Ok(ReadTag(None, uri.text, uri.next + 1)) else Err(ScanFault)
    else if BlankzTab(CharAt(b, p + 1)) then
      if Blankz(CharAt(b, p + 1)) then Ok(ReadTag(None, "!", p + 1)) else Err(ScanFault)
    else
      var handle :- if BangAhead(b, p + 1) then Handle(b, p) else Ok(Read("!", p + 1));
      var uri :- Uri(b, handle.next);
      if uri.text != "" && Blankz(CharAt(b, uri.next))
      then Ok(ReadTag(Some(handle.text), uri.text, uri.next)) else Err(ScanFault)
  }

  // --- steps

  lemma MoreMore(s: seq<int>, t: seq<int>, r: Result<Bytes>)
    ensures More(s, More(t, r)) == More(s + t, r)
  {
    if r.Ok? {
      assert s + (t + r.value.bytes) == s + t + r.value.bytes;
    }
  }

  lemma NoMore(r: Result<Bytes>)
    ensures More([], r) == r
  {
    if r.Ok? {
      assert [] + r.value.bytes == r.value.bytes;
    }
  }

  lemma UriStep(b: seq<char>, p: nat)
    requires UriChar(CharAt(b, p))
    ensures CharAt(b, p) != '%' ==> Uri(b, p) == Join([CharAt(b, p)], Uri(b, p + 1))
    ensures CharAt(b, p) == '%' && EscapedText(b, p).Ok? ==>
              Uri(b, p) == Join(EscapedText(b, p).value.text, Uri(b, EscapedText(b, p).value.next))
    ensures CharAt(b, p) == '%' && EscapedText(b, p).Err? ==> Uri(b, p).Err?
  {
    hide EscapedText, UriChar;
  }

  /** An escape that fails fails the whole. */
  lemma EscapeFails(b: seq<char>, p: nat, before: string)
    requires CharAt(b, p) == '%'
    ensures EscapedText(b, p).Err? ==> Join(before, Uri(b, p)).Err?
  {
    assert UriChar('%') by { PercentIsUriChar(); }
    hide UriChar;
  }

  lemma UriEnds(b: seq<char>, p: nat, before: string)
    requires !UriChar(CharAt(b, p))
    ensures Join(before, Uri(b, p)) == Ok(Read(before, p))
  {
    assert before + "" == before;
  }

  lemma {:induction false} WordEndIs(b: seq<char>, p: nat, q: nat)
    requires p <= q && !Word(CharAt(b, q)) && forall i :: p <= i < q ==> Word(CharAt(b, i))
    ensures WordEnd(b, p) == q
    decreases q - p
  {
    if p < q {
      WordEndIs(b, p + 1, q);
    }
  }

  // --- writing a text so that it is read back

  function PercentByte(v: int): string
    requires 0 <= v < 0x100
  {
    "%" + [HexDigit(v / 16), HexDigit(v % 16)]
  }

  predicate AreBytes(bytes: seq<int>) {
    forall i :: 0 <= i < |bytes| ==> 0 <= bytes[i] < 0x100
  }

  function PercentBytes(bytes: seq<int>): string
    requires AreBytes(bytes)
  {
    if bytes == [] then "" else PercentByte(bytes[0]) + PercentBytes(bytes[1..])
  }

  lemma {:induction false} EncodedAreBytes(s: string)
    ensures AreBytes(Utf8.EncodeAll(s))
  {
    if s != "" {
      EncodedAreBytes(s[1..]);
    }
  }

  /** Every byte of a text in UTF-8, escaped. */
  function Percent(s: string): string {
    EncodedAreBytes(s);
    PercentBytes(Utf8.EncodeAll(s))
  }

  predicate Follows(b: seq<char>, p: nat, text: string) {
    p + |text| <= |b| && b[p..p + |text|] == text
  }

  lemma {:induction false} EscapesReadBack(bytes: seq<int>, b: seq<char>, p: nat)
    requires AreBytes(bytes) && Follows(b, p, PercentBytes(bytes)) && CharAt(b, p + |PercentBytes(bytes)|) != '%'
    ensures Escapes(b, p) == Ok(Bytes(bytes, p + |PercentBytes(bytes)|))
    decreases |bytes|
  {
    hide Hex, HexValue, HexDigit, PercentByte;
    if bytes != [] {
      var first, rest := PercentByte(bytes[0]), PercentBytes(bytes[1..]);
      FollowsBoth(b, p, first, rest);
      ByteReadsBack(bytes[0], b, p);
      EscapesReadBack(bytes[1..], b, p + 3);
      assert [bytes[0]] + bytes[1..] == bytes;
    }
  }

  lemma FollowsBoth(b: seq<char>, p: nat, s: string, t: string)
    requires Follows(b, p, s + t)
    ensures Follows(b, p, s) && Follows(b, p + |s|, t)
  {
    assert b[p..p + |s|] == b[p..p + |s + t|][..|s|];
    assert b[p + |s|..p + |s + t|] == b[p..p + |s + t|][|s|..];
  }

  lemma ByteReadsBack(v: int, b: seq<char>, p: nat)
    requires 0 <= v < 0x100 && Follows(b, p, PercentByte(v))
    ensures |PercentByte(v)| == 3 && CharAt(b, p) == '%' && Hex(CharAt(b, p + 1)) && Hex(CharAt(b, p + 2))
    ensures HexValue(b[p + 1]) * 16 + HexValue(b[p + 2]) == v
  {
    var s := PercentByte(v);
    assert s == ['%', HexDigit(v / 16), HexDigit(v % 16)];
    assert forall i :: 0 <= i < 3 ==> b[p + i] == b[p..p + 3][i] == s[i];
    assert b[p + 1] == s[1] && b[p + 2] == s[2];
  }

  /** Any text at all, its bytes escaped, is read back whole as a URI, up to a
      character no URI has. */
  lemma EveryTextIsUri(s: string, before: seq<char>, after: seq<char>)
    requires !UriChar(CharAt(after, 0))
    ensures Uri(before + Percent(s) + after, |before|) == Ok(Read(s, |before| + |Percent(s)|))
  {
    hide Uri, Escapes, UriChar, Percent, Utf8.Decode, Utf8.EncodeAll;
    var b := before + Percent(s) + after;
    var p, q := |before|, |before| + |Percent(s)|;
    assert b[p..q] == Percent(s);
    assert CharAt(b, q) == CharAt(after, 0);
    PercentIsUriChar();
    PercentReadsBack(s, b, p);
    if s == "" {
      PercentOfNothing();
      NoUri(b, p);
    } else {
      PercentBegins(s);
      assert CharAt(b, p) == b[p..q][0] == '%';
      UriOf(b, p, Read(s, q));
    }
  }

  lemma PercentReadsBack(s: string, b: seq<char>, p: nat)
    requires Follows(b, p, Percent(s)) && CharAt(b, p + |Percent(s)|) != '%'
    ensures EscapedText(b, p) == Ok(Read(s, p + |Percent(s)|))
  {
    hide Escapes;
    EncodedAreBytes(s);
    EscapesReadBack(Utf8.EncodeAll(s), b, p);
    Utf8.DecodeInvertsEncode(Utf8.EncodeAll(s), s);
  }

  lemma NoUri(b: seq<char>, p: nat)
    requires !UriChar(CharAt(b, p))
    ensures Uri(b, p) == Ok(Read("", p))
  {
  }

  lemma UriOf(b: seq<char>, p: nat, text: Read)
    requires CharAt(b, p) == '%' && EscapedText(b, p) == Ok(text) && !UriChar(CharAt(b, text.next))
    ensures Uri(b, p) == Ok(text)
  {
    hide EscapedText;
    NoUri(b, text.next);
    assert UriChar('%') by { PercentIsUriChar(); }
    hide UriChar;
    assert text.text + "" == text.text;
  }

  lemma PercentOfNothing()
    ensures Percent("") == ""
  {
  }

  lemma PercentIsUriChar()
    ensures UriChar('%')
  {
  }

  lemma PercentBegins(s: string)
    requires s != ""
    ensures Percent(s) != "" && Percent(s)[0] == '%'
  {
    EncodedAreBytes(s);
    assert Utf8.EncodeAll(s) != [];
  }
}
