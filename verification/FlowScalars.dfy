/** What a quoted scalar reads as: a reader that takes one character, one escape
    or one run of blanks and breaks at a time, and the proof that every string
    can be written as a quoted scalar and read back. */
module FlowScalars {
  import opened Results
  import opened ScannerState

  /** Text read, and the place of the quote that closes it. */
  datatype Read = Read(text: string, next: nat)

  function Join(s: string, r: Result<Read>): Result<Read> {
    match r
    case Ok(Read(text, next)) => Ok(Read(s + text, next))
    case Err(fault) => Err(fault)
  }

  lemma JoinJoin(s: string, t: string, r: Result<Read>)
    ensures Join(s, Join(t, r)) == Join(s + t, r)
  {
    if r.Ok? {
      assert s + (t + r.value.text) == s + t + r.value.text;
    }
  }

  // --- blanks and breaks

  predicate Blank(c: char) {
    c == ' ' || c == '\t'
  }

  /** The place past a line break: a CR and an LF are one. */
  function AfterBreak(b: seq<char>, p: nat): nat {
    if CharAt(b, p) == '\r' && CharAt(b, p + 1) == '\n' then p + 2 else p + 1
  }

  function BreakText(c: char): string {
    if c == '\U{2028}' || c == '\U{2029}' then [c] else "\n"
  }

  function AfterBlanks(b: seq<char>, p: nat): (q: nat)
    ensures p <= q && (p <= |b| ==> q <= |b|)
    ensures !Blank(CharAt(b, q))
    ensures forall i :: p <= i < q ==> i < |b| && Blank(b[i])
    decreases |b| - p
  {
    if p < |b| && Blank(b[p]) then AfterBlanks(b, p + 1) else p
  }

  /** Whether a `---` or `...` that ends a document stands at `p`. */
  predicate SeparatorAt(b: seq<char>, p: nat) {
    IndicatorAt(b, p, "---") || IndicatorAt(b, p, "...")
  }

  /** The breaks from here on, blanks around them dropped. */
  function Breaks(b: seq<char>, p: nat): (r: Result<Read>)
    ensures r.Ok? ==> p <= r.value.next && (p <= |b| ==> r.value.next <= |b|)
    decreases |b| - p
  {
    if SeparatorAt(b, p) then Err(ScanFault)
    else
      var q := AfterBlanks(b, p);
      if q < |b| && Break(b[q]) && AfterBreak(b, q) <= |b| then Join(BreakText(b[q]), Breaks(b, AfterBreak(b, q)))
      else Ok(Read("", q))
  }

  /** A break and the breaks after it, folded: one alone is a space. */
  function Folded(first: string, breaks: string): string {
    (if first != "\n" then first else if breaks == "" then " " else "") + breaks
  }

  // --- escapes

  function Replacement(c: char): Option<char> {
    match c
    case '0' => Some('\0')
    case 'a' => Some('\U{0007}')
    case 'b' => Some('\U{0008}')
    case 't' => Some('\t')
    case '\t' => Some('\t')
    case 'n' => Some('\n')
    case 'v' => Some('\U{000b}')
    case 'f' => Some('\U{000c}')
    case 'r' => Some('\r')
    case 'e' => Some('\U{001b}')
    case ' ' => Some(' ')
    case '"' => Some('"')
    case '\\' => Some('\\')
    case '/' => Some('/')
    case 'N' => Some('\U{0085}')
    case '_' => Some('\U{00a0}')
    case 'L' => Some('\U{2028}')
    case 'P' => Some('\U{2029}')
    case _ => None
  }

  function CodeLength(c: char): nat {
    match c
    case 'x' => 2
    case 'u' => 4
    case 'U' => 8
    case _ => 0
  }

  predicate AllHex(b: seq<char>, p: nat, n: nat) {
    p + n <= |b| && forall i :: p <= i < p + n ==> Hex(b[i])
  }

  function HexNumber(b: seq<char>, p: nat, n: nat): (v: nat)
    requires AllHex(b, p, n)
  {
    if n == 0 then 0 else HexNumber(b, p, n - 1) * 16 + HexValue(b[p + n - 1])
  }

  /** The character of a code; a surrogate, which no string can hold, is U+FFFD. */
  function CodeChar(code: nat): Result<char> {
    if code < 0xD800 || 0xE000 <= code < 0x11_0000 then Ok(code as char)
    else if code < 0xE000 then Ok('\U{fffd}')
    else Err(ScanFault)
  }

  // --- the reader

  predicate Special(c: char) {
    c == '\'' || c == '"' || c == '\\' || BlankzTab(c)
  }

  /** A quoted scalar from `p`, which is past its opening quote. */
  function Body(b: seq<char>, p: nat, double: bool): (r: Result<Read>)
    ensures r.Ok? ==> p <= r.value.next < |b|
    decreases |b| - p, 1
  {
    if p >= |b| then Err(ScanFault)
    else
      var c := b[p];
      if c == '\'' && !double then
        if CharAt(b, p + 1) == '\'' then Join("'", Body(b, p + 2, double)) else Ok(Read("", p))
      else if c == '"' && double then Ok(Read("", p))
      else if c == '\\' && double then Escape(b, p + 1)
      else if !Special(c) || c == '\'' || c == '"' || c == '\\' then Join([c], Body(b, p + 1, double))
      else Spaces(b, p, double)
  }

  /** What a backslash in a double-quoted scalar stands for, and the rest. */
  function Escape(b: seq<char>, p: nat): (r: Result<Read>)
    ensures r.Ok? ==> p <= r.value.next < |b|
    decreases |b| - p, 2
  {
    var c := CharAt(b, p);
    var n := CodeLength(c);
    if p >= |b| then Err(ScanFault)
    else if Replacement(c).Some? then Join([Replacement(c).value], Body(b, p + 1, true))
    else if n > 0 then
      if AllHex(b, p + 1, n) then
        var ch :- CodeChar(HexNumber(b, p + 1, n));
        Join([ch], Body(b, p + 1 + n, true))
      else Err(ScanFault)
    else if Break(c) then
      var breaks :- Breaks(b, AfterBreak(b, p));
      Join(breaks.text, Body(b, breaks.next, true))
    else Err(ScanFault)
  }

  /** A run of blanks, folded where it ends the line, and the rest. */
  function Spaces(b: seq<char>, p: nat, double: bool): (r: Result<Read>)
    requires p < |b| && (Blank(b[p]) || Breakz(b[p]))
    ensures r.Ok? ==> p <= r.value.next < |b|
    decreases |b| - p, 0
  {
    var q := AfterBlanks(b, p);
    var c := CharAt(b, q);
    if c == '\0' then Err(ScanFault)
    else if Break(c) then
      var breaks :- Breaks(b, AfterBreak(b, q));
      Join(Folded(BreakText(c), breaks.text), Body(b, breaks.next, double))
    else Join(b[p..q], Body(b, q, double))
  }

  // --- several steps at once

  lemma EmptyJoin(r: Result<Read>)
    ensures Join("", r) == r
  {
    if r.Ok? {
      assert "" + r.value.text == r.value.text;
    }
  }

  lemma {:induction false} AfterBlanksIs(b: seq<char>, p: nat, q: nat)
    requires p <= q < |b| && !Blank(b[q])
    requires forall i :: p <= i < q ==> Blank(b[i])
    ensures AfterBlanks(b, p) == q
    decreases q - p
  {
    if p < q {
      AfterBlanksIs(b, p + 1, q);
    }
  }

  lemma {:induction false} RunStep(b: seq<char>, p: nat, q: nat, double: bool)
    requires p <= q < |b|
    requires forall i :: p <= i < q ==> !Special(b[i])
    ensures Body(b, p, double) == Join(b[p..q], Body(b, q, double))
    decreases q - p
  {
    var rest := Body(b, q, double);
    if p == q {
      assert b[p..q] == "";
      EmptyJoin(rest);
    } else {
      RunStep(b, p + 1, q, double);
      assert Body(b, p, double) == Join([b[p]], Body(b, p + 1, double));
      JoinJoin([b[p]], b[p + 1..q], rest);
      assert b[p..q] == [b[p]] + b[p + 1..q];
    }
  }

  // --- writing a string so that it is read back

  function Doubled(c: char): string {
    if c == '\'' then "''" else [c]
  }

  function Quoted(s: string): string {
    if s == "" then "" else Doubled(s[0]) + Quoted(s[1..])
  }

  function HexDigit(n: nat): (c: char)
    requires n < 16
    ensures Hex(c) && HexValue(c) == n
  {
    if n < 10 then ('0' as int + n) as char else ('A' as int + n - 10) as char
  }

  /** A number as `n` hexadecimal digits. */
  function HexDigits(v: nat, n: nat): (s: string)
    ensures |s| == n
  {
    if n == 0 then "" else HexDigits(v / 16, n - 1) + [HexDigit(v % 16)]
  }

  predicate Literal(c: char) {
    ' ' <= c <= '~' && c != '"' && c != '\\'
  }

  function Escaped(c: char): string {
    if Literal(c) then [c]
    else if c == '"' then "\\\""
    else if c == '\\' then "\\\\"
    else "\\U" + HexDigits(c as int, 8)
  }

  function DoubleQuoted(s: string): string {
    if s == "" then "" else Escaped(s[0]) + DoubleQuoted(s[1..])
  }

  // --- what is written is read back

  /** A blank with no break after its run is read as itself. */
  lemma BlankStep(b: seq<char>, p: nat, double: bool)
    requires p < |b| && Blank(b[p]) && !Breakz(CharAt(b, AfterBlanks(b, p)))
    ensures Body(b, p, double) == Join([b[p]], Body(b, p + 1, double))
  {
    var q := AfterBlanks(b, p);
    assert q == AfterBlanks(b, p + 1);
    if q == p + 1 {
      assert b[p..q] == [b[p]];
    } else {
      assert Blank(b[p + 1]);
      assert b[p..q] == [b[p]] + b[p + 1..q];
      assert Body(b, p + 1, double) == Spaces(b, p + 1, double) == Join(b[p + 1..q], Body(b, q, double));
      assert Body(b, p, double) == Spaces(b, p, double) == Join(b[p..q], Body(b, q, double));
      JoinJoin([b[p]], b[p + 1..q], Body(b, q, double));
    }
  }

  /** The encoded text stands at `p`, ended by its quote, with no break in it. */
  predicate Stands(b: seq<char>, p: nat, text: string, quote: char) {
    && p + |text| < |b| && b[p..p + |text|] == text && b[p + |text|] == quote && !Breakz(quote)
    && forall i :: 0 <= i < |text| ==> !Breakz(text[i])
  }

  lemma StandsTail(b: seq<char>, p: nat, a: string, text: string, quote: char)
    requires Stands(b, p, a + text, quote)
    ensures Stands(b, p + |a|, text, quote) && b[p..p + |a|] == a
  {
    var all := a + text;
    assert b[p + |a|..p + |all|] == b[p..p + |all|][|a|..] == text;
    assert b[p..p + |a|] == b[p..p + |all|][..|a|] == a;
    forall i | 0 <= i < |text| ensures !Breakz(text[i]) {
      assert text[i] == all[|a| + i];
    }
  }

  lemma NoBreakAhead(b: seq<char>, p: nat, text: string, quote: char)
    requires Stands(b, p, text, quote) && !Blank(quote)
    ensures !Breakz(CharAt(b, AfterBlanks(b, p)))
  {
    var q := AfterBlanks(b, p);
    if q < p + |text| {
      assert b[q] == text[q - p];
    } else {
      assert q == p + |text|;
    }
  }

  lemma DoubledReadsBack(c: char, b: seq<char>, p: nat, text: string)
    requires Stands(b, p, Doubled(c) + text, '\'')
    ensures Body(b, p, false) == Join([c], Body(b, p + |Doubled(c)|, false))
  {
    var e := Doubled(c);
    StandsTail(b, p, e, text, '\'');
    assert b[p] == b[p..p + |e|][0] == e[0];
    if c == '\'' {
      assert b[p + 1] == b[p..p + 2][1];
    } else if Blank(c) {
      NoBreakAhead(b, p, e + text, '\'');
      BlankStep(b, p, false);
    } else {
      assert !Breakz((e + text)[0]);
    }
  }

  lemma ClosingApostrophe(b: seq<char>, p: nat)
    requires p < |b| && b[p] == '\'' && CharAt(b, p + 1) != '\''
    ensures Body(b, p, false) == Ok(Read("", p))
  {
  }

  /** A string with no line break, its quotes doubled, is read back. */
  lemma {:induction false} SingleQuotedReadsBack(s: string, b: seq<char>, p: nat)
    requires Stands(b, p, Quoted(s), '\'')
    requires CharAt(b, p + |Quoted(s)| + 1) != '\''
    ensures Body(b, p, false) == Ok(Read(s, p + |Quoted(s)|))
    decreases |s|
  {
    hide Body, Doubled;
    if s == "" {
      ClosingApostrophe(b, p);
    } else {
      assert Quoted(s) == Doubled(s[0]) + Quoted(s[1..]);
      DoubledReadsBack(s[0], b, p, Quoted(s[1..]));
      StandsTail(b, p, Doubled(s[0]), Quoted(s[1..]), '\'');
      SingleQuotedReadsBack(s[1..], b, p + |Doubled(s[0])|);
      assert s == [s[0]] + s[1..];
    }
  }

  function Power16(n: nat): (v: nat)
    ensures v > 0
  {
    if n == 0 then 1 else 16 * Power16(n - 1)
  }

  lemma {:induction false} HexReadsBack(v: nat, n: nat, b: seq<char>, p: nat)
    requires v < Power16(n)
    requires p + n <= |b| && b[p..p + n] == HexDigits(v, n)
    ensures AllHex(b, p, n) && HexNumber(b, p, n) == v
    decreases n
  {
    if n > 0 {
      var digits := HexDigits(v, n);
      assert b[p..p + n - 1] == b[p..p + n][..n - 1] == digits[..n - 1] == HexDigits(v / 16, n - 1);
      assert b[p + n - 1] == b[p..p + n][n - 1] == HexDigit(v % 16);
      HexReadsBack(v / 16, n - 1, b, p);
    }
  }

  lemma {:induction false} HexDigitsPlain(v: nat, n: nat)
    ensures forall i :: 0 <= i < n ==> Hex(HexDigits(v, n)[i])
    decreases n
  {
    if n > 0 {
      HexDigitsPlain(v / 16, n - 1);
    }
  }

  lemma {:induction false} DoubleQuotedPlain(s: string)
    ensures forall i :: 0 <= i < |DoubleQuoted(s)| ==> !Breakz(DoubleQuoted(s)[i])
    decreases |s|
  {
    if s != "" {
      DoubleQuotedPlain(s[1..]);
      HexDigitsPlain(s[0] as int, 8);
    }
  }

  /** One character, however it is written. */
  lemma EscapedReadsBack(c: char, b: seq<char>, p: nat, text: string)
    requires Stands(b, p, Escaped(c) + text, '"')
    ensures Body(b, p, true) == Join([c], Body(b, p + |Escaped(c)|, true))
  {
    var e := Escaped(c);
    StandsTail(b, p, e, text, '"');
    assert b[p] == b[p..p + |e|][0] == e[0];
    if Literal(c) {
      if Blank(c) {
        NoBreakAhead(b, p, e + text, '"');
        BlankStep(b, p, true);
      }
    } else {
      assert b[p + 1] == b[p..p + |e|][1] == e[1];
      if c != '"' && c != '\\' {
        assert b[p + 2..p + 10] == b[p..p + 10][2..] == HexDigits(c as int, 8);
        assert Power16(8) == 0x1_0000_0000;
        HexReadsBack(c as int, 8, b, p + 2);
      }
    }
  }

  lemma ClosingQuote(b: seq<char>, p: nat)
    requires p < |b| && b[p] == '"'
    ensures Body(b, p, true) == Ok(Read("", p))
  {
  }

  lemma {:induction false} DoubleQuotedReadsBack(s: string, b: seq<char>, p: nat)
    requires Stands(b, p, DoubleQuoted(s), '"')
    ensures Body(b, p, true) == Ok(Read(s, p + |DoubleQuoted(s)|))
    decreases |s|
  {
    hide Body, Escaped;
    if s == "" {
      ClosingQuote(b, p);
    } else {
      EscapedReadsBack(s[0], b, p, DoubleQuoted(s[1..]));
      StandsTail(b, p, Escaped(s[0]), DoubleQuoted(s[1..]), '"');
      DoubleQuotedReadsBack(s[1..], b, p + |Escaped(s[0])|);
      assert s == [s[0]] + s[1..];
    }
  }

  /** Every string at all can be written between double quotes and is read back
      whole, whatever stands before and after it. */
  lemma EveryStringCanBeWritten(s: string, before: seq<char>, after: seq<char>)
    ensures Body(before + DoubleQuoted(s) + "\"" + after, |before|, true) == Ok(Read(s, |before| + |DoubleQuoted(s)|))
  {
    var b := before + DoubleQuoted(s) + "\"" + after;
    assert b[|before|..|before| + |DoubleQuoted(s)|] == DoubleQuoted(s);
    DoubleQuotedPlain(s);
    DoubleQuotedReadsBack(s, b, |before|);
  }
}
