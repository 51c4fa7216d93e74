/** What plain and block scalars read as: a line at a time, and the breaks
    between lines folded. */
module OpenScalars {
  import opened Results
  import opened ScannerState
  import opened LineText
  import opened FlowScalars

  // --- plain scalars

  /** Whether a plain scalar's run stops at `p`. */
  predicate Stops(b: seq<char>, p: nat, flowLevel: int) {
    var c, after := CharAt(b, p), CharAt(b, p + 1);
    || BlankzTab(c)
    || (c == ':' && (BlankzTab(after) || (flowLevel != 0 && after in ",[]{}")))
    || (flowLevel != 0 && c in ",?[]{}")
  }

  function RunEnd(b: seq<char>, p: nat, flowLevel: int): (q: nat)
    ensures p <= q && (p <= |b| ==> q <= |b|)
    ensures forall i :: p <= i < q ==> !BlankzTab(CharAt(b, i))
    decreases |b| - p
  {
    if p >= |b| || Stops(b, p, flowLevel) then p else RunEnd(b, p + 1, flowLevel)
  }

  /** What stands between two lines of a plain scalar, nothing where a document
      ends there; `broken` where that holds a break. */
  datatype Between = Between(text: Option<string>, next: nat, broken: bool)

  /** The breaks from here on, the spaces around them dropped. */
  function MoreBreaks(b: seq<char>, p: nat): (r: Between)
    ensures p <= r.next && (p <= |b| ==> r.next <= |b|)
    decreases |b| - p
  {
    if p >= |b| then Between(Some(""), p, true)
    else if b[p] == ' ' then MoreBreaks(b, p + 1)
    else if Break(b[p]) then
      var q := AfterBreak(b, p);
      if SeparatorAt(b, q) then Between(None, q, true)
      else
        var rest := MoreBreaks(b, q);
        if rest.text.None? then rest else rest.(text := Some(BreakText(b[p]) + rest.text.value))
    else Between(Some(""), p, true)
  }

  function BetweenLines(b: seq<char>, p: nat): (r: Between)
    requires p <= |b|
    ensures p <= r.next <= |b|
  {
    var q := SpacesEnd(b, p);
    if Break(CharAt(b, q)) then
      var next := AfterBreak(b, q);
      if SeparatorAt(b, next) then Between(None, next, true)
      else
        var rest := MoreBreaks(b, next);
        if rest.text.None? then rest else rest.(text := Some(Folded(BreakText(b[q]), rest.text.value)))
    else Between(Some(b[p..q]), q, false)
  }

  datatype ReadPlain = ReadPlain(text: string, next: nat, broken: bool)

  /** Whether a plain scalar goes on after what stands between two lines. */
  predicate GoesOn(b: seq<char>, r: Between, flowLevel: int, indent: int) {
    && r.text.Some? && r.text.value != "" && r.next < |b| && b[r.next] != '#'
    && (flowLevel != 0 || ColumnAt(b, r.next) >= indent)
  }

  /** A plain scalar's text from `p`, where a line of it may begin. */
  function Plain(b: seq<char>, p: nat, flowLevel: int, indent: int): (r: ReadPlain)
    requires p <= |b|
    ensures p <= r.next <= |b|
    decreases |b| - p
  {
    var q := if CharAt(b, p) == '#' then p else RunEnd(b, p, flowLevel);
    if q == p then ReadPlain("", p, false)
    else
      var between := BetweenLines(b, q);
      if !GoesOn(b, between, flowLevel, indent) then ReadPlain(b[p..q], between.next, between.broken)
      else
        var rest := Plain(b, between.next, flowLevel, indent);
        if rest.text == "" then ReadPlain(b[p..q], rest.next, between.broken)
        else ReadPlain(b[p..q] + (between.text.value + rest.text), rest.next, rest.broken)
  }

  // --- block scalars

  datatype Header = Header(chomping: Option<bool>, increment: Option<nat>, next: nat)

  predicate Chomps(c: char) {
    c == '+' || c == '-'
  }

  /** `+` or `-`, and a digit that is not zero, in either order and each at most once. */
  function HeaderAt(b: seq<char>, p: nat): (r: Result<Header>)
    ensures r.Ok? ==> p <= r.value.next <= p + 2 && (p <= |b| ==> r.value.next <= |b|)
    ensures r.Ok? && r.value.increment.Some? ==> 1 <= r.value.increment.value <= 9
  {
    var c, d := CharAt(b, p), CharAt(b, p + 1);
    var header :-
      if Chomps(c) then
        if d == '0' then Err(ScanFault)
        else if Digit(d) then Ok(Header(Some(c == '+'), Some(HexValue(d)), p + 2))
        else Ok(Header(Some(c == '+'), None, p + 1))
      else if c == '0' then Err(ScanFault)
      else if Digit(c) then
        if Chomps(d) then Ok(Header(Some(d == '+'), Some(HexValue(c)), p + 2)) else Ok(Header(None, Some(HexValue(c)), p + 1))
      else Ok(Header(None, None, p));
    if Blankz(CharAt(b, header.next)) then Ok(header) else Err(ScanFault)
  }

  /** Past the spaces up to a column. */
  function Indented(b: seq<char>, p: nat, indent: nat): (q: nat)
    ensures p <= q && (p <= |b| ==> q <= |b|)
    decreases |b| - p
  {
    if p < |b| && ColumnAt(b, p) < indent && b[p] == ' ' then Indented(b, p + 1, indent) else p
  }

  /** The breaks of empty lines. */
  function BlockBreaks(b: seq<char>, p: nat, indent: nat): (r: Read)
    ensures p <= r.next && (p <= |b| ==> r.next <= |b|)
    decreases |b| - p
  {
    var q := Indented(b, p, indent);
    if q < |b| && Break(b[q]) then
      var rest := BlockBreaks(b, AfterBreak(b, q), indent);
      Read(BreakText(b[q]) + rest.text, rest.next)
    else Read("", q)
  }

  datatype Leading = Leading(text: string, deepest: nat, next: nat)

  /** The breaks before the first line, and the deepest column of the spaces among them. */
  function LeadingAt(b: seq<char>, p: nat): (r: Leading)
    ensures p <= r.next && (p <= |b| ==> r.next <= |b|)
    decreases |b| - p
  {
    if p >= |b| then Leading("", 0, p)
    else if b[p] == ' ' then
      var rest := LeadingAt(b, p + 1);
      rest.(deepest := if rest.deepest > ColumnAt(b, p + 1) then rest.deepest else ColumnAt(b, p + 1))
    else if Break(b[p]) then
      var rest := LeadingAt(b, AfterBreak(b, p));
      rest.(text := BreakText(b[p]) + rest.text)
    else Leading("", 0, p)
  }

  predicate LineAhead(b: seq<char>, p: nat, indent: nat) {
    p < |b| && ColumnAt(b, p) == indent && b[p] != '\0'
  }

  /** What joins a line to the next: in a folded scalar, between lines that do
      not begin with a blank, one break is a space and more are one fewer. */
  function Joint(folded: bool, first: char, lineBreak: string, breaks: string, second: char): string {
    if folded && lineBreak == "\n" && !Blank(first) && !Blank(second) then if breaks == "" then " " else "" else lineBreak
  }

  /** What chomping leaves of the last line's break and the breaks after it. */
  function Chomped(chomping: Option<bool>, lineBreak: string, breaks: string): string {
    (if chomping != Some(false) then lineBreak else "") + (if chomping == Some(true) then breaks else "")
  }

  function LineBreakAt(b: seq<char>, p: nat): string {
    if Break(CharAt(b, p)) then BreakText(b[p]) else ""
  }

  /** The lines from `p` on, after some breaks. */
  function Lines(b: seq<char>, p: nat, indent: nat, folded: bool, chomping: Option<bool>, breaks: string): (r: Read)
    requires LineAhead(b, p, indent)
    ensures p < r.next <= |b|
    decreases |b| - p
  {
    var end := LineEnd(b, p);
    var lineBreak := LineBreakAt(b, end);
    var next := BlockBreaks(b, BreakEnd(b, end), indent);
    var line := breaks + b[p..end];
    if LineAhead(b, next.next, indent) then
      var rest := Lines(b, next.next, indent, folded, chomping, next.text);
      Read(line + (Joint(folded, b[p], lineBreak, next.text, b[next.next]) + rest.text), rest.next)
    else Read(line + Chomped(chomping, lineBreak, next.text), next.next)
  }

  function BlockText(b: seq<char>, p: nat, indent: nat, folded: bool, chomping: Option<bool>, breaks: string): (r: Read)
    requires p <= |b|
    ensures p <= r.next <= |b|
  {
    if LineAhead(b, p, indent) then Lines(b, p, indent, folded, chomping, breaks) else Read(Chomped(chomping, "", breaks), p)
  }

  /** A block scalar's text from the line after its header on. */
  function BlockBody(b: seq<char>, p: nat, outer: int, folded: bool, chomping: Option<bool>, increment: Option<nat>): (r: Read)
    requires p <= |b| && outer >= -1 && (increment.Some? ==> increment.value >= 1)
    ensures p <= r.next <= |b|
  {
    var least: nat := if outer + 1 > 1 then outer + 1 else 1;
    match increment
    case None =>
      var leading := LeadingAt(b, p);
      var indent := if least > leading.deepest then least else leading.deepest;
      BlockText(b, leading.next, indent, folded, chomping, leading.text)
    case Some(n) =>
      var leading := BlockBreaks(b, p, least + n - 1);
      BlockText(b, leading.next, least + n - 1, folded, chomping, leading.text)
  }

  /** A block scalar from past its `|` or `>`, inside blocks at some indentation. */
  function Block(b: seq<char>, p: nat, outer: int, folded: bool): Result<Read>
    requires p <= |b| && outer >= -1
  {
    var header :- HeaderAt(b, p);
    var body :- RestOfLine(b, header.next);
    Ok(BlockBody(b, body, outer, folded, header.chomping, header.increment))
  }

  // --- steps

  lemma {:induction false} RunEndIs(b: seq<char>, p: nat, q: nat, flowLevel: int)
    requires p <= q < |b| && Stops(b, q, flowLevel) && forall i :: p <= i < q ==> !Stops(b, i, flowLevel)
    ensures RunEnd(b, p, flowLevel) == q
    decreases q - p
  {
    if p < q {
      RunEndIs(b, p + 1, q, flowLevel);
    }
  }

  lemma {:induction false} IndentedIs(b: seq<char>, p: nat, q: nat, indent: nat)
    requires p <= q < |b| && !(ColumnAt(b, q) < indent && b[q] == ' ')
    requires forall i :: p <= i < q ==> ColumnAt(b, i) < indent && b[i] == ' '
    ensures Indented(b, p, indent) == q
    decreases q - p
  {
    if p < q {
      IndentedIs(b, p + 1, q, indent);
    }
  }

  function Before(s: string, r: Between): Between {
    if r.text.None? then r else r.(text := Some(s + r.text.value))
  }

  lemma NothingBefore(r: Between)
    ensures Before("", r) == r
  {
    if r.text.Some? {
      assert "" + r.text.value == r.text.value;
    }
  }

  lemma BeforeBefore(s: string, t: string, r: Between)
    ensures Before(s, Before(t, r)) == Before(s + t, r)
  {
    if r.text.Some? {
      assert s + (t + r.text.value) == s + t + r.text.value;
    }
  }

  /** What a step over one more space, break or neither makes of the breaks. */
  lemma MoreBreaksStep(b: seq<char>, p: nat, s: string)
    requires p < |b|
    ensures b[p] == ' ' ==> MoreBreaks(b, p) == MoreBreaks(b, p + 1)
    ensures Break(b[p]) ==>
              var q := AfterBreak(b, p);
              Before(s, MoreBreaks(b, p)) ==
              if SeparatorAt(b, q) then Between(None, q, true) else Before(s + BreakText(b[p]), MoreBreaks(b, q))
    ensures b[p] != ' ' && !Break(b[p]) ==> Before(s, MoreBreaks(b, p)) == Between(Some(s), p, true)
  {
    hide SeparatorAt;
    if Break(b[p]) {
      BeforeBefore(s, BreakText(b[p]), MoreBreaks(b, AfterBreak(b, p)));
    }
    assert s + "" == s;
  }

  /** A plain scalar some of which is read, what stands before the rest not yet
      part of it. */
  function PlainSoFar(value: string, spaces: string, broken: bool, rest: ReadPlain): ReadPlain {
    if value == "" then rest
    else if rest.text == "" then ReadPlain(value, rest.next, broken)
    else ReadPlain(value + (spaces + rest.text), rest.next, rest.broken)
  }

  lemma NothingYet(spaces: string, broken: bool, rest: ReadPlain)
    ensures PlainSoFar("", spaces, broken, rest) == rest
  {
  }

  lemma PlainStops(b: seq<char>, p: nat, flowLevel: int, indent: int, value: string, spaces: string, broken: bool)
    requires p < |b| && (b[p] == '#' || RunEnd(b, p, flowLevel) == p)
    ensures Plain(b, p, flowLevel, indent).text == ""
    ensures value != "" ==> PlainSoFar(value, spaces, broken, Plain(b, p, flowLevel, indent)) == ReadPlain(value, p, broken)
  {
  }

  lemma PlainGoes(b: seq<char>, p: nat, flowLevel: int, indent: int, value: string, spaces: string, broken: bool)
    requires p < |b| && b[p] != '#' && RunEnd(b, p, flowLevel) > p && (value == "" ==> spaces == "")
    ensures var q := RunEnd(b, p, flowLevel);
            var between := BetweenLines(b, q);
            var line := value + spaces + b[p..q];
            PlainSoFar(value, spaces, broken, Plain(b, p, flowLevel, indent)) ==
            if GoesOn(b, between, flowLevel, indent)
            then PlainSoFar(line, between.text.value, between.broken, Plain(b, between.next, flowLevel, indent))
            else ReadPlain(line, between.next, between.broken)
  {
    hide BetweenLines, RunEnd;
    var q := RunEnd(b, p, flowLevel);
    var between := BetweenLines(b, q);
    var run := b[p..q];
    assert value + (spaces + run) == value + spaces + run;
    if GoesOn(b, between, flowLevel, indent) {
      var rest := Plain(b, between.next, flowLevel, indent);
      var more := between.text.value + rest.text;
      assert value + (spaces + (run + more)) == value + spaces + run + more;
    }
  }

  lemma BlockBreaksStep(b: seq<char>, p: nat, indent: nat, s: string)
    requires p < |b| && !(ColumnAt(b, p) < indent && b[p] == ' ')
    ensures Indented(b, p, indent) == p
    ensures Break(b[p]) ==> var rest := BlockBreaks(b, AfterBreak(b, p), indent);
                            && BlockBreaks(b, p, indent).next == rest.next
                            && s + BlockBreaks(b, p, indent).text == s + BreakText(b[p]) + rest.text
    ensures !Break(b[p]) ==> s + BlockBreaks(b, p, indent).text == s && BlockBreaks(b, p, indent).next == p
  {
    if Break(b[p]) {
      var rest := BlockBreaks(b, AfterBreak(b, p), indent);
      assert s + (BreakText(b[p]) + rest.text) == s + BreakText(b[p]) + rest.text;
    } else {
      assert s + "" == s;
    }
  }

  lemma {:induction false} BlockBreaksIndented(b: seq<char>, p: nat, indent: nat)
    ensures BlockBreaks(b, Indented(b, p, indent), indent) == BlockBreaks(b, p, indent)
    decreases |b| - p
  {
    if p < |b| && ColumnAt(b, p) < indent && b[p] == ' ' {
      BlockBreaksIndented(b, p + 1, indent);
    }
  }

  /** Leading breaks some of which are read. */
  function LeadingSoFar(s: string, deepest: nat, rest: Leading): Leading {
    Leading(s + rest.text, if deepest > rest.deepest then deepest else rest.deepest, rest.next)
  }

  lemma NoLeadingYet(rest: Leading)
    ensures LeadingSoFar("", 0, rest) == rest
  {
    assert "" + rest.text == rest.text;
  }

  lemma LeadingStep(b: seq<char>, p: nat, s: string, deepest: nat)
    requires p < |b|
    ensures var all := LeadingSoFar(s, deepest, LeadingAt(b, p));
            var column := ColumnAt(b, p + 1);
            if b[p] == ' ' then all == LeadingSoFar(s, if deepest > column then deepest else column, LeadingAt(b, p + 1))
            else if Break(b[p]) then all == LeadingSoFar(s + BreakText(b[p]), deepest, LeadingAt(b, AfterBreak(b, p)))
            else all == Leading(s, deepest, p)
  {
    hide ColumnAt;
    if Break(b[p]) {
      var rest := LeadingAt(b, AfterBreak(b, p));
      assert s + (BreakText(b[p]) + rest.text) == s + BreakText(b[p]) + rest.text;
    }
    assert s + "" == s;
  }

  /** A block scalar some of which is read, the last line's break and the breaks
      after it not yet part of it. */
  function BlockSoFar(b: seq<char>, p: nat, indent: nat, folded: bool, chomping: Option<bool>,
                      chunks: string, lineBreak: string, breaks: string): Read
  {
    if LineAhead(b, p, indent) then
      var rest := Lines(b, p, indent, folded, chomping, breaks);
      Read(chunks + rest.text, rest.next)
    else Read(chunks + Chomped(chomping, lineBreak, breaks), p)
  }

  lemma BlockStep(b: seq<char>, p: nat, indent: nat, folded: bool, chomping: Option<bool>, chunks: string, before: string, breaks: string)
    requires LineAhead(b, p, indent)
    ensures var end := LineEnd(b, p);
            var lineBreak := LineBreakAt(b, end);
            var next := BlockBreaks(b, BreakEnd(b, end), indent);
            var line := chunks + breaks + b[p..end];
            BlockSoFar(b, p, indent, folded, chomping, chunks, before, breaks) ==
            BlockSoFar(b, next.next, indent, folded, chomping,
                       if LineAhead(b, next.next, indent)
                       then line + Joint(folded, b[p], lineBreak, next.text, b[next.next]) else line,
                       lineBreak, next.text)
  {
    hide BlockBreaks, BreakEnd, LineEnd, Joint, Chomped, ColumnAt;
    var end := LineEnd(b, p);
    var lineBreak := LineBreakAt(b, end);
    var next := BlockBreaks(b, BreakEnd(b, end), indent);
    var line := breaks + b[p..end];
    assert chunks + line == chunks + breaks + b[p..end];
    if LineAhead(b, next.next, indent) {
      var rest := Lines(b, next.next, indent, folded, chomping, next.text);
      var joint := Joint(folded, b[p], lineBreak, next.text, b[next.next]);
      assert chunks + (line + (joint + rest.text)) == chunks + line + joint + rest.text;
    } else {
      var chomp := Chomped(chomping, lineBreak, next.text);
      assert chunks + (line + chomp) == chunks + line + chomp;
    }
  }

  // --- nothing but blanks and breaks is lost

  lemma {:induction false} SpacesAreGaps(b: seq<char>, p: nat)
    requires p <= |b|
    ensures GapsOnly(b, p, SpacesEnd(b, p))
    decreases |b| - p
  {
    if p < |b| && b[p] == ' ' {
      SpacesAreGaps(b, p + 1);
    }
  }

  lemma {:induction false} MoreBreaksAreGaps(b: seq<char>, p: nat)
    requires p <= |b|
    ensures var r := MoreBreaks(b, p);
            GapsOnly(b, p, r.next) && (r.text.Some? ==> GapsOnly(r.text.value, 0, |r.text.value|))
    decreases |b| - p
  {
    if p < |b| && b[p] == ' ' {
      MoreBreaksAreGaps(b, p + 1);
    } else if p < |b| && Break(b[p]) && !SeparatorAt(b, AfterBreak(b, p)) {
      MoreBreaksAreGaps(b, AfterBreak(b, p));
    }
  }

  lemma BetweenAreGaps(b: seq<char>, p: nat)
    requires p <= |b|
    ensures var r := BetweenLines(b, p);
            GapsOnly(b, p, r.next) && (r.text.Some? ==> GapsOnly(r.text.value, 0, |r.text.value|))
  {
    SpacesAreGaps(b, p);
    var q := SpacesEnd(b, p);
    if Break(CharAt(b, q)) && !SeparatorAt(b, AfterBreak(b, q)) {
      MoreBreaksAreGaps(b, AfterBreak(b, q));
    }
  }

  /** A plain scalar and the text it is read from differ in nothing but blanks
      and breaks, and it neither begins nor ends with one. */
  lemma {:induction false} PlainKeepsText(b: seq<char>, p: nat, flowLevel: int, indent: int)
    requires p <= |b|
    ensures var r := Plain(b, p, flowLevel, indent);
            && (r.text != "" ==> Dense(r.text) == Dense(b[p..r.next]) && r.text[0] == b[p] && !Gap(r.text[|r.text| - 1]))
    decreases |b| - p
  {
    hide Dense, Stops, BetweenLines, GapsOnly;
    var q := if CharAt(b, p) == '#' then p else RunEnd(b, p, flowLevel);
    if q != p {
      var between := BetweenLines(b, q);
      BetweenAreGaps(b, q);
      DenseOverGaps(b, p, q, between.next);
      assert !Gap(b[p..q][|b[p..q]| - 1]) by { assert !BlankzTab(CharAt(b, q - 1)); }
      if GoesOn(b, between, flowLevel, indent) {
        PlainKeepsText(b, between.next, flowLevel, indent);
        var rest := Plain(b, between.next, flowLevel, indent);
        if rest.text != "" {
          Appended(b, p, q, between.next, rest.next, between.text.value, rest.text);
        } else {
          PlainNothing(b, between.next, flowLevel, indent);
        }
      }
    }
  }

  lemma PlainNothing(b: seq<char>, p: nat, flowLevel: int, indent: int)
    requires p <= |b| && Plain(b, p, flowLevel, indent).text == ""
    ensures Plain(b, p, flowLevel, indent).next == p
  {
  }

  /** A line, gaps, and more of the text, on both sides. */
  lemma Appended(b: seq<char>, p: nat, q: nat, n: nat, end: nat, gaps: string, rest: string)
    requires p <= q <= n <= end <= |b| && GapsOnly(b, q, n) && GapsOnly(gaps, 0, |gaps|)
    requires Dense(rest) == Dense(b[n..end])
    ensures Dense(b[p..q] + (gaps + rest)) == Dense(b[p..end])
  {
    hide Dense, GapsOnly;
    DenseConcat(b[p..q], gaps + rest);
    DenseConcat(gaps, rest);
    assert Dense(gaps) == "" by { GapsAreNothing(gaps); }
    DenseOverGaps(b, p, q, n);
    assert b[p..end] == b[p..n] + b[n..end];
    DenseConcat(b[p..n], b[n..end]);
  }

  lemma GapsAreNothing(gaps: string)
    requires GapsOnly(gaps, 0, |gaps|)
    ensures Dense(gaps) == ""
  {
    DenseOfGaps(gaps);
  }

  lemma {:induction false} BlockBreaksAreGaps(b: seq<char>, p: nat, indent: nat)
    requires p <= |b|
    ensures var r := BlockBreaks(b, p, indent);
            && GapsOnly(b, p, r.next) && GapsOnly(r.text, 0, |r.text|)
            && !Break(CharAt(b, r.next))
    decreases |b| - p
  {
    IndentedAreGaps(b, p, indent);
    var q := Indented(b, p, indent);
    if q < |b| && Break(b[q]) {
      BlockBreaksAreGaps(b, AfterBreak(b, q), indent);
    }
  }

  lemma {:induction false} IndentedAreGaps(b: seq<char>, p: nat, indent: nat)
    requires p <= |b|
    ensures GapsOnly(b, p, Indented(b, p, indent))
    decreases |b| - p
  {
    if p < |b| && ColumnAt(b, p) < indent && b[p] == ' ' {
      IndentedAreGaps(b, p + 1, indent);
    }
  }

  lemma {:induction false} LeadingIsGaps(b: seq<char>, p: nat)
    requires p <= |b|
    ensures var r := LeadingAt(b, p);
            && GapsOnly(b, p, r.next) && GapsOnly(r.text, 0, |r.text|)
            && !Break(CharAt(b, r.next))
    decreases |b| - p
  {
    if p < |b| && b[p] == ' ' {
      LeadingIsGaps(b, p + 1);
    } else if p < |b| && Break(b[p]) {
      LeadingIsGaps(b, AfterBreak(b, p));
    }
  }

  lemma BreakEndIsGaps(b: seq<char>, p: nat)
    requires p <= |b|
    ensures p <= BreakEnd(b, p) <= |b| && GapsOnly(b, p, BreakEnd(b, p))
  {
  }

  lemma {:induction false} LineEndIsFirst(b: seq<char>, p: nat)
    ensures forall i :: p <= i < LineEnd(b, p) ==> !Breakz(CharAt(b, i))
    decreases |b| - p
  {
    if p < |b| && !Breakz(b[p]) {
      LineEndIsFirst(b, p + 1);
    }
  }

  /** The lines of a block scalar and their text differ in nothing but blanks
      and breaks; stripped ones do not end with a break. */
  lemma {:induction false} LinesKeepText(b: seq<char>, p: nat, indent: nat, folded: bool, chomping: Option<bool>, breaks: string)
    requires LineAhead(b, p, indent) && !Break(b[p]) && GapsOnly(breaks, 0, |breaks|)
    ensures var r := Lines(b, p, indent, folded, chomping, breaks);
            && Dense(r.text) == Dense(b[p..r.next])
            && r.text != "" && (chomping == Some(false) ==> !Break(r.text[|r.text| - 1]))
    decreases |b| - p
  {
    hide Dense, GapsOnly, Gap, BlockBreaks, LineEnd, BreakEnd, Joint, Chomped;
    var end := LineEnd(b, p);
    LineIsText(b, p);
    var lineBreak := LineBreakAt(b, end);
    var next := BlockBreaks(b, BreakEnd(b, end), indent);
    assert end <= next.next <= |b| && GapsOnly(b, end, next.next) && GapsOnly(next.text, 0, |next.text|) && !Break(CharAt(b, next.next)) by {
      BreakEndIsGaps(b, end);
      BlockBreaksAreGaps(b, BreakEnd(b, end), indent);
      GapsJoin(b, end, BreakEnd(b, end), next.next);
    }
    assert GapsOnly(lineBreak, 0, |lineBreak|) by { BreakIsGap(b, end); }
    if LineAhead(b, next.next, indent) {
      LinesKeepText(b, next.next, indent, folded, chomping, next.text);
      var rest := Lines(b, next.next, indent, folded, chomping, next.text);
      hide Lines;
      var joint := Joint(folded, b[p], lineBreak, next.text, b[next.next]);
      JointIsGaps(folded, b[p], lineBreak, next.text, b[next.next]);
      Appended(b, p, end, next.next, rest.next, joint, rest.text);
      AfterGaps(breaks, b[p..end], joint + rest.text);
    } else {
      var chomp := Chomped(chomping, lineBreak, next.text);
      ChompedIsGaps(chomping, lineBreak, next.text);
      LastLine(b, p, end, next.next, chomp);
      AfterGaps(breaks, b[p..end], chomp);
    }
  }

  lemma LineIsText(b: seq<char>, p: nat)
    requires p < |b| && !Breakz(b[p])
    ensures p < LineEnd(b, p) <= |b| && !Break(b[LineEnd(b, p) - 1])
  {
    LineEndIsFirst(b, p);
    assert !Breakz(CharAt(b, LineEnd(b, p) - 1));
  }

  lemma LastLine(b: seq<char>, p: nat, q: nat, n: nat, gaps: string)
    requires p <= q <= n <= |b| && GapsOnly(b, q, n) && GapsOnly(gaps, 0, |gaps|)
    ensures Dense(b[p..q] + gaps) == Dense(b[p..n])
  {
    hide Dense;
    assert b[n..n] == "";
    Appended(b, p, q, n, n, gaps, "");
    assert gaps + "" == gaps;
  }

  lemma AfterGaps(breaks: string, line: string, rest: string)
    requires GapsOnly(breaks, 0, |breaks|)
    ensures Dense(breaks + line + rest) == Dense(line + rest)
  {
    hide Dense;
    assert breaks + line + rest == breaks + (line + rest);
    DenseConcat(breaks, line + rest);
    GapsAreNothing(breaks);
    assert "" + Dense(line + rest) == Dense(line + rest);
  }

  lemma GapsJoin(b: seq<char>, p: nat, q: nat, r: nat)
    requires GapsOnly(b, p, q) && GapsOnly(b, q, r)
    ensures GapsOnly(b, p, r)
  {
  }

  lemma BreakIsGap(b: seq<char>, p: nat)
    ensures Break(CharAt(b, p)) ==> GapsOnly(BreakText(CharAt(b, p)), 0, |BreakText(CharAt(b, p))|)
    ensures GapsOnly("", 0, 0)
  {
  }

  lemma JointIsGaps(folded: bool, first: char, lineBreak: string, breaks: string, second: char)
    requires GapsOnly(lineBreak, 0, |lineBreak|)
    ensures var joint := Joint(folded, first, lineBreak, breaks, second); GapsOnly(joint, 0, |joint|)
  {
  }

  lemma ChompedIsGaps(chomping: Option<bool>, lineBreak: string, breaks: string)
    requires GapsOnly(lineBreak, 0, |lineBreak|) && GapsOnly(breaks, 0, |breaks|)
    ensures var chomp := Chomped(chomping, lineBreak, breaks); GapsOnly(chomp, 0, |chomp|) && (chomping == Some(false) ==> chomp == "")
  {
  }

  lemma TextKeepsText(b: seq<char>, start: nat, p: nat, indent: nat, folded: bool, chomping: Option<bool>, breaks: string)
    requires start <= p <= |b| && GapsOnly(b, start, p) && GapsOnly(breaks, 0, |breaks|) && !Break(CharAt(b, p))
    ensures var r := BlockText(b, p, indent, folded, chomping, breaks);
            && Dense(r.text) == Dense(b[start..r.next])
            && (chomping == Some(false) ==> r.text == "" || !Break(r.text[|r.text| - 1]))
  {
    hide Dense, GapsOnly, Lines, ColumnAt;
    DenseOverGaps(b, start, start, p);
    assert b[start..start] == "";
    GapsAreNothing(breaks);
    BreakIsGap(b, p);
    if LineAhead(b, p, indent) {
      LinesKeepText(b, p, indent, folded, chomping, breaks);
      var r := Lines(b, p, indent, folded, chomping, breaks);
      assert b[start..r.next] == b[start..p] + b[p..r.next];
      DenseConcat(b[start..p], b[p..r.next]);
      assert "" + Dense(b[p..r.next]) == Dense(b[p..r.next]);
      EmptyDense();
    } else {
      ChompedIsGaps(chomping, "", breaks);
      GapsAreNothing(Chomped(chomping, "", breaks));
      EmptyDense();
    }
  }

  lemma EmptyDense()
    ensures Dense("") == ""
  {
  }

  /** A block scalar and the text under its header differ in nothing but blanks
      and breaks; one stripped by `-`, wherever in the header that stands, does
      not end with a break. */
  lemma BlockKeepsText(b: seq<char>, p: nat, outer: int, folded: bool)
    requires p <= |b| && outer >= -1 && Block(b, p, outer, folded).Ok?
    ensures HeaderAt(b, p).Ok? && RestOfLine(b, HeaderAt(b, p).value.next).Ok?
    ensures var header := HeaderAt(b, p).value;
            var start := RestOfLine(b, header.next).value;
            var r := Block(b, p, outer, folded).value;
            && start <= r.next <= |b| && Dense(r.text) == Dense(b[start..r.next])
            && (header.chomping == Some(false) ==> r.text == "" || !Break(r.text[|r.text| - 1]))
  {
    hide Dense, GapsOnly, HeaderAt, RestOfLine, BlockText, LeadingAt, BlockBreaks, Break;
    var header := HeaderAt(b, p).value;
    var start := RestOfLine(b, header.next).value;
    var least: nat := if outer + 1 > 1 then outer + 1 else 1;
    match header.increment
    case None =>
      LeadingIsGaps(b, start);
      var leading := LeadingAt(b, start);
      var indent := if least > leading.deepest then least else leading.deepest;
      TextKeepsText(b, start, leading.next, indent, folded, header.chomping, leading.text);
    case Some(n) =>
      BlockBreaksAreGaps(b, start, least + n - 1);
      var leading := BlockBreaks(b, start, least + n - 1);
      TextKeepsText(b, start, leading.next, least + n - 1, folded, header.chomping, leading.text);
  }

  /** A header strips just where a `-` stands in it, and keeps where a `+` does. */
  lemma HeaderChomps(b: seq<char>, p: nat)
    requires HeaderAt(b, p).Ok?
    ensures var header := HeaderAt(b, p).value;
            && (header.chomping == Some(false) <==> exists i :: p <= i < header.next && CharAt(b, i) == '-')
            && (header.chomping == Some(true) <==> exists i :: p <= i < header.next && CharAt(b, i) == '+')
  {
    var header := HeaderAt(b, p).value;
    if Chomps(CharAt(b, p)) {
      assert p < header.next;
    }
    if header.next == p + 2 {
      assert p <= p + 1 < header.next;
    }
  }
}
