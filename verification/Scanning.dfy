/** The scanner as a function of the text: its state, what each fetch makes of
    it, and the tokens of a whole text. */
module Scanning {
  import opened Results
  import opened YamlTokens
  import opened ScannerState
  import F = FlowScalars
  import T = TagText
  import L = LineText
  import O = OpenScalars

  /** Where a scanner is; its line and column are those of its place. */
  datatype Scan = Scan(
    pointer: nat,
    tokens: seq<Tok>,
    taken: nat,
    flowLevel: int,
    indent: int,
    indents: seq<int>,
    allow: bool,
    keys: map<int, SimpleKey>,
    done: bool)

  const START := Scan(0, [Tok.StreamStart], 0, 0, -1, [], true, map[], false)

  // --- keys and blocks

  predicate Held(s: Scan) {
    s.flowLevel in s.keys && s.keys[s.flowLevel].required
  }

  function Removed(s: Scan): Result<Scan> {
    if Held(s) then Err(ScanFault) else Ok(s.(keys := s.keys - {s.flowLevel}))
  }

  function KeyHere(b: seq<char>, s: Scan): SimpleKey
    requires s.pointer <= |b|
  {
    SimpleKey(s.taken + |s.tokens|, s.flowLevel == 0 && s.indent == ColumnAt(b, s.pointer), s.pointer, LineAt(b, s.pointer), ColumnAt(b, s.pointer))
  }

  function Saved(b: seq<char>, s: Scan): (r: Result<Scan>)
    requires s.pointer <= |b|
    ensures r.Ok? ==> r.value == s.(keys := r.value.keys)
  {
    if !s.allow then Ok(s)
    else if Held(s) then Err(ScanFault)
    else Ok(s.(keys := s.keys[s.flowLevel := KeyHere(b, s)]))
  }

  /** The blocks deeper than a column are ended; in flow context, none. */
  function Unwound(s: Scan, column: int): (u: Scan)
    ensures u == s.(indent := u.indent, indents := u.indents, tokens := u.tokens)
    decreases |s.indents|
  {
    if s.flowLevel != 0 || s.indent <= column || s.indents == [] then s
    else
      var last := |s.indents| - 1;
      Unwound(s.(indent := s.indents[last], indents := s.indents[..last], tokens := s.tokens + [Tok.BlockEnd]), column)
  }

  function Deeper(s: Scan, column: int): Scan {
    if s.flowLevel == 0 && s.indent < column then s.(indents := s.indents + [s.indent], indent := column) else s
  }

  /** A block collection started where the column is deeper than any open one. */
  function Opened(s: Scan, start: Tok, column: int): Result<Scan> {
    if s.flowLevel == 0 && !s.allow then Err(ScanFault)
    else Ok(Deeper(s, column).(tokens := s.tokens + Opening(start, s.flowLevel, s.indent, column)))
  }

  /** Blocks deeper than a column ended, a block end for each. */
  predicate Unwinds(s: Scan, u: Scan, column: int) {
    && |u.indents| <= |s.indents| && u.indents + [u.indent] == (s.indents + [s.indent])[..|u.indents| + 1]
    && u.indent <= column && (forall i :: |u.indents| < i <= |s.indents| ==> (s.indents + [s.indent])[i] > column)
    && s.tokens <= u.tokens && |u.tokens| - |s.tokens| == |s.indents| - |u.indents|
    && forall i :: |s.tokens| <= i < |u.tokens| ==> u.tokens[i].BlockEnd?
  }

  /** Exactly the deeper ones; none in flow context. */
  lemma {:induction false} UnwoundIs(s: Scan, column: int)
    requires IndentsOk(s.indents, s.indent) && column >= -1
    ensures if s.flowLevel == 0 then Unwinds(s, Unwound(s, column), column) else Unwound(s, column) == s
    decreases |s.indents|
  {
    IndentsEmpty(s.indents, s.indent);
    if s.flowLevel == 0 {
      if s.indent > column {
        PopIndent(s.indents, s.indent);
        hide IndentsOk, Unwinds;
        var last := |s.indents| - 1;
        var t := s.(indent := s.indents[last], indents := s.indents[..last], tokens := s.tokens + [Tok.BlockEnd]);
        UnwoundIs(t, column);
        UnwindsOne(s, t, Unwound(t, column), column);
      } else {
        assert (s.indents + [s.indent])[..|s.indents| + 1] == s.indents + [s.indent];
      }
    }
  }

  lemma UnwindsOne(s: Scan, t: Scan, u: Scan, column: int)
    requires s.indents != [] && s.indent > column && Unwinds(t, u, column)
    requires t.indents == s.indents[..|s.indents| - 1] && t.indent == s.indents[|s.indents| - 1] && t.tokens == s.tokens + [Tok.BlockEnd]
    ensures Unwinds(s, u, column)
  {
    var all := s.indents + [s.indent];
    assert t.indents + [t.indent] == s.indents == all[..|s.indents|];
    assert all[..|s.indents|][..|u.indents| + 1] == all[..|u.indents| + 1];
  }

  /** A token at the end of the queue, the text read up to some place. */
  function Queued(s: Scan, tok: Tok, pointer: nat, allow: bool): Scan {
    s.(tokens := s.tokens + [tok], pointer := pointer, allow := allow)
  }

  // --- fetches

  function FetchedStreamEnd(s: Scan): Result<Scan> {
    var u :- Removed(Unwound(s, -1));
    Ok(Queued(u, Tok.StreamEnd, u.pointer, false).(keys := map[], done := true))
  }

  function FetchedDirective(b: seq<char>, s: Scan): Result<Scan> {
    var u :- Removed(Unwound(s, -1));
    var read :- L.DirectiveAt(b, s.pointer);
    Ok(Queued(u, Tok.DirectiveTok(read.directive), read.next, false))
  }

  function FetchedIndicator(s: Scan, tok: Tok): Result<Scan> {
    var u :- Removed(Unwound(s, -1));
    Ok(Queued(u, tok, s.pointer + 3, false))
  }

  function FetchedFlowStart(b: seq<char>, s: Scan, tok: Tok): Result<Scan>
    requires s.pointer <= |b|
  {
    var k :- Saved(b, s);
    Ok(Queued(k, tok, s.pointer + 1, true).(flowLevel := s.flowLevel + 1))
  }

  function FetchedFlowEnd(s: Scan, tok: Tok): Result<Scan> {
    var k :- Removed(s);
    Ok(Queued(k, tok, s.pointer + 1, false).(flowLevel := s.flowLevel - 1))
  }

  function FetchedFlowEntry(s: Scan): Result<Scan> {
    var k :- Removed(s);
    Ok(Queued(k, Tok.FlowEntry, s.pointer + 1, true))
  }

  function FetchedBlockEntry(b: seq<char>, s: Scan): Result<Scan>
    requires s.pointer <= |b|
  {
    var o :- Opened(s, Tok.BlockSequenceStart, ColumnAt(b, s.pointer));
    var k :- Removed(o);
    Ok(Queued(k, Tok.BlockEntry, s.pointer + 1, true))
  }

  function FetchedKey(b: seq<char>, s: Scan): Result<Scan>
    requires s.pointer <= |b|
  {
    var o :- Opened(s, Tok.BlockMappingStart, ColumnAt(b, s.pointer));
    var k :- Removed(o);
    Ok(Queued(k, Tok.Key, s.pointer + 1, s.flowLevel == 0))
  }

  /** The key saved at this level, made one: in front of the token it began with. */
  function KeyInserted(s: Scan): Scan
    requires s.flowLevel in s.keys && s.taken <= s.keys[s.flowLevel].tokenNumber <= s.taken + |s.tokens|
  {
    var key := s.keys[s.flowLevel];
    var at := key.tokenNumber - s.taken;
    Deeper(s, key.column).(
      keys := s.keys - {s.flowLevel},
      tokens := s.tokens[..at] + (Opening(Tok.BlockMappingStart, s.flowLevel, s.indent, key.column) + [Tok.Key]) + s.tokens[at..])
  }

  function FetchedValue(b: seq<char>, s: Scan): Result<Scan>
    requires s.pointer <= |b|
  {
    if s.flowLevel in s.keys then
      if s.taken <= s.keys[s.flowLevel].tokenNumber <= s.taken + |s.tokens| then
        Ok(Queued(KeyInserted(s), Tok.Value, s.pointer + 1, false))
      else Err(ScanFault)
    else
      var o :- Opened(s, Tok.BlockMappingStart, ColumnAt(b, s.pointer));
      Ok(Queued(o, Tok.Value, s.pointer + 1, s.flowLevel == 0))
  }

  function FetchedAnchor(b: seq<char>, s: Scan, alias: bool): Result<Scan>
    requires s.pointer <= |b|
  {
    var k :- Saved(b, s);
    var name :- L.NameAt(b, s.pointer + 1);
    Ok(Queued(k, if alias then Tok.Alias(name.text) else Tok.Anchor(name.text), name.next, false))
  }

  function FetchedTag(b: seq<char>, s: Scan): Result<Scan>
    requires s.pointer <= |b|
  {
    var k :- Saved(b, s);
    var tag :- T.TagAt(b, s.pointer);
    Ok(Queued(k, Tok.Tag(tag.handle, tag.suffix), tag.next, false))
  }

  function FetchedBlockScalar(b: seq<char>, s: Scan, folded: bool): Result<Scan> {
    var k :- Removed(s);
    if s.pointer < |b| && s.indent >= -1 then
      var read :- O.Block(b, s.pointer + 1, s.indent, folded);
      Ok(Queued(k, Tok.Scalar(read.text, false), read.next, true))
    else Err(ScanFault)
  }

  function FetchedFlowScalar(b: seq<char>, s: Scan, double: bool): Result<Scan>
    requires s.pointer <= |b|
  {
    var k :- Saved(b, s);
    var read :- F.Body(b, s.pointer + 1, double);
    Ok(Queued(k, Tok.Scalar(read.text, false), read.next + 1, false))
  }

  function FetchedPlain(b: seq<char>, s: Scan): Result<Scan>
    requires s.pointer <= |b|
  {
    var k :- Saved(b, s);
    var read := O.Plain(b, s.pointer, s.flowLevel, s.indent + 1);
    Ok(Queued(k, Tok.Scalar(read.text, true), read.next, read.broken))
  }

  // --- the next token

  function DispatchedNode(b: seq<char>, s: Scan): Result<Scan>
    requires s.pointer <= |b|
  {
    var c := CharAt(b, s.pointer);
    if c == '*' then FetchedAnchor(b, s, true)
    else if c == '&' then FetchedAnchor(b, s, false)
    else if c == '!' then FetchedTag(b, s)
    else if (c == '|' || c == '>') && s.flowLevel == 0 then FetchedBlockScalar(b, s, c == '>')
    else if c == '\'' || c == '"' then FetchedFlowScalar(b, s, c == '"')
    else if PlainAt(b, s.pointer, s.flowLevel) then FetchedPlain(b, s)
    else Err(ScanFault)
  }

  function DispatchedStructure(b: seq<char>, s: Scan): Result<Scan>
    requires s.pointer <= |b|
  {
    var c, blank := CharAt(b, s.pointer), BlankzTab(CharAt(b, s.pointer + 1));
    if c == '[' then FetchedFlowStart(b, s, Tok.FlowSequenceStart)
    else if c == '{' then FetchedFlowStart(b, s, Tok.FlowMappingStart)
    else if c == ']' then FetchedFlowEnd(s, Tok.FlowSequenceEnd)
    else if c == '}' then FetchedFlowEnd(s, Tok.FlowMappingEnd)
    else if c == ',' then FetchedFlowEntry(s)
    else if c == '-' && blank then FetchedBlockEntry(b, s)
    else if c == '?' && (s.flowLevel != 0 || blank) then FetchedKey(b, s)
    else if c == ':' && (s.flowLevel != 0 || blank) then FetchedValue(b, s)
    else DispatchedNode(b, s)
  }

  function Dispatched(b: seq<char>, s: Scan): Result<Scan>
    requires s.pointer <= |b|
  {
    var c := CharAt(b, s.pointer);
    var first := ColumnAt(b, s.pointer) == 0;
    if c == '\0' then FetchedStreamEnd(s)
    else if c == '%' && first then FetchedDirective(b, s)
    else if first && IndicatorAt(b, s.pointer, "---") then FetchedIndicator(s, Tok.DocumentStart)
    else if first && IndicatorAt(b, s.pointer, "...") then FetchedIndicator(s, Tok.DocumentEnd)
    else DispatchedStructure(b, s)
  }

  lemma MarkerCalls(b: seq<char>, s: Scan)
    requires s.pointer < |b|
    ensures var c, first := CharAt(b, s.pointer), ColumnAt(b, s.pointer) == 0;
            && (c == '\0' ==> Dispatched(b, s) == FetchedStreamEnd(s))
            && (c == '%' && first ==> Dispatched(b, s) == FetchedDirective(b, s))
            && (first && IndicatorAt(b, s.pointer, "---") ==> Dispatched(b, s) == FetchedIndicator(s, Tok.DocumentStart))
            && (first && IndicatorAt(b, s.pointer, "...") ==> Dispatched(b, s) == FetchedIndicator(s, Tok.DocumentEnd))
            && (c != '\0' && !(first && (c == '%' || IndicatorAt(b, s.pointer, "---") || IndicatorAt(b, s.pointer, "..."))) ==> Dispatched(b, s) == DispatchedStructure(b, s))
    ensures IndicatorAt(b, s.pointer, "---") ==> b[s.pointer] == '-'
    ensures IndicatorAt(b, s.pointer, "...") ==> b[s.pointer] == '.'
  {
    hide FetchedStreamEnd, FetchedDirective, FetchedIndicator, DispatchedStructure, ColumnAt;
    if s.pointer + 3 <= |b| {
      assert b[s.pointer] == b[s.pointer..s.pointer + 3][0];
    }
  }

  function TokenPlace(b: seq<char>, p: nat): nat {
    NextToken(b, if p == 0 && CharAt(b, 0) == '\U{feff}' then 1 else p)
  }

  /** The scanner where the next token begins. */
  function AtNext(b: seq<char>, s: Scan): Scan
    requires s.pointer <= |b| && TokenPlace(b, s.pointer) <= |b|
  {
    var p := TokenPlace(b, s.pointer);
    s.(pointer := p, allow := s.allow || (s.flowLevel == 0 && LineAt(b, p) > LineAt(b, s.pointer)))
  }

  function Staled(b: seq<char>, s: Scan): Result<Scan>
    requires s.pointer <= |b|
  {
    var line := LineAt(b, s.pointer);
    if Lost(s.keys, line, s.pointer) then Err(ScanFault) else Ok(s.(keys := Still(s.keys, line, s.pointer)))
  }

  function Fetched(b: seq<char>, s: Scan): Result<Scan> {
    if s.pointer <= |b| && TokenPlace(b, s.pointer) <= |b| then
      var at :- Staled(b, AtNext(b, s));
      Dispatched(b, Unwound(at, ColumnAt(b, at.pointer)))
    else Err(ScanFault)
  }

  // --- the queue's front

  /** Whether a saved key still awaits the token in front. */
  predicate Awaited(s: Scan) {
    exists l :: l in s.keys && s.keys[l].tokenNumber == s.taken
  }

  /** Whether more must be fetched before the front is taken, and what asking leaves. */
  function Needed(b: seq<char>, s: Scan): (r: Result<(bool, Scan)>)
    requires s.pointer <= |b|
    ensures r.Ok? ==> r.value.1 == s.(keys := r.value.1.keys)
  {
    if s.done then Ok((false, s))
    else if s.tokens == [] then Ok((true, s))
    else
      var k :- Staled(b, s);
      Ok((Awaited(k), k))
  }

  predicate Progress(b: seq<char>, s: Scan, n: Scan) {
    n.pointer < |b| && (s.pointer < n.pointer || (s.pointer == n.pointer && !s.done && n.done))
  }

  predicate Later(b: seq<char>, s: Scan, n: Scan) {
    && s.pointer <= n.pointer < |b| && (s.done ==> n.done)
    && (n.pointer == s.pointer && n.done == s.done ==> n.tokens == s.tokens)
  }

  /** Fetches until the front is settled. */
  function Filled(b: seq<char>, s: Scan): (r: Result<Scan>)
    requires s.pointer < |b|
    ensures r.Ok? ==> Later(b, s, r.value)
    decreases |b| - s.pointer, !s.done
  {
    var needed :- Needed(b, s);
    if !needed.0 then Ok(needed.1)
    else
      var n :- Fetched(b, needed.1);
      if Progress(b, s, n) then Filled(b, n) else Err(ScanFault)
  }

  /** What filling comes to, once it is known whether more is needed. */
  function FilledIf(b: seq<char>, s: Scan, more: bool): Result<Scan>
    requires s.pointer < |b|
  {
    if !more then Ok(s)
    else
      var n :- Fetched(b, s);
      if Progress(b, s, n) then Filled(b, n) else Err(ScanFault)
  }

  /** The scanner with the token in front taken. */
  function Took(s: Scan): Scan
    requires s.tokens != []
  {
    s.(tokens := s.tokens[1..], taken := s.taken + 1)
  }

  function TokensFrom(b: seq<char>, s: Scan): Result<seq<Tok>>
    requires s.pointer < |b|
    decreases |b| - s.pointer, !s.done, |s.tokens|
  {
    var f :- Filled(b, s);
    if f.tokens == [] then Ok([]) else Behind([f.tokens[0]], TokensFrom(b, Took(f)))
  }

  function Behind(ts: seq<Tok>, rest: Result<seq<Tok>>): Result<seq<Tok>> {
    match rest
    case Ok(more) => Ok(ts + more)
    case Err(fault) => Err(fault)
  }

  /** The tokens of a text, or that it has none. */
  function TokensOf(text: string): Result<seq<Tok>> {
    if forall i :: 0 <= i < |text| ==> Printable(text[i]) then TokensFrom(text + ['\0'], START) else Err(ScanFault)
  }

  // --- settled once, settled for good

  lemma NeededTwice(b: seq<char>, s: Scan)
    requires s.pointer < |b| && Needed(b, s).Ok? && !Needed(b, s).value.0
    ensures Needed(b, Needed(b, s).value.1) == Needed(b, s)
  {
    if !s.done && s.tokens != [] {
      var k := Staled(b, s).value;
      assert Still(k.keys, LineAt(b, s.pointer), s.pointer) == k.keys;
    }
  }

  lemma {:induction false} FilledTwice(b: seq<char>, s: Scan)
    requires s.pointer < |b| && Filled(b, s).Ok?
    ensures Filled(b, Filled(b, s).value) == Filled(b, s)
    ensures !Needed(b, Filled(b, s).value).Err? && !Needed(b, Filled(b, s).value).value.0
    decreases |b| - s.pointer, !s.done
  {
    hide Needed, Fetched;
    var needed := Needed(b, s).value;
    if needed.0 {
      FilledTwice(b, Fetched(b, needed.1).value);
    } else {
      NeededTwice(b, s);
    }
  }

  /** Filling first changes nothing. */
  lemma FilledFirst(b: seq<char>, s: Scan)
    requires s.pointer < |b| && Filled(b, s).Ok?
    ensures TokensFrom(b, s) == TokensFrom(b, Filled(b, s).value)
  {
    hide Filled;
    FilledTwice(b, s);
  }

  lemma BehindBehind(ts: seq<Tok>, us: seq<Tok>, rest: Result<seq<Tok>>)
    ensures Behind(ts, Behind(us, rest)) == Behind(ts + us, rest)
    ensures Behind([], rest) == rest
  {
    if rest.Ok? {
      assert ts + (us + rest.value) == ts + us + rest.value;
      assert [] + rest.value == rest.value;
    }
  }

  /** Peeking: the tokens to come stay as they are, or there are none. */
  lemma FillStep(b: seq<char>, s: Scan)
    requires s.pointer < |b|
    ensures Filled(b, s).Ok? ==> TokensFrom(b, Filled(b, s).value) == TokensFrom(b, s)
    ensures Filled(b, s).Err? ==> TokensFrom(b, s).Err?
  {
    if Filled(b, s).Ok? {
      FilledFirst(b, s);
    }
    hide Filled;
  }

  /** Taking a settled token. */
  lemma TakeStep(b: seq<char>, s: Scan, before: seq<Tok>)
    requires s.pointer < |b| && Filled(b, s) == Ok(s) && s.tokens != []
    ensures Behind(before, TokensFrom(b, s)) == Behind(before + [s.tokens[0]], TokensFrom(b, Took(s)))
  {
    hide Filled;
    BehindBehind(before, [s.tokens[0]], TokensFrom(b, Took(s)));
  }

  lemma NoneLeft(b: seq<char>, s: Scan, before: seq<Tok>)
    requires s.pointer < |b| && Filled(b, s) == Ok(s) && s.tokens == []
    ensures Behind(before, TokensFrom(b, s)) == Ok(before)
  {
    hide Filled;
    assert before + [] == before;
  }
}
