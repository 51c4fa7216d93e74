/** The parser as a function of its state and of the tokens still to come:
    one step emits one event or stops with a fault. The tokens may be any
    sequence at all; `broken` says whether the scanner fails after them or has
    nothing more to give. */
module YamlParser {
  import opened Results
  import opened YamlTree
  import opened YamlTokens

  datatype State =
    | StreamStartState
    | ImplicitDocumentStart
    | DocumentStartState
    | DocumentEndState
    | DocumentContent
    | BlockNode
    | BlockSequenceFirstEntry
    | BlockSequenceEntry
    | IndentlessSequenceEntry
    | BlockMappingFirstKey
    | BlockMappingKey
    | BlockMappingValue
    | FlowSequenceFirstEntry
    | FlowSequenceEntry
    | FlowSequenceEntryMappingKey
    | FlowSequenceEntryMappingValue
    | FlowSequenceEntryMappingEnd
    | FlowMappingFirstKey
    | FlowMappingKey
    | FlowMappingValue
    | FlowMappingEmptyValue

  datatype Machine = Machine(
    state: Option<State>,
    states: seq<State>,
    handles: map<string, string>,
    rest: seq<Tok>,
    broken: bool)

  datatype Emitted = Emitted(event: Event, next: Machine)

  const DEFAULT_TAGS: map<string, string> := map["!" := "!", "!!" := "tag:yaml.org,2002:"]
  const EMPTY_SCALAR: Event := Event.Scalar(None, None, true, "")

  function Start(tokens: seq<Tok>, broken: bool): Machine {
    Machine(Some(StreamStartState), [], map[], tokens, broken)
  }

  /** The token in front, if any. */
  function Peek(m: Machine): Result<Option<Tok>> {
    if m.rest != [] then Ok(Some(m.rest[0]))
    else if m.broken then Err(ScanFault)
    else Ok(None)
  }

  /** The machine with the token in front taken. */
  function Take(m: Machine): Result<Machine> {
    if m.rest != [] then Ok(m.(rest := m.rest[1..]))
    else if m.broken then Err(ScanFault)
    else Err(NoMoreTokens)
  }

  function Pop(m: Machine, e: Event): Result<Emitted> {
    if m.states == [] then Err(EmptyStackFault)
    else
      var last := |m.states| - 1;
      Ok(Emitted(e, m.(state := Some(m.states[last]), states := m.states[..last])))
  }

  function Goto(m: Machine, s: State, e: Event): Result<Emitted> {
    Ok(Emitted(e, m.(state := Some(s))))
  }

  function Pushed(m: Machine, s: State): Machine {
    m.(states := m.states + [s])
  }

  // --- nodes

  datatype Properties = Properties(anchor: Option<string>, tag: Option<Tok>, next: Machine)

  /** An anchor and a tag, in either order. */
  function TakeProperties(m: Machine): Result<Properties> {
    var t :- Peek(m);
    var anchorFirst := t.Some? && t.value.Anchor?;
    if anchorFirst then
      var anchor := m.rest[0].name;
      var m1 :- Take(m);
      var t :- Peek(m1);
      var tagged := t.Some? && t.value.Tag?;
      if tagged then
        var m2 :- Take(m1);
        Ok(Properties(Some(anchor), Some(m1.rest[0]), m2))
      else
        Ok(Properties(Some(anchor), None, m1))
    else
      var tagFirst := t.Some? && t.value.Tag?;
      if tagFirst then
        var m1 :- Take(m);
        var t :- Peek(m1);
        var anchored := t.Some? && t.value.Anchor?;
        if anchored then
          var m2 :- Take(m1);
          Ok(Properties(Some(m1.rest[0].name), Some(m.rest[0]), m2))
        else
          Ok(Properties(None, Some(m.rest[0]), m1))
      else
        Ok(Properties(None, None, m))
  }

  /** A tag written out, its handle replaced by what it stands for. */
  function ResolveTag(handles: map<string, string>, tag: Option<Tok>): Result<Option<string>>
    requires tag.Some? ==> tag.value.Tag?
  {
    if tag.None? then Ok(None)
    else match tag.value.handle
      case None => Ok(Some(tag.value.suffix))
      case Some(handle) =>
        if handle in handles then Ok(Some(handles[handle] + tag.value.suffix)) else Err(SyntaxFault)
  }

  function ParseNode(m: Machine, block: bool, indentless: bool): Result<Emitted> {
    var t :- Peek(m);
    var alias := t.Some? && t.value.Alias?;
    if alias then
      var m1 :- Take(m);
      Pop(m1, Event.Alias(m.rest[0].name))
    else
      var p :- TakeProperties(m);
      var tag :- ResolveTag(m.handles, p.tag);
      ParseContent(p.next, p.anchor, tag, block, indentless)
  }

  function ParseContent(m: Machine, anchor: Option<string>, tag: Option<string>, block: bool, indentless: bool): Result<Emitted> {
    var t :- Peek(m);
    if indentless && t == Some(Tok.BlockEntry) then
      Goto(m, IndentlessSequenceEntry, Event.SequenceStart(anchor, tag))
    else if t.Some? && t.value.Scalar? then
      var m1 :- Take(m);
      Pop(m1, Event.Scalar(anchor, tag, (t.value.plain && tag.None?) || tag == Some("!"), t.value.value))
    else if t.Some? && t.value.FlowSequenceStart? then
      Goto(m, FlowSequenceFirstEntry, Event.SequenceStart(anchor, tag))
    else if t.Some? && t.value.FlowMappingStart? then
      Goto(m, FlowMappingFirstKey, Event.MappingStart(anchor, tag))
    else if block && t.Some? && t.value.BlockSequenceStart? then
      Goto(m, BlockSequenceFirstEntry, Event.SequenceStart(anchor, tag))
    else if block && t.Some? && t.value.BlockMappingStart? then
      Goto(m, BlockMappingFirstKey, Event.MappingStart(anchor, tag))
    else if anchor.Some? || tag.Some? then
      Pop(m, Event.Scalar(anchor, tag, tag.None? || tag == Some("!"), ""))
    else
      Err(SyntaxFault)
  }

  /** A node, or nothing where the token in front cannot begin one: the state
      to come back to is pushed in the first case and entered in the second. */
  function NodeOrEmpty(m: Machine, none: bool, back: State, block: bool, indentless: bool): Result<Emitted> {
    if none then Goto(m, back, EMPTY_SCALAR) else ParseNode(Pushed(m, back), block, indentless)
  }

  // --- documents

  function SkipDocumentEnds(m: Machine): (r: Machine)
    ensures r == m.(rest := r.rest)
    ensures |r.rest| <= |m.rest|
    decreases |m.rest|
  {
    if m.rest != [] && m.rest[0].DocumentEnd? then SkipDocumentEnds(m.(rest := m.rest[1..])) else m
  }

  /** The `%YAML` and `%TAG` lines of a document, and the handles they give. */
  function TakeDirectives(m: Machine, version: bool): Result<Machine>
    decreases |m.rest|
  {
    var t :- Peek(m);
    var more := t.Some? && t.value.DirectiveTok?;
    if !more then Ok(m) else
    var m1 := m.(rest := m.rest[1..]);
    match m.rest[0].directive
    case YamlDirective(majorIsOne) =>
      if version || !majorIsOne then Err(SyntaxFault) else TakeDirectives(m1, true)
    case TagDirective(handle, prefix) =>
      if handle in m.handles then Err(SyntaxFault)
      else TakeDirectives(m1.(handles := m.handles[handle := prefix]), version)
    case OtherDirective => TakeDirectives(m1, version)
  }

  function StepStreamStart(m: Machine): Result<Emitted> {
    var m1 :- Take(m);
    Goto(m1, ImplicitDocumentStart, Event.StreamStart)
  }

  function StepImplicitDocumentStart(m: Machine): Result<Emitted> {
    var t :- Peek(m);
    var explicit := (t.Some? && t.value.DirectiveTok?) || t == Some(Tok.DocumentStart) || t == Some(Tok.StreamEnd);
    if !explicit then
      Goto(Pushed(m.(handles := DEFAULT_TAGS), DocumentEndState), BlockNode, Event.DocumentStart)
    else
      StepDocumentStart(m)
  }

  function StepDocumentStart(m: Machine): Result<Emitted> {
    var m1 := SkipDocumentEnds(m);
    var t :- Peek(m1);
    var ended := t == Some(Tok.StreamEnd);
    if ended then
      var m2 :- Take(m1);
      Ok(Emitted(Event.StreamEnd, m2.(state := None)))
    else
      var m2 :- TakeDirectives(m1.(handles := map[]), false);
      var m3 := m2.(handles := DEFAULT_TAGS + m2.handles);
      var t :- Peek(m3);
      var begun := t == Some(Tok.DocumentStart);
      if !begun then Err(SyntaxFault) else
      var m4 :- Take(m3);
      Goto(Pushed(m4, DocumentEndState), DocumentContent, Event.DocumentStart)
  }

  function StepDocumentEnd(m: Machine): Result<Emitted> {
    var t :- Peek(m);
    var marked := t == Some(Tok.DocumentEnd);
    var m1 :- if marked then Take(m) else Ok(m);
    Goto(m1, DocumentStartState, Event.DocumentEnd)
  }

  function StepDocumentContent(m: Machine): Result<Emitted> {
    var t :- Peek(m);
    var none := (t.Some? && t.value.DirectiveTok?) || t == Some(Tok.DocumentStart) || t == Some(Tok.DocumentEnd) || t == Some(Tok.StreamEnd);
    if none then Pop(m, EMPTY_SCALAR) else ParseNode(m, true, false)
  }

  // --- block collections

  function StepBlockSequenceEntry(m: Machine): Result<Emitted> {
    var t :- Peek(m);
    var entry := t == Some(Tok.BlockEntry);
    if entry then
      var m1 :- Take(m);
      var t :- Peek(m1);
      var none := t == Some(Tok.BlockEntry) || t == Some(Tok.BlockEnd);
      NodeOrEmpty(m1, none, BlockSequenceEntry, true, false)
    else
      var ended := t == Some(Tok.BlockEnd);
      if !ended then Err(SyntaxFault) else
      var m1 :- Take(m);
      Pop(m1, Event.SequenceEnd)
  }

  function StepIndentlessSequenceEntry(m: Machine): Result<Emitted> {
    var t :- Peek(m);
    var entry := t == Some(Tok.BlockEntry);
    if entry then
      var m1 :- Take(m);
      var t :- Peek(m1);
      var none := t == Some(Tok.BlockEntry) || t == Some(Tok.Key) || t == Some(Tok.Value) || t == Some(Tok.BlockEnd);
      NodeOrEmpty(m1, none, IndentlessSequenceEntry, true, false)
    else
      Pop(m, Event.SequenceEnd)
  }

  function StepBlockMappingKey(m: Machine): Result<Emitted> {
    var t :- Peek(m);
    var key := t == Some(Tok.Key);
    if key then
      var m1 :- Take(m);
      var t :- Peek(m1);
      var none := t == Some(Tok.Key) || t == Some(Tok.Value) || t == Some(Tok.BlockEnd);
      NodeOrEmpty(m1, none, BlockMappingValue, true, true)
    else
      var ended := t == Some(Tok.BlockEnd);
      if !ended then Err(SyntaxFault) else
      var m1 :- Take(m);
      Pop(m1, Event.MappingEnd)
  }

  function StepBlockMappingValue(m: Machine): Result<Emitted> {
    var t :- Peek(m);
    var value := t == Some(Tok.Value);
    if value then
      var m1 :- Take(m);
      var t :- Peek(m1);
      var none := t == Some(Tok.Key) || t == Some(Tok.Value) || t == Some(Tok.BlockEnd);
      NodeOrEmpty(m1, none, BlockMappingKey, true, true)
    else
      Goto(m, BlockMappingKey, EMPTY_SCALAR)
  }

  // --- flow collections

  /** The `,` that must part one entry from the next. */
  function TakeComma(m: Machine, first: bool): Result<Machine> {
    if first then Ok(m) else
    var t :- Peek(m);
    var comma := t == Some(Tok.FlowEntry);
    if comma then Take(m) else Err(SyntaxFault)
  }

  function StepFlowSequenceEntry(m: Machine, first: bool): Result<Emitted> {
    var t :- Peek(m);
    var ended := t == Some(Tok.FlowSequenceEnd);
    if ended then
      var m1 :- Take(m);
      Pop(m1, Event.SequenceEnd)
    else
      var m1 :- TakeComma(m, first);
      var t :- Peek(m1);
      if t.Some? && t.value.Key? then
        Goto(m1, FlowSequenceEntryMappingKey, Event.MappingStart(None, None))
      else if t.Some? && t.value.FlowSequenceEnd? then
        var m2 :- Take(m1);
        Pop(m2, Event.SequenceEnd)
      else
        ParseNode(Pushed(m1, FlowSequenceEntry), false, false)
  }

  function StepFlowSequenceEntryMappingKey(m: Machine): Result<Emitted> {
    var m1 :- Take(m);
    var t :- Peek(m1);
    var none := t == Some(Tok.Value) || t == Some(Tok.FlowEntry) || t == Some(Tok.FlowSequenceEnd);
    NodeOrEmpty(m1, none, FlowSequenceEntryMappingValue, false, false)
  }

  function StepFlowSequenceEntryMappingValue(m: Machine): Result<Emitted> {
    var t :- Peek(m);
    var value := t == Some(Tok.Value);
    if value then
      var m1 :- Take(m);
      var t :- Peek(m1);
      var none := t == Some(Tok.FlowEntry) || t == Some(Tok.FlowSequenceEnd);
      NodeOrEmpty(m1, none, FlowSequenceEntryMappingEnd, false, false)
    else
      Goto(m, FlowSequenceEntryMappingEnd, EMPTY_SCALAR)
  }

  function StepFlowMappingKey(m: Machine, first: bool): Result<Emitted> {
    var t :- Peek(m);
    var ended := t == Some(Tok.FlowMappingEnd);
    if ended then
      var m1 :- Take(m);
      Pop(m1, Event.MappingEnd)
    else
      var m1 :- TakeComma(m, first);
      var t :- Peek(m1);
      if t.Some? && t.value.Key? then
        var m2 :- Take(m1);
        var t :- Peek(m2);
        var none := t == Some(Tok.Value) || t == Some(Tok.FlowEntry) || t == Some(Tok.FlowMappingEnd);
        NodeOrEmpty(m2, none, FlowMappingValue, false, false)
      else if t.Some? && t.value.FlowMappingEnd? then
        var m2 :- Take(m1);
        Pop(m2, Event.MappingEnd)
      else
        ParseNode(Pushed(m1, FlowMappingEmptyValue), false, false)
  }

  function StepFlowMappingValue(m: Machine): Result<Emitted> {
    var t :- Peek(m);
    var value := t == Some(Tok.Value);
    if value then
      var m1 :- Take(m);
      var t :- Peek(m1);
      var none := t == Some(Tok.FlowEntry) || t == Some(Tok.FlowMappingEnd);
      NodeOrEmpty(m1, none, FlowMappingKey, false, false)
    else
      Goto(m, FlowMappingKey, EMPTY_SCALAR)
  }

  // --- one step

  /** The event a state emits and what the machine is afterwards. */
  function Step(m: Machine, s: State): Result<Emitted> {
    match s
    case StreamStartState => StepStreamStart(m)
    case ImplicitDocumentStart => StepImplicitDocumentStart(m)
    case DocumentStartState => StepDocumentStart(m)
    case DocumentEndState => StepDocumentEnd(m)
    case DocumentContent => StepDocumentContent(m)
    case BlockNode => ParseNode(m, true, false)
    case BlockSequenceFirstEntry => (var m1 :- Take(m); StepBlockSequenceEntry(m1))
    case BlockSequenceEntry => StepBlockSequenceEntry(m)
    case IndentlessSequenceEntry => StepIndentlessSequenceEntry(m)
    case BlockMappingFirstKey => (var m1 :- Take(m); StepBlockMappingKey(m1))
    case BlockMappingKey => StepBlockMappingKey(m)
    case BlockMappingValue => StepBlockMappingValue(m)
    case FlowSequenceFirstEntry => (var m1 :- Take(m); StepFlowSequenceEntry(m1, true))
    case FlowSequenceEntry => StepFlowSequenceEntry(m, false)
    case FlowSequenceEntryMappingKey => StepFlowSequenceEntryMappingKey(m)
    case FlowSequenceEntryMappingValue => StepFlowSequenceEntryMappingValue(m)
    case FlowSequenceEntryMappingEnd => Goto(m, FlowSequenceEntry, Event.MappingEnd)
    case FlowMappingFirstKey => (var m1 :- Take(m); StepFlowMappingKey(m1, true))
    case FlowMappingKey => StepFlowMappingKey(m, false)
    case FlowMappingValue => StepFlowMappingValue(m)
    case FlowMappingEmptyValue => Goto(m, FlowMappingKey, EMPTY_SCALAR)
  }

  /** The machine `m` emits the events `es`, in order, and is then `last`. */
  predicate Emits(m: Machine, es: seq<Event>, last: Machine)
    decreases |es|
  {
    if es == [] then last == m
    else
      && m.state.Some?
      && var r := Step(m, m.state.value);
         r.Ok? && r.value.event == es[0] && Emits(r.value.next, es[1..], last)
  }

  /** A whole run over some tokens: it ends with no error, having emitted `es`. */
  ghost predicate Accepts(tokens: seq<Tok>, broken: bool, es: seq<Event>, rest: seq<Tok>) {
    exists last: Machine ::
      Emits(Start(tokens, broken), es, last) && last.state.None? && last.rest == rest
  }

  lemma {:induction false} EmitsConcat(m: Machine, a: seq<Event>, n: Machine, b: seq<Event>, last: Machine)
    requires Emits(m, a, n) && Emits(n, b, last)
    ensures Emits(m, a + b, last)
    decreases |a|
  {
    hide Step;
    if a == [] {
      assert a + b == b;
    } else {
      assert (a + b)[1..] == a[1..] + b;
      EmitsConcat(Step(m, m.state.value).value.next, a[1..], n, b, last);
    }
  }
}
