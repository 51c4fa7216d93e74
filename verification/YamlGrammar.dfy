/** The parser's theorems: it accepts exactly the grammatical streams, every run
    of it ends, and it never pops an empty stack. */
module YamlGrammar {
  import opened Results
  import opened YamlTree
  import opened YamlTokens
  import opened YamlParser
  import opened YamlSyntax
  import opened YamlCompleteness
  import opened YamlSoundness

  /** The tokens are those of some documents, and the events those of their nodes. */
  ghost predicate Grammatical(tokens: seq<Tok>, es: seq<Event>, rest: seq<Tok>) {
    exists first: Tok, docs: seq<Doc> ::
      && DocsOk(docs)
      && tokens == [first] + DocsTokens(docs) + [Tok.StreamEnd] + rest
      && es == StreamEvents(DocNodes(docs))
  }

  /** What a run has read once it has emitted `es`. */
  lemma {:induction false} RunAdvances(m: Machine, es: seq<Event>, last: Machine, c: Ctx) returns (c2: Ctx)
    requires Agrees(m, c) && Emits(m, es, last)
    ensures Agrees(last, c2)
    ensures CtxTokens(c2) + last.rest == CtxTokens(c) + m.rest
    ensures CtxEvents(c2) == CtxEvents(c) + es
    decreases |es|
  {
    hide Step, Agrees, CtxTokens, CtxEvents;
    if es == [] {
      c2 := c;
      assert CtxEvents(c) + [] == CtxEvents(c);
    } else {
      var s := m.state.value;
      var c1 := StepAdvances(m, s, c);
      c2 := RunAdvances(Step(m, s).value.next, es[1..], last, c1);
      assert CtxEvents(c) + [es[0]] + es[1..] == CtxEvents(c) + ([es[0]] + es[1..]);
      assert [es[0]] + es[1..] == es;
    }
  }

  lemma AcceptedIsGrammatical(tokens: seq<Tok>, broken: bool, es: seq<Event>, rest: seq<Tok>)
    ensures Accepts(tokens, broken, es, rest) ==> Grammatical(tokens, es, rest)
  {
    hide Emits, DocsOk, DocsTokens, DocNodes, Agrees, CtxTokens, CtxEvents, StreamEvents;
    if Accepts(tokens, broken, es, rest) {
      var last: Machine :| Emits(Start(tokens, broken), es, last) && last.state.None? && last.rest == rest;
      FreshStart(tokens, broken);
      var c := RunAdvances(Start(tokens, broken), es, last, Fresh);
      EndedIsClosed(last, c);
      assert tokens == [c.first] + DocsTokens(c.docs) + [Tok.StreamEnd] + rest;
    }
  }

  lemma FreshStart(tokens: seq<Tok>, broken: bool)
    ensures Agrees(Start(tokens, broken), Fresh)
    ensures CtxTokens(Fresh) == [] && CtxEvents(Fresh) == []
  {
  }

  lemma EndedIsClosed(m: Machine, c: Ctx)
    requires m.state.None? && Agrees(m, c)
    ensures c.Closed? && DocsOk(c.docs)
    ensures CtxTokens(c) == [c.first] + DocsTokens(c.docs) + [Tok.StreamEnd]
    ensures CtxEvents(c) == StreamEvents(DocNodes(c.docs))
  {
    hide DocsOk, DocsTokens, DocNodes, StreamEvents;
  }

  /** For every sequence of tokens whatever: the parser gets to the end of the
      stream with no error, having emitted `es`, just when the tokens are those
      of grammatical documents whose nodes the events spell. */
  lemma ParserReadsItsGrammar(tokens: seq<Tok>, broken: bool, es: seq<Event>, rest: seq<Tok>)
    ensures Accepts(tokens, broken, es, rest) <==> Grammatical(tokens, es, rest)
  {
    hide Emits, DocsOk, DocsTokens, DocNodes, StreamEvents, Accepts;
    AcceptedIsGrammatical(tokens, broken, es, rest);
    if Grammatical(tokens, es, rest) {
      var first, docs :|
        && DocsOk(docs)
        && tokens == [first] + DocsTokens(docs) + [Tok.StreamEnd] + rest
        && es == StreamEvents(DocNodes(docs));
      EveryStreamIsRead(first, docs, rest, broken);
    }
  }

  // --- no step pops an empty stack

  lemma ParseNodeStack(m: Machine, block: bool, indentless: bool)
    requires m.states != []
    ensures ParseNode(m, block, indentless) != Err(EmptyStackFault)
  {
    hide ParseContent, TakeProperties, ResolveTag;
    PropertiesStack(m);
    var p := TakeProperties(m);
    if p.Ok? {
      ContentStack(p.value.next, p.value.anchor, None, block, indentless);
      var tag := ResolveTag(m.handles, p.value.tag);
      if tag.Ok? {
        ContentStack(p.value.next, p.value.anchor, tag.value, block, indentless);
      } else {
        TagStack(m.handles, p.value.tag);
      }
    }
  }

  lemma PropertiesStack(m: Machine)
    ensures var p := TakeProperties(m);
            && p != Err(EmptyStackFault)
            && (p.Ok? ==> p.value.next.states == m.states && (p.value.tag.Some? ==> p.value.tag.value.Tag?))
  {
  }

  lemma TagStack(handles: map<string, string>, tag: Option<Tok>)
    requires tag.Some? ==> tag.value.Tag?
    ensures ResolveTag(handles, tag) != Err(EmptyStackFault)
  {
  }

  lemma ContentStack(m: Machine, anchor: Option<string>, tag: Option<string>, block: bool, indentless: bool)
    requires m.states != []
    ensures ParseContent(m, anchor, tag, block, indentless) != Err(EmptyStackFault)
  {
  }

  lemma SlotStack(m: Machine, none: bool, back: State, block: bool, indentless: bool)
    ensures NodeOrEmpty(m, none, back, block, indentless) != Err(EmptyStackFault)
  {
    hide ParseNode;
    ParseNodeStack(Pushed(m, back), block, indentless);
  }

  lemma EntryStack(m: Machine, style: Style, first: bool)
    requires m.states != []
    ensures StepEntry(m, style, first) != Err(EmptyStackFault)
  {
    hide ParseNode, NodeOrEmpty, StepFlowSequenceEntry, StepFlowMappingKey;
    forall m1: Machine, none, back, block, indentless
      ensures NodeOrEmpty(m1, none, back, block, indentless) != Err(EmptyStackFault)
    {
      SlotStack(m1, none, back, block, indentless);
    }
    if Flow(style) {
      FlowEntryStack(m, first);
    }
  }

  lemma FlowEntryStack(m: Machine, first: bool)
    requires m.states != []
    ensures StepFlowSequenceEntry(m, first) != Err(EmptyStackFault)
    ensures StepFlowMappingKey(m, first) != Err(EmptyStackFault)
  {
    hide ParseNode, NodeOrEmpty;
    forall m1: Machine, none, back, block, indentless
      ensures NodeOrEmpty(m1, none, back, block, indentless) != Err(EmptyStackFault)
    {
      SlotStack(m1, none, back, block, indentless);
    }
    forall m1: Machine | m1.states != []
      ensures ParseNode(m1, false, false) != Err(EmptyStackFault)
    {
      ParseNodeStack(m1, false, false);
    }
  }

  lemma ValueStack(m: Machine, style: Style)
    ensures StepValue(m, style) != Err(EmptyStackFault)
    ensures StepFlowSequenceEntryMappingKey(m) != Err(EmptyStackFault)
  {
    hide NodeOrEmpty;
    forall m1: Machine, none, back, block, indentless
      ensures NodeOrEmpty(m1, none, back, block, indentless) != Err(EmptyStackFault)
    {
      SlotStack(m1, none, back, block, indentless);
    }
  }

  lemma {:induction false} DirectivesStack(m: Machine, version: bool)
    ensures TakeDirectives(m, version) != Err(EmptyStackFault)
    decreases |m.rest|
  {
    if m.rest != [] && m.rest[0].DirectiveTok? {
      var m1 := m.(rest := m.rest[1..]);
      match m.rest[0].directive
      case YamlDirective(_) => DirectivesStack(m1, true);
      case TagDirective(h, p) => DirectivesStack(m1.(handles := m.handles[h := p]), version);
      case OtherDirective => DirectivesStack(m1, version);
    }
  }

  lemma DocumentStack(m: Machine)
    ensures StepStreamStart(m) != Err(EmptyStackFault)
    ensures StepDocumentStart(m) != Err(EmptyStackFault)
    ensures StepImplicitDocumentStart(m) != Err(EmptyStackFault)
    ensures StepDocumentEnd(m) != Err(EmptyStackFault)
  {
    hide SkipDocumentEnds, TakeDirectives;
    DirectivesStack(SkipDocumentEnds(m).(handles := map[]), false);
  }

  lemma RootStack(m: Machine)
    requires m.states != []
    ensures StepDocumentContent(m) != Err(EmptyStackFault) && ParseNode(m, true, false) != Err(EmptyStackFault)
  {
    hide ParseNode;
    ParseNodeStack(m, true, false);
  }

  lemma FirstStack(m: Machine, style: Style)
    requires m.states != [] && !style.DashSeq?
    ensures Step(m, FirstState(style)) != Err(EmptyStackFault)
  {
    hide StepBlockSequenceEntry, StepBlockMappingKey, StepFlowSequenceEntry, StepFlowMappingKey;
    if m.rest != [] {
      EntryStack(m.(rest := m.rest[1..]), style, true);
    }
  }

  lemma StackThere(m: Machine, c: Ctx)
    requires Agrees(m, c) && c.Inside? && !m.state.value.DocumentEndState?
    ensures m.states != []
  {
    hide FramesOk, At, Ahead, HeaderOk, DocsOk;
  }

  /** The parser never pops an empty stack, whatever tokens come. */
  lemma StackNeverEmpty(m: Machine, s: State, c: Ctx)
    requires Agrees(m, c) && m.state == Some(s)
    ensures Step(m, s) != Err(EmptyStackFault)
  {
    hide Step, Agrees, ParseNode, StepEntry, StepValue, StepDocumentStart, StepImplicitDocumentStart, StepDocumentEnd,
         StepStreamStart, StepDocumentContent, StepFlowSequenceEntryMappingKey, StepFlowSequenceEntry, StepFlowMappingKey;
    DocumentStack(m);
    DocumentStates(m);
    if !s.StreamStartState? && !s.ImplicitDocumentStart? && !s.DocumentStartState? && !s.DocumentEndState? {
      OtherInside(m, s, c);
      StackThere(m, c);
      RootStack(m);
      FlowSteps(m);
      match s
      case BlockSequenceFirstEntry => FirstStack(m, BlockSeq);
      case BlockSequenceEntry => StepIsEntry(m, BlockSeq); EntryStack(m, BlockSeq, false);
      case IndentlessSequenceEntry => StepIsEntry(m, DashSeq); EntryStack(m, DashSeq, false);
      case BlockMappingFirstKey => FirstStack(m, BlockMap);
      case BlockMappingKey => StepIsEntry(m, BlockMap); EntryStack(m, BlockMap, false);
      case BlockMappingValue => StepIsValue(m, BlockMap); ValueStack(m, BlockMap);
      case FlowSequenceFirstEntry => FirstStack(m, FlowSeq);
      case FlowSequenceEntry => StepIsEntry(m, FlowSeq); EntryStack(m, FlowSeq, false);
      case FlowSequenceEntryMappingKey => ValueStack(m, FlowSeq);
      case FlowSequenceEntryMappingValue => StepIsValue(m, FlowSeq); ValueStack(m, FlowSeq);
      case FlowMappingFirstKey => FirstStack(m, FlowMap);
      case FlowMappingKey => StepIsEntry(m, FlowMap); EntryStack(m, FlowMap, false);
      case FlowMappingValue => StepIsValue(m, FlowMap); ValueStack(m, FlowMap);
      case _ =>
    }
  }

  lemma OtherInside(m: Machine, s: State, c: Ctx)
    requires Agrees(m, c) && m.state == Some(s)
    requires !s.StreamStartState? && !s.ImplicitDocumentStart? && !s.DocumentStartState?
    ensures c.Inside?
  {
    hide Fits, HeaderOk, DocsOk;
  }

  // --- every run ends

  /** A node takes a token, or leaves the parser at a collection whose first
      token it will take next. */
  lemma ParseNodeWorks(m: Machine, block: bool, indentless: bool)
    requires ParseNode(m, block, indentless).Ok?
    ensures Work(ParseNode(m, block, indentless).value.next) <= 8 * |m.rest| + if indentless then 2 else 0
  {
    hide ParseContent, TakeProperties, ResolveTag, Work;
    if m.rest != [] && m.rest[0].Alias? {
      PopWorks(m.(rest := m.rest[1..]), Event.Alias(m.rest[0].name));
    } else {
      PropertiesWork(m);
      var p := TakeProperties(m).value;
      var tag := ResolveTag(m.handles, p.tag).value;
      ContentWorks(p.next, p.anchor, tag, block, indentless, 8 * |m.rest|);
    }
  }

  lemma PopWorks(m: Machine, e: Event)
    requires Pop(m, e).Ok?
    ensures Work(Pop(m, e).value.next) <= 8 * |m.rest| + 5
  {
  }

  lemma PropertiesWork(m: Machine)
    requires TakeProperties(m).Ok?
    ensures var p := TakeProperties(m).value;
            |p.next.rest| <= |m.rest| - (if p.anchor.Some? || p.tag.Some? then 1 else 0)
            && (p.tag.Some? ==> p.tag.value.Tag?)
            && (ResolveTag(m.handles, p.tag).Ok? && ResolveTag(m.handles, p.tag).value.Some? ==> p.tag.Some?)
  {
  }

  lemma ContentWorks(m: Machine, anchor: Option<string>, tag: Option<string>, block: bool, indentless: bool, bound: nat)
    requires ParseContent(m, anchor, tag, block, indentless).Ok?
    requires 8 * |m.rest| + (if anchor.Some? || tag.Some? then 8 else 0) <= bound
    ensures Work(ParseContent(m, anchor, tag, block, indentless).value.next) <= bound + if indentless then 2 else 0
  {
  }

  lemma SlotWorks(m: Machine, none: bool, back: State, block: bool, indentless: bool)
    requires NodeOrEmpty(m, none, back, block, indentless).Ok?
    ensures Work(NodeOrEmpty(m, none, back, block, indentless).value.next) <= 8 * |m.rest| + 5
  {
    hide ParseNode;
    if !none {
      ParseNodeWorks(Pushed(m, back), block, indentless);
    }
  }

  lemma EntryWorks(m: Machine, style: Style, first: bool)
    requires !style.DashSeq? && StepEntry(m, style, first).Ok?
    ensures Work(StepEntry(m, style, first).value.next) < 8 * |m.rest| + if first then 6 else 0
  {
    hide ParseNode, NodeOrEmpty, Work, StepFlowSequenceEntry, StepFlowMappingKey, Pop;
    if Flow(style) {
      FlowEntryWorks(m, first);
    } else {
      TakenWorks(m.(rest := m.rest[1..]));
    }
  }

  /** What is left to do once a token is taken and a node, or an end, follows. */
  lemma TakenWorks(m: Machine)
    ensures forall none, back, block, indentless :: NodeOrEmpty(m, none, back, block, indentless).Ok? ==>
              Work(NodeOrEmpty(m, none, back, block, indentless).value.next) <= 8 * |m.rest| + 5
    ensures forall e :: Pop(m, e).Ok? ==> Work(Pop(m, e).value.next) <= 8 * |m.rest| + 5
  {
    hide NodeOrEmpty, Work, Pop;
    forall none, back, block, indentless | NodeOrEmpty(m, none, back, block, indentless).Ok?
      ensures Work(NodeOrEmpty(m, none, back, block, indentless).value.next) <= 8 * |m.rest| + 5
    {
      SlotWorks(m, none, back, block, indentless);
    }
    forall e | Pop(m, e).Ok? ensures Work(Pop(m, e).value.next) <= 8 * |m.rest| + 5 {
      PopWorks(m, e);
    }
  }

  lemma CommaWorks(m: Machine, first: bool)
    requires TakeComma(m, first).Ok?
    ensures var m1 := TakeComma(m, first).value;
            m1 == m.(rest := m1.rest) && |m1.rest| == |m.rest| - if first then 0 else 1
  {
  }

  lemma FlowEntryWorks(m: Machine, first: bool)
    ensures StepFlowSequenceEntry(m, first).Ok? ==>
              Work(StepFlowSequenceEntry(m, first).value.next) < 8 * |m.rest| + if first then 6 else 0
    ensures StepFlowMappingKey(m, first).Ok? ==>
              Work(StepFlowMappingKey(m, first).value.next) < 8 * |m.rest| + if first then 6 else 0
  {
    hide ParseNode, NodeOrEmpty, Work, Pop, TakeComma;
    if m.rest != [] {
      TakenWorks(m.(rest := m.rest[1..]));
    }
    if TakeComma(m, first).Ok? {
      CommaWorks(m, first);
      var m1 := TakeComma(m, first).value;
      if m1.rest != [] {
        TakenWorks(m1.(rest := m1.rest[1..]));
      }
      BareWorks(m1, FlowSequenceEntry);
      BareWorks(m1, FlowMappingEmptyValue);
      GotoWorks(m1);
    }
  }

  lemma BareWorks(m: Machine, back: State)
    ensures ParseNode(Pushed(m, back), false, false).Ok? ==>
              Work(ParseNode(Pushed(m, back), false, false).value.next) <= 8 * |m.rest|
  {
    hide ParseNode, Work;
    if ParseNode(Pushed(m, back), false, false).Ok? {
      ParseNodeWorks(Pushed(m, back), false, false);
    }
  }

  lemma GotoWorks(m: Machine)
    ensures Work(m.(state := Some(FlowSequenceEntryMappingKey))) == 8 * |m.rest|
  {
  }

  lemma ValueWorks(m: Machine, style: Style)
    requires StepValue(m, style).Ok?
    ensures Work(StepValue(m, style).value.next) < 8 * |m.rest| + Rank(AfterKey(style))
  {
    hide NodeOrEmpty;
    if m.rest != [] {
      TakenWorks(m.(rest := m.rest[1..]));
    }
  }

  lemma PairKeyWorks(m: Machine)
    requires StepFlowSequenceEntryMappingKey(m).Ok?
    ensures Work(StepFlowSequenceEntryMappingKey(m).value.next) < 8 * |m.rest|
  {
    hide NodeOrEmpty, Work;
    TakenWorks(m.(rest := m.rest[1..]));
  }

  lemma FirstWorks(m: Machine, style: Style)
    requires !style.DashSeq? && Step(m, FirstState(style)).Ok?
    ensures Work(Step(m, FirstState(style)).value.next) < 8 * |m.rest|
  {
    hide StepBlockSequenceEntry, StepBlockMappingKey, StepFlowSequenceEntry, StepFlowMappingKey, Work;
    var m1 := m.(rest := m.rest[1..]);
    assert Step(m, FirstState(style)) == StepEntry(m1, style, true);
    EntryWorks(m1, style, true);
  }

  /** A sequence at its mapping's indentation ends without a token, and the
      mapping then takes one or has one step fewer to go. */
  lemma DashWorks(m: Machine, c: Ctx)
    requires Agrees(m, c) && m.state == Some(IndentlessSequenceEntry)
    requires StepIndentlessSequenceEntry(m).Ok?
    ensures Work(StepIndentlessSequenceEntry(m).value.next) < 8 * |m.rest| + 2
  {
    hide NodeOrEmpty, Work, Agrees;
    if m.rest != [] && m.rest[0].BlockEntry? {
      TakenWorks(m.(rest := m.rest[1..]));
    } else {
      DashReturns(m, c);
      MappingWorks(m.(state := Some(m.states[|m.states| - 1]), states := m.states[..|m.states| - 1]));
    }
  }

  lemma MappingWorks(m: Machine)
    requires m.state == Some(BlockMappingKey) || m.state == Some(BlockMappingValue)
    ensures Work(m) < 8 * |m.rest| + 2
  {
  }

  lemma DashReturns(m: Machine, c: Ctx)
    requires Agrees(m, c) && m.state == Some(IndentlessSequenceEntry)
    ensures m.states != []
    ensures var back := m.states[|m.states| - 1]; back.BlockMappingKey? || back.BlockMappingValue?
  {
    hide HeaderOk, DocsOk, FrameOk;
    var fs := c.inner.frames;
    var k := |fs| - 1;
    assert StyleOk(fs[k].style, SlotBlock(fs, k), SlotIndentless(fs, k));
    var below := Below(c.inner).frames;
    assert below[k - 1] == fs[k - 1] && fs[k - 1].style.BlockMap?;
    assert CanFill(below[k - 1]) && At(m.states[k], Fill(below[k - 1], NOTHING));
  }

  lemma DocumentWorks(m: Machine)
    ensures StepStreamStart(m).Ok? ==> Work(StepStreamStart(m).value.next) < 8 * |m.rest|
    ensures StepDocumentStart(m).Ok? ==> Work(StepDocumentStart(m).value.next) < 8 * |m.rest|
    ensures StepImplicitDocumentStart(m).Ok? ==> Work(StepImplicitDocumentStart(m).value.next) < 8 * |m.rest| + 5
    ensures StepDocumentEnd(m).Ok? ==> Work(StepDocumentEnd(m).value.next) < 8 * |m.rest| + 1
  {
    hide SkipDocumentEnds, TakeDirectives;
    var m1 := SkipDocumentEnds(m).(handles := map[]);
    if TakeDirectives(m1, false).Ok? {
      var ds := DirectivesTaken(m1, false);
    }
  }

  lemma RootWorks(m: Machine)
    requires m.states == [DocumentEndState]
    ensures StepDocumentContent(m).Ok? ==> Work(StepDocumentContent(m).value.next) < 8 * |m.rest| + 2
    ensures ParseNode(m, true, false).Ok? ==> Work(ParseNode(m, true, false).value.next) < 8 * |m.rest| + 4
  {
    hide ParseNode;
    if ParseNode(m, true, false).Ok? {
      ParseNodeWorks(m, true, false);
    }
  }

  lemma RootStates(m: Machine, c: Ctx)
    requires Agrees(m, c) && (m.state == Some(DocumentContent) || m.state == Some(BlockNode))
    ensures m.states == [DocumentEndState]
  {
    hide HeaderOk, DocsOk;
  }

  lemma FlowEndWorks(m: Machine)
    ensures Work(m.(state := Some(FlowSequenceEntry))) < 8 * |m.rest| + 1
    ensures Work(m.(state := Some(FlowMappingKey))) < 8 * |m.rest| + 1
  {
  }

  /** Every step takes a token or leaves fewer steps that take none. */
  lemma StepWorks(m: Machine, s: State, c: Ctx)
    requires Agrees(m, c) && m.state == Some(s) && Step(m, s).Ok?
    ensures Work(Step(m, s).value.next) < Work(m)
  {
    hide Step, Agrees;
    if s.FlowSequenceFirstEntry? || s.FlowSequenceEntry? || s.FlowSequenceEntryMappingKey? || s.FlowSequenceEntryMappingValue?
       || s.FlowSequenceEntryMappingEnd? || s.FlowMappingFirstKey? || s.FlowMappingKey? || s.FlowMappingValue? || s.FlowMappingEmptyValue? {
      FlowStepWorks(m, s, c);
    } else if s.StreamStartState? || s.ImplicitDocumentStart? || s.DocumentStartState? || s.DocumentEndState? {
      DocumentStepWorks(m, s);
    } else {
      BlockStepWorks(m, s, c);
    }
  }

  lemma DocumentStepWorks(m: Machine, s: State)
    requires m.state == Some(s) && Step(m, s).Ok?
    requires s.StreamStartState? || s.ImplicitDocumentStart? || s.DocumentStartState? || s.DocumentEndState?
    ensures Work(Step(m, s).value.next) < 8 * |m.rest| + Rank(s)
  {
    hide Work, StepStreamStart, StepImplicitDocumentStart, StepDocumentStart, StepDocumentEnd;
    DocumentWorks(m);
  }

  lemma BlockStepWorks(m: Machine, s: State, c: Ctx)
    requires Agrees(m, c) && m.state == Some(s) && Step(m, s).Ok?
    requires s.DocumentContent? || s.BlockNode? || s.BlockSequenceFirstEntry? || s.BlockSequenceEntry? || s.IndentlessSequenceEntry?
             || s.BlockMappingFirstKey? || s.BlockMappingKey? || s.BlockMappingValue?
    ensures Work(Step(m, s).value.next) < 8 * |m.rest| + Rank(s)
  {
    hide Step, Work, Agrees, ParseNode, StepEntry, StepValue, StepDocumentContent, StepIndentlessSequenceEntry;
    DocumentStates(m);
    match s
    case DocumentContent => RootStates(m, c); RootWorks(m);
    case BlockNode => RootStates(m, c); RootWorks(m);
    case BlockSequenceFirstEntry => FirstWorks(m, BlockSeq);
    case BlockSequenceEntry => StepIsEntry(m, BlockSeq); EntryWorks(m, BlockSeq, false);
    case IndentlessSequenceEntry => IndentlessIs(m); DashWorks(m, c);
    case BlockMappingFirstKey => FirstWorks(m, BlockMap);
    case BlockMappingKey => StepIsEntry(m, BlockMap); EntryWorks(m, BlockMap, false);
    case BlockMappingValue => StepIsValue(m, BlockMap); ValueWorks(m, BlockMap);
  }

  lemma FlowStepWorks(m: Machine, s: State, c: Ctx)
    requires Agrees(m, c) && m.state == Some(s) && Step(m, s).Ok?
    requires s.FlowSequenceFirstEntry? || s.FlowSequenceEntry? || s.FlowSequenceEntryMappingKey? || s.FlowSequenceEntryMappingValue?
             || s.FlowSequenceEntryMappingEnd? || s.FlowMappingFirstKey? || s.FlowMappingKey? || s.FlowMappingValue? || s.FlowMappingEmptyValue?
    ensures Work(Step(m, s).value.next) < 8 * |m.rest| + Rank(s)
  {
    hide Step, Work, Agrees, StepEntry, StepValue, StepFlowSequenceEntryMappingKey, StepFlowSequenceEntry, StepFlowMappingKey;
    FlowSteps(m);
    match s
    case FlowSequenceFirstEntry => FirstWorks(m, FlowSeq);
    case FlowSequenceEntry => StepIsEntry(m, FlowSeq); EntryWorks(m, FlowSeq, false);
    case FlowSequenceEntryMappingKey => PairKeyWorks(m);
    case FlowSequenceEntryMappingValue => StepIsValue(m, FlowSeq); ValueWorks(m, FlowSeq);
    case FlowSequenceEntryMappingEnd => FlowEndWorks(m);
    case FlowMappingFirstKey => FirstWorks(m, FlowMap);
    case FlowMappingKey => StepIsEntry(m, FlowMap); EntryWorks(m, FlowMap, false);
    case FlowMappingValue => StepIsValue(m, FlowMap); ValueWorks(m, FlowMap);
    case FlowMappingEmptyValue => FlowEndWorks(m);
  }

  lemma IndentlessIs(m: Machine)
    ensures Step(m, IndentlessSequenceEntry) == StepIndentlessSequenceEntry(m)
  {
    hide StepIndentlessSequenceEntry;
  }

  /** A run emits no more events than eight for each token it is given, so it ends. */
  lemma {:induction false} RunsEnd(m: Machine, es: seq<Event>, last: Machine, c: Ctx)
    requires Agrees(m, c) && Emits(m, es, last)
    ensures |es| + Work(last) <= Work(m)
    decreases |es|
  {
    hide Step, Agrees, Work;
    if es != [] {
      var s := m.state.value;
      StepWorks(m, s, c);
      var c1 := StepAdvances(m, s, c);
      RunsEnd(Step(m, s).value.next, es[1..], last, c1);
    }
  }

  lemma EveryRunEnds(tokens: seq<Tok>, broken: bool, es: seq<Event>, last: Machine)
    ensures Emits(Start(tokens, broken), es, last) ==> |es| <= 8 * |tokens|
  {
    hide Emits, Agrees;
    if Emits(Start(tokens, broken), es, last) {
      FreshStart(tokens, broken);
      RunsEnd(Start(tokens, broken), es, last, Fresh);
    }
  }

  // --- whole runs

  /** Wherever a run has got to, its next step finds its stack as it left it. */
  lemma RunsKeepTheirStack(tokens: seq<Tok>, broken: bool, es: seq<Event>, last: Machine)
    ensures Emits(Start(tokens, broken), es, last) && last.state.Some? ==> Step(last, last.state.value) != Err(EmptyStackFault)
  {
    hide Step, Emits, Agrees;
    if Emits(Start(tokens, broken), es, last) && last.state.Some? {
      FreshStart(tokens, broken);
      var c := RunAdvances(Start(tokens, broken), es, last, Fresh);
      StackNeverEmpty(last, last.state.value, c);
    }
  }

  /** A run that stops with a fault is the only one, and it accepts nothing. */
  lemma {:induction false} StoppedRun(m: Machine, es: seq<Event>, last: Machine, es2: seq<Event>, last2: Machine)
    requires Emits(m, es, last) && Emits(m, es2, last2)
    requires last.state.Some? && Step(last, last.state.value).Err?
    ensures last2.state.Some?
    decreases |es|
  {
    hide Step;
    if es != [] && es2 != [] {
      StoppedRun(Step(m, m.state.value).value.next, es[1..], last, es2[1..], last2);
    }
  }

  lemma StoppedAcceptsNothing(tokens: seq<Tok>, broken: bool, es: seq<Event>, last: Machine)
    requires Emits(Start(tokens, broken), es, last)
    requires last.state.Some? && Step(last, last.state.value).Err?
    ensures forall es2, rest :: !Grammatical(tokens, es2, rest)
  {
    hide Step, Emits, Grammatical;
    forall es2, rest ensures !Grammatical(tokens, es2, rest) {
      if Grammatical(tokens, es2, rest) {
        ParserReadsItsGrammar(tokens, broken, es2, rest);
        var last2: Machine :| Emits(Start(tokens, broken), es2, last2) && last2.state.None? && last2.rest == rest;
        StoppedRun(Start(tokens, broken), es, last, es2, last2);
      }
    }
  }
}
