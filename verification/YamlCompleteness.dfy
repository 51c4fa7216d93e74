/** Every grammatical stream of tokens is read, and read as the nodes it stands
    for: the state machine with its explicit stacks takes each syntax tree as
    one call of a recursive reader would. */
module YamlCompleteness {
  import opened Results
  import opened YamlTree
  import opened YamlTokens
  import opened YamlParser
  import opened YamlSyntax

  /** The outcome of one step begins the events `es`, which end at `last`. */
  ghost predicate Leads(r: Result<Emitted>, es: seq<Event>, last: Machine) {
    es != [] && r.Ok? && r.value.event == es[0] && Emits(r.value.next, es[1..], last)
  }

  lemma LeadsConcat(r: Result<Emitted>, a: seq<Event>, n: Machine, b: seq<Event>, last: Machine)
    requires Leads(r, a, n) && Emits(n, b, last)
    ensures Leads(r, a + b, last)
  {
    hide Step;
    EmitsConcat(r.value.next, a[1..], n, b, last);
    assert (a + b)[1..] == a[1..] + b;
  }

  lemma LeadsEmits(m: Machine, s: State, es: seq<Event>, last: Machine)
    requires m.state == Some(s) && Leads(Step(m, s), es, last)
    ensures Emits(m, es, last)
  {
    hide Step;
  }

  lemma OneEvent(e: Event, n: Machine)
    ensures Leads(Ok(Emitted(e, n)), [e], n)
  {
    hide Step;
  }

  lemma StartLeads(e: Event, n: Machine, es: seq<Event>, last: Machine)
    requires Emits(n, es, last)
    ensures Leads(Ok(Emitted(e, n)), [e] + es, last)
  {
    hide Step;
    assert ([e] + es)[1..] == es;
  }

  // --- what comes first and what may come next

  /** The tokens that may follow a node; a mapping's keys and values, which may
      hold sequences at its own indentation, are followed by less. */
  predicate Follows(t: Tok, indentless: bool) {
    || t.BlockEnd? || t.Key? || t.Value?
    || (!indentless && (|| t.BlockEntry? || t.FlowEntry? || t.FlowSequenceEnd? || t.FlowMappingEnd?
                        || t.DocumentEnd? || t.DocumentStart? || t.DirectiveTok? || t.StreamEnd?))
  }

  /** The tokens that may follow a part of a collection. */
  predicate EndsPart(style: Style, t: Tok) {
    match style
    case BlockSeq => t.BlockEntry? || t.BlockEnd?
    case DashSeq => t.BlockEntry? || t.BlockEnd? || t.Key? || t.Value?
    case BlockMap => t.Key? || t.BlockEnd?
    case FlowSeq => t.FlowEntry? || t.FlowSequenceEnd?
    case FlowMap => t.FlowEntry? || t.FlowMappingEnd?
  }

  /** The tokens a node may begin with. */
  predicate Begins(t: Tok, block: bool, indentless: bool) {
    || t.Alias? || t.Anchor? || t.Tag? || t.Scalar? || t.FlowSequenceStart? || t.FlowMappingStart?
    || (block && (t.BlockSequenceStart? || t.BlockMappingStart?))
    || (indentless && t.BlockEntry?)
  }

  lemma PartBegins(style: Style, p: Part)
    requires !Flow(style)
    ensures PartTokens(style, p) != []
    ensures PartTokens(style, p)[0] == if p.Item? then Tok.BlockEntry else Tok.Key
  {
  }

  lemma PartsBegin(style: Style, parts: seq<Part>, first: bool, handles: map<string, string>)
    requires !Flow(style) && parts != [] && PartsOk(style, parts, handles)
    ensures var ts := PartsTokens(style, parts, first);
            ts != [] && ts[0] == if style.BlockMap? then Tok.Key else Tok.BlockEntry
  {
    PartBegins(style, parts[0]);
    hide PartTokens, SyntaxOk, ValueOk;
    var head, tail := PartTokens(style, parts[0]), PartsTokens(style, parts[1..], false);
    assert PartsTokens(style, parts, first) == CommaTokens(false) + head + tail;
    assert (CommaTokens(false) + head + tail)[0] == head[0];
  }

  lemma TokensBegin(c: Syntax, block: bool, indentless: bool, handles: map<string, string>)
    requires SyntaxOk(c, block, indentless, handles) && c != NOTHING
    ensures Tokens(c) != [] && Begins(Tokens(c)[0], block, indentless)
  {
    if c.Coll? && c.style.DashSeq? && c.props.Bare? {
      PartsBegin(c.style, c.parts, true, handles);
      hide PartsTokens;
      assert Tokens(c) == PartsTokens(c.style, c.parts, true);
    }
  }

  /** What is left of a collection after one of its parts. */
  function Tail(style: Style, parts: seq<Part>, comma: bool, more: seq<Tok>): seq<Tok> {
    PartsTokens(style, parts, false) + CommaTokens(comma) + CloseTokens(style) + more
  }

  lemma TailBegins(style: Style, parts: seq<Part>, comma: bool, more: seq<Tok>, handles: map<string, string>)
    requires PartsOk(style, parts, handles)
    requires comma ==> Flow(style)
    requires style.DashSeq? ==> more != [] && Follows(more[0], true)
    ensures var t := Tail(style, parts, comma, more);
            t != [] && EndsPart(style, t[0])
  {
    if parts != [] && !Flow(style) {
      PartsBegin(style, parts, false, handles);
    }
  }

  lemma PartsSplit(style: Style, parts: seq<Part>, first: bool, comma: bool, more: seq<Tok>)
    requires parts != []
    ensures PartsTokens(style, parts, first) + CommaTokens(comma) + CloseTokens(style) + more
         == CommaTokens(Flow(style) && !first) + (PartTokens(style, parts[0]) + Tail(style, parts[1..], comma, more))
  {
    PartsHead(style, parts, first);
    hide PartsTokens, PartTokens, CommaTokens, CloseTokens;
    Split(CommaTokens(Flow(style) && !first), PartTokens(style, parts[0]), PartsTokens(style, parts[1..], false),
          CommaTokens(comma), CloseTokens(style), more);
  }

  lemma PartsHead(style: Style, parts: seq<Part>, first: bool)
    requires parts != []
    ensures PartsTokens(style, parts, first)
         == CommaTokens(Flow(style) && !first) + PartTokens(style, parts[0]) + PartsTokens(style, parts[1..], false)
  {
    hide PartTokens, CommaTokens;
  }

  lemma Split<T>(a: seq<T>, b: seq<T>, c: seq<T>, d: seq<T>, e: seq<T>, f: seq<T>)
    ensures a + b + c + d + e + f == a + (b + (c + d + e + f))
  {
  }

  // --- one node

  /** The machine once a node is read: back in the state on top of its stack. */
  function Returned(m: Machine, more: seq<Tok>): Machine
    requires m.states != []
  {
    m.(state := Some(m.states[|m.states| - 1]), states := m.states[..|m.states| - 1], rest := more)
  }

  lemma PropsRun(m: Machine, props: Props, more: seq<Tok>)
    requires m.rest == PropTokens(props) + more
    requires more != [] && !more[0].Anchor? && !more[0].Tag?
    requires PropsOk(props, m.handles)
    ensures var p := TakeProperties(m);
            && p.Ok? && p.value.anchor == AnchorOf(props) && p.value.next == m.(rest := more)
            && ResolveTag(m.handles, p.value.tag) == Ok(TagOf(props, m.handles))
  {
    match props
    case Bare => assert m.rest == more;
    case Anchored(a) => assert m.rest[1..] == more;
    case Tagged(h, s) => assert m.rest[1..] == more;
    case AnchoredTagged(a, h, s) => assert m.rest[1..] == [Tok.Tag(h, s)] + more; assert m.rest[1..][1..] == more;
    case TaggedAnchored(a, h, s) => assert m.rest[1..] == [Tok.Anchor(a)] + more; assert m.rest[1..][1..] == more;
  }

  /** A node's properties are read, then its content. */
  lemma ContentFollows(m: Machine, props: Props, block: bool, indentless: bool, more: seq<Tok>)
    requires m.rest == PropTokens(props) + more
    requires more != [] && !more[0].Anchor? && !more[0].Tag? && !more[0].Alias?
    requires PropsOk(props, m.handles)
    ensures ParseNode(m, block, indentless)
         == ParseContent(m.(rest := more), AnchorOf(props), TagOf(props, m.handles), block, indentless)
  {
    hide ParseContent;
    PropsRun(m, props, more);
  }

  lemma EmptyRuns(m: Machine, props: Props, block: bool, indentless: bool, more: seq<Tok>)
    requires m.rest == PropTokens(props) + more && props != Bare
    requires more != [] && Follows(more[0], indentless)
    requires PropsOk(props, m.handles) && m.states != []
    ensures var tag := TagOf(props, m.handles);
            ParseNode(m, block, indentless)
            == Ok(Emitted(Event.Scalar(AnchorOf(props), tag, tag.None? || tag == Some("!"), ""), Returned(m, more)))
  {
    hide ParseNode;
    ContentFollows(m, props, block, indentless, more);
  }

  lemma TextRuns(m: Machine, props: Props, value: string, plain: bool, block: bool, indentless: bool, more: seq<Tok>)
    requires m.rest == PropTokens(props) + [Tok.Scalar(value, plain)] + more
    requires PropsOk(props, m.handles) && m.states != []
    ensures var tag := TagOf(props, m.handles);
            ParseNode(m, block, indentless)
            == Ok(Emitted(Event.Scalar(AnchorOf(props), tag, (plain && tag.None?) || tag == Some("!"), value), Returned(m, more)))
  {
    hide ParseNode, PropTokens, PropsOk, TagOf, AnchorOf;
    var tail := [Tok.Scalar(value, plain)] + more;
    assert m.rest == PropTokens(props) + tail && tail[1..] == more;
    ContentFollows(m, props, block, indentless, tail);
  }

  /** A node with no parts is one event. */
  lemma LeafRuns(m: Machine, c: Syntax, block: bool, indentless: bool, more: seq<Tok>)
    requires !c.Coll? && c != NOTHING
    requires m.rest == Tokens(c) + more
    requires more != [] && Follows(more[0], indentless)
    requires SyntaxOk(c, block, indentless, m.handles)
    requires m.states != []
    ensures |Events(NodeOf(c, m.handles))| == 1
    ensures ParseNode(m, block, indentless) == Ok(Emitted(Events(NodeOf(c, m.handles))[0], Returned(m, more)))
  {
    match c
    case Ref(name) =>
      assert m.rest[1..] == more;
    case Empty(props) =>
      hide ParseNode, PropTokens, PropsOk, TagOf, AnchorOf, Follows;
      EmptyRuns(m, props, block, indentless, more);
    case Text(props, value, plain) =>
      hide ParseNode, PropTokens, PropsOk, TagOf, AnchorOf, Follows;
      TextRuns(m, props, value, plain, block, indentless, more);
  }

  /** A node that is not nothing, read from its first token to its last. */
  lemma {:induction false} NodeRuns(m: Machine, c: Syntax, block: bool, indentless: bool, more: seq<Tok>)
    requires m.rest == Tokens(c) + more
    requires more != [] && Follows(more[0], indentless)
    requires SyntaxOk(c, block, indentless, m.handles) && c != NOTHING
    requires m.states != []
    ensures Leads(ParseNode(m, block, indentless), Events(NodeOf(c, m.handles)), Returned(m, more))
    decreases c, 2
  {
    hide *;
    if c.Coll? {
      CollRuns(m, c, block, indentless, more);
    } else {
      LeafRuns(m, c, block, indentless, more);
      var es := Events(NodeOf(c, m.handles));
      OneEvent(es[0], Returned(m, more));
      assert es == [es[0]];
    }
  }

  /** A node or nothing, between two tokens that tell which. */
  lemma {:induction false} SlotRuns(m: Machine, c: Syntax, back: State, block: bool, indentless: bool, more: seq<Tok>)
    requires m.rest == Tokens(c) + more
    requires more != [] && Follows(more[0], indentless)
    requires SyntaxOk(c, block, indentless, m.handles)
    ensures Leads(NodeOrEmpty(m, c == NOTHING, back, block, indentless), Events(NodeOf(c, m.handles)), m.(state := Some(back), rest := more))
    decreases c, 3
  {
    hide Step, ParseNode;
    if c == NOTHING {
      assert m.rest == more;
    } else {
      var pushed := Pushed(m, back);
      NodeRuns(pushed, c, block, indentless, more);
      assert pushed.states[..|pushed.states| - 1] == m.states;
    }
  }

  // --- collections

  /** The step a collection takes at each of its parts and at its end. */
  function StepEntry(m: Machine, style: Style, first: bool): Result<Emitted> {
    match style
    case BlockSeq => StepBlockSequenceEntry(m)
    case DashSeq => StepIndentlessSequenceEntry(m)
    case BlockMap => StepBlockMappingKey(m)
    case FlowSeq => StepFlowSequenceEntry(m, first)
    case FlowMap => StepFlowMappingKey(m, first)
  }

  function EntryState(style: Style): State {
    match style
    case BlockSeq => BlockSequenceEntry
    case DashSeq => IndentlessSequenceEntry
    case BlockMap => BlockMappingKey
    case FlowSeq => FlowSequenceEntry
    case FlowMap => FlowMappingKey
  }

  function FirstState(style: Style): State {
    match style
    case BlockSeq => BlockSequenceFirstEntry
    case DashSeq => IndentlessSequenceEntry
    case BlockMap => BlockMappingFirstKey
    case FlowSeq => FlowSequenceFirstEntry
    case FlowMap => FlowMappingFirstKey
  }

  lemma StepIsEntry(m: Machine, style: Style)
    ensures Step(m, EntryState(style)) == StepEntry(m, style, false)
  {
    hide StepBlockSequenceEntry, StepIndentlessSequenceEntry, StepBlockMappingKey, StepFlowSequenceEntry, StepFlowMappingKey;
  }

  lemma StepIsFirst(m: Machine, style: Style, inner: seq<Tok>)
    requires m.rest == OpenTokens(style) + inner
    ensures Step(m, FirstState(style)) == StepEntry(m.(rest := inner), style, true)
  {
    hide StepBlockSequenceEntry, StepIndentlessSequenceEntry, StepBlockMappingKey, StepFlowSequenceEntry, StepFlowMappingKey;
    if style.DashSeq? {
      assert m.rest == inner;
    } else {
      assert m.rest[1..] == inner;
    }
  }

  function CollStart(c: Syntax, handles: map<string, string>): Event
    requires c.Coll?
  {
    if Sequence(c.style) then Event.SequenceStart(AnchorOf(c.props), TagOf(c.props, handles))
    else Event.MappingStart(AnchorOf(c.props), TagOf(c.props, handles))
  }

  function CollEnd(style: Style): Event {
    if Sequence(style) then Event.SequenceEnd else Event.MappingEnd
  }

  function PartEvents(style: Style, p: Part, handles: map<string, string>): seq<Event> {
    if Sequence(style) then Events(ItemOf(p, handles)) else OnePairEvents(PairOf(p, handles))
  }

  function BodyEvents(style: Style, parts: seq<Part>, handles: map<string, string>): seq<Event> {
    if Sequence(style) then ItemEvents(ItemsOf(parts, handles)) else PairEvents(PairsOf(parts, handles))
  }

  lemma BodySplit(style: Style, parts: seq<Part>, handles: map<string, string>)
    requires parts != []
    ensures BodyEvents(style, parts, handles) == PartEvents(style, parts[0], handles) + BodyEvents(style, parts[1..], handles)
  {
    if Sequence(style) {
      assert ItemsOf(parts, handles)[1..] == ItemsOf(parts[1..], handles);
    } else {
      assert PairsOf(parts, handles)[1..] == PairsOf(parts[1..], handles);
    }
  }

  lemma CollEvents(c: Syntax, handles: map<string, string>)
    requires c.Coll?
    ensures Events(NodeOf(c, handles)) == [CollStart(c, handles)] + (BodyEvents(c.style, c.parts, handles) + [CollEnd(c.style)])
  {
  }

  /** Opening a collection emits its start and leaves its first part in front. */
  lemma CollBegins(m: Machine, c: Syntax, block: bool, indentless: bool, inner: seq<Tok>)
    requires c.Coll?
    requires m.rest == PropTokens(c.props) + (OpenTokens(c.style) + inner)
    requires PropsOk(c.props, m.handles) && StyleOk(c.style, block, indentless)
    requires c.style.DashSeq? ==> inner != [] && inner[0].BlockEntry?
    ensures ParseNode(m, block, indentless)
         == Ok(Emitted(CollStart(c, m.handles), m.(rest := OpenTokens(c.style) + inner, state := Some(FirstState(c.style)))))
  {
    hide ParseNode, TakeProperties, ResolveTag;
    if c.style.DashSeq? {
      assert OpenTokens(c.style) + inner == inner;
    }
    ContentFollows(m, c.props, block, indentless, OpenTokens(c.style) + inner);
  }

  lemma CollTokens(c: Syntax, more: seq<Tok>)
    requires c.Coll?
    ensures Tokens(c) + more == PropTokens(c.props) + (OpenTokens(c.style)
                                + (PartsTokens(c.style, c.parts, true) + CommaTokens(c.comma) + CloseTokens(c.style) + more))
  {
    hide PropTokens, OpenTokens, PartsTokens, CommaTokens, CloseTokens;
  }

  lemma {:induction false} CollRuns(m: Machine, c: Syntax, block: bool, indentless: bool, more: seq<Tok>)
    requires c.Coll?
    requires m.rest == Tokens(c) + more
    requires more != [] && Follows(more[0], indentless)
    requires SyntaxOk(c, block, indentless, m.handles)
    requires m.states != []
    ensures Leads(ParseNode(m, block, indentless), Events(NodeOf(c, m.handles)), Returned(m, more))
    decreases c, 1
  {
    hide Step, ParseNode, PartsTokens, StepEntry, FirstState, Leads, Events, NodeOf, Tokens, PropTokens, Follows, BodyEvents;
    var Coll(style, props, parts, comma) := c;
    var inner := PartsTokens(style, parts, true) + CommaTokens(comma) + CloseTokens(style) + more;
    CollTokens(c, more);
    if style.DashSeq? {
      PartsBegin(style, parts, true, m.handles);
    }
    CollBegins(m, c, block, indentless, inner);
    var n := m.(rest := OpenTokens(style) + inner, state := Some(FirstState(style)));
    StepIsFirst(n, style, inner);
    PartsRun(n.(rest := inner), style, parts, true, comma, more);
    var body := BodyEvents(style, parts, m.handles) + [CollEnd(style)];
    LeadsEmits(n, FirstState(style), body, Returned(m, more));
    StartLeads(CollStart(c, m.handles), n, body, Returned(m, more));
    CollEvents(c, m.handles);
  }

  /** The parts of a collection that are left, and its end. */
  lemma {:induction false} PartsRun(m: Machine, style: Style, parts: seq<Part>, first: bool, comma: bool, more: seq<Tok>)
    requires m.rest == PartsTokens(style, parts, first) + CommaTokens(comma) + CloseTokens(style) + more
    requires PartsOk(style, parts, m.handles) && m.states != []
    requires comma ==> Flow(style) && (!first || parts != [])
    requires style.DashSeq? ==> more != [] && Follows(more[0], true)
    ensures Leads(StepEntry(m, style, first), BodyEvents(style, parts, m.handles) + [CollEnd(style)], Returned(m, more))
    decreases parts, 0
  {
    hide Step, StepEntry, EntryState, Leads, Emits, PartsTokens, PartTokens, Tail, Events, Follows, EndsPart;
    if parts == [] {
      assert PartsTokens(style, parts, first) == [] by { PartsNone(style, first); }
      EndRuns(m, style, first, comma, more);
      assert BodyEvents(style, parts, m.handles) + [CollEnd(style)] == [CollEnd(style)];
    } else {
      PartsSplit(style, parts, first, comma, more);
      var after := Tail(style, parts[1..], comma, more);
      TailBegins(style, parts[1..], comma, more, m.handles);
      PartRuns(m, style, parts[0], first, after);
      var m1 := m.(state := Some(EntryState(style)), rest := after);
      TailIs(style, parts[1..], comma, more);
      PartsRun(m1, style, parts[1..], false, comma, more);
      StepIsEntry(m1, style);
      var tail := BodyEvents(style, parts[1..], m.handles) + [CollEnd(style)];
      LeadsEmits(m1, EntryState(style), tail, Returned(m, more));
      LeadsConcat(StepEntry(m, style, first), PartEvents(style, parts[0], m.handles), m1, tail, Returned(m, more));
      BodySplit(style, parts, m.handles);
      assert BodyEvents(style, parts, m.handles) + [CollEnd(style)] == PartEvents(style, parts[0], m.handles) + tail;
    }
  }

  lemma PartsNone(style: Style, first: bool)
    ensures PartsTokens(style, [], first) == []
  {
  }

  lemma TailIs(style: Style, parts: seq<Part>, comma: bool, more: seq<Tok>)
    ensures Tail(style, parts, comma, more) == PartsTokens(style, parts, false) + CommaTokens(comma) + CloseTokens(style) + more
  {
  }

  lemma EndRuns(m: Machine, style: Style, first: bool, comma: bool, more: seq<Tok>)
    requires m.rest == [] + CommaTokens(comma) + CloseTokens(style) + more
    requires m.states != []
    requires comma ==> Flow(style) && !first
    requires style.DashSeq? ==> more != [] && Follows(more[0], true)
    ensures Leads(StepEntry(m, style, first), [CollEnd(style)], Returned(m, more))
  {
    EndStep(m, style, first, comma, more);
    OneEvent(CollEnd(style), Returned(m, more));
  }

  lemma EndStep(m: Machine, style: Style, first: bool, comma: bool, more: seq<Tok>)
    requires m.rest == [] + CommaTokens(comma) + CloseTokens(style) + more
    requires m.states != []
    requires comma ==> Flow(style) && !first
    requires style.DashSeq? ==> more != [] && Follows(more[0], true)
    ensures StepEntry(m, style, first) == Ok(Emitted(CollEnd(style), Returned(m, more)))
  {
    hide ParseNode, NodeOrEmpty, StepFlowSequenceEntry, StepFlowMappingKey;
    match style
    case BlockSeq => assert m.rest[1..] == more;
    case DashSeq => assert m.rest == more;
    case BlockMap => assert m.rest[1..] == more;
    case FlowSeq => FlowSeqEnd(m, first, comma, more);
    case FlowMap => FlowMapEnd(m, first, comma, more);
  }

  lemma FlowSeqEnd(m: Machine, first: bool, comma: bool, more: seq<Tok>)
    requires m.rest == [] + CommaTokens(comma) + CloseTokens(FlowSeq) + more
    requires m.states != []
    requires comma ==> !first
    ensures StepFlowSequenceEntry(m, first) == Ok(Emitted(Event.SequenceEnd, Returned(m, more)))
  {
    hide ParseNode;
    if comma {
      assert m.rest[1..] == [Tok.FlowSequenceEnd] + more;
      assert m.rest[1..][1..] == more;
    } else {
      assert m.rest[1..] == more;
    }
  }

  lemma FlowMapEnd(m: Machine, first: bool, comma: bool, more: seq<Tok>)
    requires m.rest == [] + CommaTokens(comma) + CloseTokens(FlowMap) + more
    requires m.states != []
    requires comma ==> !first
    ensures StepFlowMappingKey(m, first) == Ok(Emitted(Event.MappingEnd, Returned(m, more)))
  {
    hide ParseNode, NodeOrEmpty;
    if comma {
      assert m.rest[1..] == [Tok.FlowMappingEnd] + more;
      assert m.rest[1..][1..] == more;
    } else {
      assert m.rest[1..] == more;
    }
  }

  // --- the parts of collections

  lemma {:induction false} PartRuns(m: Machine, style: Style, p: Part, first: bool, more: seq<Tok>)
    requires m.rest == CommaTokens(Flow(style) && !first) + (PartTokens(style, p) + more)
    requires PartOk(style, p, m.handles)
    requires more != [] && EndsPart(style, more[0])
    ensures Leads(StepEntry(m, style, first), PartEvents(style, p, m.handles), m.(state := Some(EntryState(style)), rest := more))
    decreases p, 4
  {
    hide Step, Leads, ParseNode, SyntaxOk, ValueOk, NodeOrEmpty, Tokens, Events, PartTokens, EndsPart,
         StepFlowSequenceEntry, StepFlowMappingKey, StepBlockMappingKey, StepBlockSequenceEntry, StepIndentlessSequenceEntry;
    match style
    case BlockSeq => assert m.rest == PartTokens(style, p) + more; EntryRuns(m, style, p, more);
    case DashSeq => assert m.rest == PartTokens(style, p) + more; EntryRuns(m, style, p, more);
    case BlockMap => assert m.rest == PartTokens(style, p) + more; BlockCoupleRuns(m, p, more);
    case FlowSeq => FlowItemRuns(m, p, first, more);
    case FlowMap => FlowPairRuns(m, p, first, more);
  }

  /** The `-` of a sequence and what stands after it. */
  lemma {:induction false} EntryRuns(m: Machine, style: Style, p: Part, more: seq<Tok>)
    requires style.BlockSeq? || style.DashSeq?
    requires m.rest == PartTokens(style, p) + more
    requires PartOk(style, p, m.handles)
    requires more != [] && EndsPart(style, more[0])
    ensures Leads(StepEntry(m, style, false), Events(ItemOf(p, m.handles)), m.(state := Some(EntryState(style)), rest := more))
    decreases p, 3
  {
    EntryStep(m, style, p, more);
    hide Step, StepEntry, NodeOrEmpty, Leads, Tokens, Events;
    var m1 := m.(rest := Tokens(p.node) + more);
    SlotRuns(m1, p.node, EntryState(style), true, false, more);
  }

  lemma EntryStep(m: Machine, style: Style, p: Part, more: seq<Tok>)
    requires style.BlockSeq? || style.DashSeq?
    requires m.rest == PartTokens(style, p) + more
    requires PartOk(style, p, m.handles)
    requires more != [] && EndsPart(style, more[0])
    ensures StepEntry(m, style, false)
         == NodeOrEmpty(m.(rest := Tokens(p.node) + more), p.node == NOTHING, EntryState(style), true, false)
  {
    hide StepEntry, NodeOrEmpty;
    var ts := Tokens(p.node) + more;
    assert m.rest == [Tok.BlockEntry] + ts && m.rest[1..] == ts;
    assert ts != [] && (EndsPart(style, ts[0]) <==> p.node == NOTHING) by {
      if p.node == NOTHING {
        assert ts == more;
      } else {
        TokensBegin(p.node, true, false, m.handles);
      }
    }
    DashStep(m, style);
  }

  /** A `-`, and whether anything stands after it. */
  lemma DashStep(m: Machine, style: Style)
    requires style.BlockSeq? || style.DashSeq?
    requires |m.rest| > 1 && m.rest[0].BlockEntry?
    ensures StepEntry(m, style, false)
         == NodeOrEmpty(m.(rest := m.rest[1..]), EndsPart(style, m.rest[1]), EntryState(style), true, false)
  {
    hide NodeOrEmpty;
    assert m.rest[1..][0] == m.rest[1];
  }

  // --- keys and values

  function StepValue(m: Machine, style: Style): Result<Emitted> {
    match style
    case FlowSeq => StepFlowSequenceEntryMappingValue(m)
    case FlowMap => StepFlowMappingValue(m)
    case _ => StepBlockMappingValue(m)
  }

  function AfterKey(style: Style): State {
    match style
    case FlowSeq => FlowSequenceEntryMappingValue
    case FlowMap => FlowMappingValue
    case _ => BlockMappingValue
  }

  function AfterValue(style: Style): State {
    match style
    case FlowSeq => FlowSequenceEntryMappingEnd
    case FlowMap => FlowMappingKey
    case _ => BlockMappingKey
  }

  lemma StepIsValue(m: Machine, style: Style)
    ensures Step(m, AfterKey(style)) == StepValue(m, style)
  {
    hide StepFlowSequenceEntryMappingValue, StepFlowMappingValue, StepBlockMappingValue;
  }

  lemma ValueStep(m: Machine, style: Style, v: Syntax, more: seq<Tok>)
    requires style.BlockMap? || Flow(style)
    requires m.rest == [Tok.Value] + Tokens(v) + more
    requires more != [] && EndsPart(style, more[0])
    requires SyntaxOk(v, style.BlockMap?, style.BlockMap?, m.handles)
    ensures StepValue(m, style)
         == NodeOrEmpty(m.(rest := Tokens(v) + more), v == NOTHING, AfterValue(style), style.BlockMap?, style.BlockMap?)
  {
    hide StepValue, NodeOrEmpty, SyntaxOk, Tokens, EndsPart;
    var ts := Tokens(v) + more;
    assert m.rest[1..] == ts;
    ValueBegins(style, v, more, m.handles);
    ColonStep(m, style);
  }

  lemma ValueBegins(style: Style, v: Syntax, more: seq<Tok>, handles: map<string, string>)
    requires style.BlockMap? || Flow(style)
    requires more != [] && EndsPart(style, more[0])
    requires SyntaxOk(v, style.BlockMap?, style.BlockMap?, handles)
    ensures var ts := Tokens(v) + more;
            ts != [] && ((EndsPart(style, ts[0]) || (style.BlockMap? && ts[0].Value?)) <==> v == NOTHING)
  {
    hide SyntaxOk, Tokens;
    if v == NOTHING {
      NothingIsNoTokens();
      assert [] + more == more;
    } else {
      TokensBegin(v, style.BlockMap?, style.BlockMap?, handles);
    }
  }

  /** A `:`, and whether anything stands after it. */
  lemma ColonStep(m: Machine, style: Style)
    requires style.BlockMap? || Flow(style)
    requires |m.rest| > 1 && m.rest[0].Value?
    ensures StepValue(m, style)
         == NodeOrEmpty(m.(rest := m.rest[1..]), EndsPart(style, m.rest[1]) || (style.BlockMap? && m.rest[1].Value?),
                        AfterValue(style), style.BlockMap?, style.BlockMap?)
  {
    hide NodeOrEmpty;
    assert m.rest[1..][0] == m.rest[1];
  }

  lemma NoValueStep(m: Machine, style: Style)
    requires style.BlockMap? || Flow(style)
    requires m.rest != [] && EndsPart(style, m.rest[0])
    ensures StepValue(m, style) == Ok(Emitted(EMPTY_SCALAR, m.(state := Some(AfterValue(style)))))
  {
    hide NodeOrEmpty;
  }

  /** A value, where a `:` brings one, up to what may follow it. */
  lemma {:induction false} ValueRuns(m: Machine, style: Style, value: Option<Syntax>, more: seq<Tok>)
    requires style.BlockMap? || Flow(style)
    requires m.rest == ValueTokens(value) + more
    requires more != [] && EndsPart(style, more[0])
    requires ValueOk(value, style.BlockMap?, style.BlockMap?, m.handles)
    ensures Leads(StepValue(m, style), Events(ValueOf(value, m.handles)), m.(state := Some(AfterValue(style)), rest := more))
    decreases value, 4
  {
    hide Step, Leads, StepValue, NodeOrEmpty, Tokens;
    match value
    case None =>
      assert m.rest == more;
      NoValueStep(m, style);
      OneEvent(EMPTY_SCALAR, m.(state := Some(AfterValue(style))));
    case Some(v) =>
      ValueStep(m, style, v, more);
      SlotRuns(m.(rest := Tokens(v) + more), v, AfterValue(style), style.BlockMap?, style.BlockMap?, more);
  }

  /** Whether the token in front shows the key to be missing. */
  predicate KeyAbsent(style: Style, t: Tok) {
    t.Value? || EndsPart(style, t)
  }

  lemma KeyAbsentIff(style: Style, p: Part, more: seq<Tok>, handles: map<string, string>)
    requires style.BlockMap? || Flow(style)
    requires p.Couple? && PartOk(style, p, handles)
    requires more != [] && EndsPart(style, more[0])
    ensures var ts := Tokens(p.key) + (ValueTokens(p.value) + more);
            ts != [] && (KeyAbsent(style, ts[0]) <==> p.key == NOTHING)
  {
    if p.key == NOTHING {
      assert Tokens(p.key) + (ValueTokens(p.value) + more) == ValueTokens(p.value) + more;
    } else {
      TokensBegin(p.key, style.BlockMap?, style.BlockMap?, handles);
    }
  }

  lemma CoupleTokens(style: Style, p: Part, more: seq<Tok>)
    requires p.Couple?
    ensures PartTokens(style, p) + more == [Tok.Key] + (Tokens(p.key) + (ValueTokens(p.value) + more))
  {
    hide Tokens, ValueTokens;
  }

  /** A key, once the token that announces it is taken, and its value. */
  lemma {:induction false} CoupleRuns(m: Machine, style: Style, p: Part, more: seq<Tok>)
    requires style.BlockMap? || Flow(style)
    requires p.Couple? && PartOk(style, p, m.handles)
    requires m.rest == Tokens(p.key) + (ValueTokens(p.value) + more)
    requires more != [] && EndsPart(style, more[0])
    ensures Leads(NodeOrEmpty(m, p.key == NOTHING, AfterKey(style), style.BlockMap?, style.BlockMap?),
                  OnePairEvents(PairOf(p, m.handles)), m.(state := Some(AfterValue(style)), rest := more))
    decreases p, 0
  {
    hide Step, StepValue, AfterKey, AfterValue, NodeOrEmpty, Leads, Emits, Events, Tokens, NodeOf;
    var Couple(key, value) := p;
    var tail := ValueTokens(value) + more;
    SlotRuns(m, key, AfterKey(style), style.BlockMap?, style.BlockMap?, tail);
    var m1 := m.(state := Some(AfterKey(style)), rest := tail);
    ValueRuns(m1, style, value, more);
    StepIsValue(m1, style);
    var last := m.(state := Some(AfterValue(style)), rest := more);
    LeadsEmits(m1, AfterKey(style), Events(ValueOf(value, m.handles)), last);
    LeadsConcat(NodeOrEmpty(m, key == NOTHING, AfterKey(style), style.BlockMap?, style.BlockMap?),
                Events(NodeOf(key, m.handles)), m1, Events(ValueOf(value, m.handles)), last);
  }

  lemma {:induction false} BlockCoupleRuns(m: Machine, p: Part, more: seq<Tok>)
    requires m.rest == PartTokens(BlockMap, p) + more
    requires PartOk(BlockMap, p, m.handles)
    requires more != [] && EndsPart(BlockMap, more[0])
    ensures Leads(StepBlockMappingKey(m), OnePairEvents(PairOf(p, m.handles)), m.(state := Some(BlockMappingKey), rest := more))
    decreases p, 3
  {
    hide Step, ParseNode, NodeOrEmpty, Leads, Tokens, ValueTokens, PartTokens;
    CoupleTokens(BlockMap, p, more);
    KeyAbsentIff(BlockMap, p, more, m.handles);
    var m1 := m.(rest := Tokens(p.key) + (ValueTokens(p.value) + more));
    assert m.rest[1..] == m1.rest;
    assert StepBlockMappingKey(m) == NodeOrEmpty(m1, p.key == NOTHING, BlockMappingValue, true, true);
    CoupleRuns(m1, BlockMap, p, more);
  }

  /** A `key: value` inside a flow sequence is a mapping of its own. */
  lemma {:induction false} PairRuns(m: Machine, p: Part, more: seq<Tok>)
    requires p.Couple? && PartOk(FlowSeq, p, m.handles)
    requires m.rest == PartTokens(FlowSeq, p) + more
    requires more != [] && EndsPart(FlowSeq, more[0])
    ensures Leads(Ok(Emitted(Event.MappingStart(None, None), m.(state := Some(FlowSequenceEntryMappingKey)))),
                  Events(ItemOf(p, m.handles)), m.(state := Some(FlowSequenceEntry), rest := more))
    decreases p, 1
  {
    hide Step, Leads, Emits, NodeOrEmpty, Tokens, ValueTokens, PartTokens, OnePairEvents, PairOf;
    CoupleTokens(FlowSeq, p, more);
    KeyAbsentIff(FlowSeq, p, more, m.handles);
    var m0 := m.(state := Some(FlowSequenceEntryMappingKey));
    var m1 := m0.(rest := Tokens(p.key) + (ValueTokens(p.value) + more));
    assert m.rest[1..] == m1.rest;
    var r := NodeOrEmpty(m1, p.key == NOTHING, FlowSequenceEntryMappingValue, false, false);
    assert StepFlowSequenceEntryMappingKey(m0) == r;
    CoupleRuns(m1, FlowSeq, p, more);
    var m2 := m.(state := Some(FlowSequenceEntryMappingEnd), rest := more);
    var m3 := m.(state := Some(FlowSequenceEntry), rest := more);
    PairStates(m0, m2);
    OneEvent(Event.MappingEnd, m3);
    LeadsEmits(m2, FlowSequenceEntryMappingEnd, [Event.MappingEnd], m3);
    var es := OnePairEvents(PairOf(p, m.handles));
    LeadsConcat(r, es, m2, [Event.MappingEnd], m3);
    LeadsEmits(m0, FlowSequenceEntryMappingKey, es + [Event.MappingEnd], m3);
    StartLeads(Event.MappingStart(None, None), m0, es + [Event.MappingEnd], m3);
    PairItemEvents(p, m.handles);
  }

  lemma PairStates(m0: Machine, m2: Machine)
    ensures Step(m0, FlowSequenceEntryMappingKey) == StepFlowSequenceEntryMappingKey(m0)
    ensures Step(m2, FlowSequenceEntryMappingEnd) == Ok(Emitted(Event.MappingEnd, m2.(state := Some(FlowSequenceEntry))))
  {
    hide StepFlowSequenceEntryMappingKey;
  }

  lemma PairItemEvents(p: Part, handles: map<string, string>)
    requires p.Couple?
    ensures Events(ItemOf(p, handles)) == [Event.MappingStart(None, None)] + (OnePairEvents(PairOf(p, handles)) + [Event.MappingEnd])
  {
    hide PairOf, OnePairEvents;
    var pairs := [PairOf(p, handles)];
    assert pairs[1..] == [] && PairEvents(pairs) == OnePairEvents(PairOf(p, handles));
  }

  lemma {:induction false} FlowItemRuns(m: Machine, p: Part, first: bool, more: seq<Tok>)
    requires PartOk(FlowSeq, p, m.handles)
    requires m.rest == CommaTokens(!first) + (PartTokens(FlowSeq, p) + more)
    requires more != [] && EndsPart(FlowSeq, more[0])
    ensures Leads(StepFlowSequenceEntry(m, first), Events(ItemOf(p, m.handles)), m.(state := Some(FlowSequenceEntry), rest := more))
    decreases p, 2
  {
    hide Step, ParseNode, Leads, Events, Tokens, PartTokens;
    var m1 := m.(rest := PartTokens(FlowSeq, p) + more);
    FlowItemStep(m, m1, p, first, more);
    if p.Item? {
      var pushed := Pushed(m1, FlowSequenceEntry);
      NodeRuns(pushed, p.node, false, false, more);
      assert pushed.states[..|pushed.states| - 1] == m.states;
    } else {
      PairRuns(m1, p, more);
    }
  }

  lemma FlowItemStep(m: Machine, m1: Machine, p: Part, first: bool, more: seq<Tok>)
    requires PartOk(FlowSeq, p, m.handles)
    requires m.rest == CommaTokens(!first) + m1.rest
    requires m1 == m.(rest := PartTokens(FlowSeq, p) + more)
    ensures p.Item? ==> m1.rest == Tokens(p.node) + more
    ensures StepFlowSequenceEntry(m, first)
         == if p.Item? then ParseNode(Pushed(m1, FlowSequenceEntry), false, false)
            else Ok(Emitted(Event.MappingStart(None, None), m1.(state := Some(FlowSequenceEntryMappingKey))))
  {
    hide ParseNode;
    assert m.rest[|CommaTokens(!first)|..] == m1.rest;
    if p.Item? {
      TokensBegin(p.node, false, false, m.handles);
      hide Tokens;
      assert PartTokens(FlowSeq, p) == Tokens(p.node);
    }
  }

  lemma {:induction false} FlowPairRuns(m: Machine, p: Part, first: bool, more: seq<Tok>)
    requires PartOk(FlowMap, p, m.handles)
    requires m.rest == CommaTokens(!first) + (PartTokens(FlowMap, p) + more)
    requires more != [] && EndsPart(FlowMap, more[0])
    ensures Leads(StepFlowMappingKey(m, first), OnePairEvents(PairOf(p, m.handles)), m.(state := Some(FlowMappingKey), rest := more))
    decreases p, 2
  {
    hide Step, ParseNode, NodeOrEmpty, Leads, Emits, Events, Tokens, PartTokens;
    var m1 := m.(rest := PartTokens(FlowMap, p) + more);
    var done := m.(state := Some(FlowMappingKey), rest := more);
    FlowPairStep(m, m1, p, first, more);
    if p.Item? {
      var pushed := Pushed(m1, FlowMappingEmptyValue);
      NodeRuns(pushed, p.node, false, false, more);
      assert pushed.states[..|pushed.states| - 1] == m.states;
      var m2 := m.(state := Some(FlowMappingEmptyValue), rest := more);
      EmptyValueStep(m2);
      OneEvent(EMPTY_SCALAR, done);
      LeadsEmits(m2, FlowMappingEmptyValue, [EMPTY_SCALAR], done);
      LeadsConcat(StepFlowMappingKey(m, first), Events(NodeOf(p.node, m.handles)), m2, [EMPTY_SCALAR], done);
      NullEvents();
    } else {
      CoupleRuns(m1.(rest := Tokens(p.key) + (ValueTokens(p.value) + more)), FlowMap, p, more);
    }
  }

  lemma EmptyValueStep(m: Machine)
    ensures Step(m, FlowMappingEmptyValue) == Ok(Emitted(EMPTY_SCALAR, m.(state := Some(FlowMappingKey))))
  {
  }

  lemma NullEvents()
    ensures Events(NULL_NODE) == [EMPTY_SCALAR]
  {
  }

  lemma FlowPairStep(m: Machine, m1: Machine, p: Part, first: bool, more: seq<Tok>)
    requires PartOk(FlowMap, p, m.handles)
    requires m.rest == CommaTokens(!first) + m1.rest
    requires m1 == m.(rest := PartTokens(FlowMap, p) + more)
    requires more != [] && EndsPart(FlowMap, more[0])
    ensures p.Item? ==> m1.rest == Tokens(p.node) + more
    ensures StepFlowMappingKey(m, first)
         == if p.Item? then ParseNode(Pushed(m1, FlowMappingEmptyValue), false, false)
            else NodeOrEmpty(m1.(rest := Tokens(p.key) + (ValueTokens(p.value) + more)), p.key == NOTHING, FlowMappingValue, false, false)
  {
    hide ParseNode, NodeOrEmpty, StepFlowMappingKey, EndsPart;
    assert m1.rest != [] && !m1.rest[0].FlowEntry? && !m1.rest[0].FlowMappingEnd? && (m1.rest[0].Key? <==> p.Couple?) by {
      if p.Item? {
        TokensBegin(p.node, false, false, m.handles);
        hide Tokens;
        assert m1.rest == Tokens(p.node) + more;
      }
    }
    FlowKeyStep(m, m1, first);
    if p.Item? {
      assert PartTokens(FlowMap, p) == Tokens(p.node);
    } else {
      hide Tokens, ValueTokens, PartTokens;
      CoupleTokens(FlowMap, p, more);
      KeyAbsentIff(FlowMap, p, more, m.handles);
      var ts := Tokens(p.key) + (ValueTokens(p.value) + more);
      assert m1.rest[1..] == ts;
      FlowKeyAbsent(ts[0]);
    }
  }

  lemma FlowKeyAbsent(t: Tok)
    ensures KeyAbsent(FlowMap, t) <==> t.Value? || t.FlowEntry? || t.FlowMappingEnd?
  {
  }

  /** A flow mapping past the `,` before its next entry. */
  lemma FlowKeyStep(m: Machine, m1: Machine, first: bool)
    requires m.rest == CommaTokens(!first) + m1.rest && m1 == m.(rest := m1.rest)
    requires m1.rest != [] && !m1.rest[0].FlowEntry? && !m1.rest[0].FlowMappingEnd?
    ensures m1.rest[0].Key? && m1.rest[1..] != [] ==>
              var m2 := m1.(rest := m1.rest[1..]);
              StepFlowMappingKey(m, first)
              == NodeOrEmpty(m2, m2.rest[0].Value? || m2.rest[0].FlowEntry? || m2.rest[0].FlowMappingEnd?, FlowMappingValue, false, false)
    ensures !m1.rest[0].Key? ==> StepFlowMappingKey(m, first) == ParseNode(Pushed(m1, FlowMappingEmptyValue), false, false)
  {
    hide ParseNode, NodeOrEmpty;
    assert m.rest[|CommaTokens(!first)|..] == m1.rest;
  }

  // --- documents

  lemma {:induction false} EndsSkipped(m: Machine, ends: nat, more: seq<Tok>)
    requires m.rest == EndTokens(ends) + more
    requires more != [] && !more[0].DocumentEnd?
    ensures SkipDocumentEnds(m) == m.(rest := more)
    decreases ends
  {
    if ends == 0 {
      assert m.rest == more;
    } else {
      var m1 := m.(rest := m.rest[1..]);
      assert m1.rest == EndTokens(ends - 1) + more;
      EndsSkipped(m1, ends - 1, more);
    }
  }

  lemma {:induction false} DirectivesRun(m: Machine, ds: seq<Directive>, version: bool, more: seq<Tok>)
    requires m.rest == DirectiveTokens(ds) + more
    requires more != [] && !more[0].DirectiveTok?
    requires DirectivesOk(ds, m.handles, version)
    ensures TakeDirectives(m, version) == Ok(m.(rest := more, handles := Declared(ds, m.handles)))
    decreases |ds|
  {
    if ds == [] {
      assert m.rest == more;
    } else {
      assert m.rest[1..] == DirectiveTokens(ds[1..]) + more;
      var m1 := m.(rest := m.rest[1..]);
      match ds[0]
      case YamlDirective(_) => DirectivesRun(m1, ds[1..], true, more);
      case TagDirective(h, p) => DirectivesRun(m1.(handles := m.handles[h := p]), ds[1..], version, more);
      case OtherDirective => DirectivesRun(m1, ds[1..], version, more);
    }
  }

  /** The `---` of a document and the directives before it. */
  lemma HeaderRuns(m: Machine, ends: nat, ds: seq<Directive>, more: seq<Tok>)
    requires m.rest == EndTokens(ends) + (HeaderTokens(Some(ds)) + more)
    requires DirectivesOk(ds, map[], false)
    ensures StepDocumentStart(m)
         == Ok(Emitted(Event.DocumentStart,
                       m.(rest := more, handles := HandlesOf(Some(ds)), states := m.states + [DocumentEndState], state := Some(DocumentContent))))
  {
    hide SkipDocumentEnds, TakeDirectives, EndTokens;
    var header := HeaderTokens(Some(ds)) + more;
    assert !header[0].DocumentEnd? && !header[0].StreamEnd?;
    EndsSkipped(m, ends, header);
    assert header == DirectiveTokens(ds) + ([Tok.DocumentStart] + more);
    DirectivesRun(m.(rest := header, handles := map[]), ds, false, [Tok.DocumentStart] + more);
    assert ([Tok.DocumentStart] + more)[1..] == more;
  }

  predicate EndsRoot(t: Tok) {
    t.DirectiveTok? || t.DocumentStart? || t.DocumentEnd? || t.StreamEnd?
  }

  lemma DocumentStates(m: Machine)
    ensures Step(m, DocumentContent) == StepDocumentContent(m)
    ensures Step(m, BlockNode) == ParseNode(m, true, false)
    ensures Step(m, DocumentEndState) == StepDocumentEnd(m)
    ensures Step(m, DocumentStartState) == StepDocumentStart(m)
    ensures Step(m, ImplicitDocumentStart) == StepImplicitDocumentStart(m)
    ensures Step(m, StreamStartState) == StepStreamStart(m)
  {
    hide StepDocumentContent, ParseNode, StepDocumentEnd, StepDocumentStart, StepImplicitDocumentStart, StepStreamStart;
  }

  /** The root of a document, from the step that begins it up to its `...`. */
  lemma RootRuns(m: Machine, d: Doc, more: seq<Tok>)
    requires m.rest == Tokens(d.root) + more
    requires more != [] && EndsRoot(more[0])
    requires m.handles == HandlesOf(d.header) && DocOk(d, d.header.None?)
    requires m.states == [DocumentEndState]
    requires m.state == Some(if d.header.None? then BlockNode else DocumentContent)
    ensures Emits(m, Events(NodeOf(d.root, m.handles)), m.(state := Some(DocumentEndState), states := [], rest := more))
  {
    hide Step, ParseNode, Leads, Emits, Events, NodeOf, SyntaxOk, Tokens;
    var last := m.(state := Some(DocumentEndState), states := [], rest := more);
    DocumentStates(m);
    if d.root == NOTHING {
      assert Tokens(d.root) == [] by { NothingIsNoTokens(); }
      assert m.rest == more;
      OneEvent(EMPTY_SCALAR, last);
      NullEvents();
      NothingIsNull(m.handles);
    } else {
      TokensBegin(d.root, true, false, m.handles);
      NodeRuns(m, d.root, true, false, more);
    }
    LeadsEmits(m, m.state.value, Events(NodeOf(d.root, m.handles)), last);
  }

  lemma NothingIsNoTokens()
    ensures Tokens(NOTHING) == []
  {
  }

  lemma NothingIsNull(handles: map<string, string>)
    ensures NodeOf(NOTHING, handles) == NULL_NODE
  {
  }

  /** The `...` lines after a document: one is taken with it, the others with what comes next. */
  lemma DocumentEndRuns(m: Machine, ends: nat, more: seq<Tok>)
    requires m.rest == EndTokens(ends) + more
    requires more != [] && !more[0].DocumentEnd?
    requires m.state == Some(DocumentEndState)
    ensures Emits(m, [Event.DocumentEnd],
                  m.(state := Some(DocumentStartState), rest := EndTokens(if ends == 0 then 0 else ends - 1) + more))
  {
    hide Step;
    DocumentStates(m);
    var last := m.(state := Some(DocumentStartState), rest := EndTokens(if ends == 0 then 0 else ends - 1) + more);
    if ends == 0 {
      assert m.rest == more == last.rest;
    } else {
      assert m.rest[1..] == last.rest;
    }
    OneEvent(Event.DocumentEnd, last);
    LeadsEmits(m, DocumentEndState, [Event.DocumentEnd], last);
  }

  predicate EndsDocs(ts: seq<Tok>) {
    ts != [] && (ts[0].DirectiveTok? || ts[0].DocumentStart? || ts[0].StreamEnd?)
  }

  lemma DocsBegin(docs: seq<Doc>, more: seq<Tok>)
    requires forall i :: 0 <= i < |docs| ==> docs[i].header.Some?
    ensures EndsDocs(DocsTokens(docs) + ([Tok.StreamEnd] + more))
  {
  }

  /** The first document's tokens, and those of the rest of the stream. */
  lemma DocsHead(docs: seq<Doc>, more: seq<Tok>)
    requires docs != []
    ensures DocsTokens(docs) + ([Tok.StreamEnd] + more)
         == HeaderTokens(docs[0].header)
          + (Tokens(docs[0].root) + (EndTokens(docs[0].ends) + (DocsTokens(docs[1..]) + ([Tok.StreamEnd] + more))))
  {
    DocTokensIs(docs[0], DocsTokens(docs[1..]) + ([Tok.StreamEnd] + more));
    hide DocTokens, HeaderTokens, Tokens, EndTokens;
    var first, rest := DocTokens(docs[0]), DocsTokens(docs[1..]);
    assert DocsTokens(docs) == first + rest;
    assert first + rest + ([Tok.StreamEnd] + more) == first + (rest + ([Tok.StreamEnd] + more));
  }

  /** Its events, and those of the rest. */
  lemma DocsEventsHead(docs: seq<Doc>, body: seq<Event>)
    requires docs != [] && body == Events(NodeOf(docs[0].root, HandlesOf(docs[0].header))) + [Event.DocumentEnd]
    ensures DocumentEvents(DocNodes(docs)) + [Event.StreamEnd]
         == [Event.DocumentStart] + (body + (DocumentEvents(DocNodes(docs[1..])) + [Event.StreamEnd]))
    ensures DocumentEvents(DocNodes([])) + [Event.StreamEnd] == [Event.StreamEnd]
  {
    hide Events, NodeOf, HandlesOf;
    var nodes, rest := DocNodes(docs), DocNodes(docs[1..]);
    assert nodes[1..] == rest;
    var tail := DocumentEvents(rest);
    assert DocumentEvents(nodes) == [Event.DocumentStart] + Events(nodes[0]) + [Event.DocumentEnd] + tail;
    hide DocumentEvents, DocNodes;
    Regroup([Event.DocumentStart], Events(nodes[0]), [Event.DocumentEnd], tail, [Event.StreamEnd]);
  }

  lemma Regroup(a: seq<Event>, b: seq<Event>, c: seq<Event>, d: seq<Event>, e: seq<Event>)
    ensures a + b + c + d + e == a + ((b + c) + (d + e))
  {
  }

  /** The documents that are left, all of them explicit, and the end of the stream. */
  lemma {:induction false} DocsRun(m: Machine, s: State, ends: nat, docs: seq<Doc>, more: seq<Tok>) returns (last: Machine)
    requires m.rest == EndTokens(ends) + (DocsTokens(docs) + ([Tok.StreamEnd] + more))
    requires m.state == Some(s) && m.states == []
    requires s == DocumentStartState || (s == ImplicitDocumentStart && ends == 0)
    requires forall i :: 0 <= i < |docs| ==> docs[i].header.Some? && DocOk(docs[i], false)
    ensures Emits(m, DocumentEvents(DocNodes(docs)) + [Event.StreamEnd], last)
    ensures last.state.None? && last.rest == more
    decreases |docs|
  {
    hide Step, StepDocumentStart, DocOk, DocTokens, EndTokens, HeaderTokens, Tokens, NodeOf, HandlesOf, Events, Emits, Leads;
    var rest := DocsTokens(docs) + ([Tok.StreamEnd] + more);
    DocsBegin(docs, more);
    StartIsDocumentStart(m, s, ends, rest);
    if docs == [] {
      last := m.(state := None, rest := more);
      StreamEndStep(m, ends, more);
      OneEvent(Event.StreamEnd, last);
      LeadsEmits(m, s, [Event.StreamEnd], last);
      assert DocumentEvents(DocNodes(docs)) + [Event.StreamEnd] == [Event.StreamEnd];
    } else {
      var d := docs[0];
      var after := DocsTokens(docs[1..]) + ([Tok.StreamEnd] + more);
      DocsHead(docs, more);
      hide DocsTokens, DocNodes, DocumentEvents;
      var tail := Tokens(d.root) + (EndTokens(d.ends) + after);
      assert m.rest == EndTokens(ends) + (HeaderTokens(d.header) + tail);
      DocOkHeader(d);
      HeaderRuns(m, ends, d.header.value, tail);
      var m1 := m.(rest := tail, handles := HandlesOf(d.header), states := [DocumentEndState], state := Some(DocumentContent));
      assert m.states + [DocumentEndState] == [DocumentEndState];
      DocsBegin(docs[1..], more);
      var body := DocBody(m1, d, after);
      var m2 := m1.(state := Some(DocumentStartState), states := [], rest := EndTokens(if d.ends == 0 then 0 else d.ends - 1) + after);
      last := DocsRun(m2, DocumentStartState, if d.ends == 0 then 0 else d.ends - 1, docs[1..], more);
      var tailEvents := DocumentEvents(DocNodes(docs[1..])) + [Event.StreamEnd];
      EmitsConcat(m1, body, m2, tailEvents, last);
      StartLeads(Event.DocumentStart, m1, body + tailEvents, last);
      LeadsEmits(m, s, [Event.DocumentStart] + (body + tailEvents), last);
      DocsEventsHead(docs, body);
    }
  }

  lemma DocTokensIs(d: Doc, more: seq<Tok>)
    ensures DocTokens(d) + more == HeaderTokens(d.header) + (Tokens(d.root) + (EndTokens(d.ends) + more))
  {
    hide HeaderTokens, Tokens, EndTokens;
  }

  lemma DocOkHeader(d: Doc)
    requires DocOk(d, false)
    ensures d.header.Some? && DirectivesOk(d.header.value, map[], false) && DocOk(d, d.header.None?)
  {
    hide SyntaxOk;
  }

  /** A document's events once its start is emitted. */
  lemma DocBody(m: Machine, d: Doc, more: seq<Tok>) returns (es: seq<Event>)
    requires m.rest == Tokens(d.root) + (EndTokens(d.ends) + more)
    requires EndsDocs(more)
    requires m.handles == HandlesOf(d.header) && DocOk(d, d.header.None?)
    requires m.states == [DocumentEndState]
    requires m.state == Some(if d.header.None? then BlockNode else DocumentContent)
    ensures es == Events(NodeOf(d.root, m.handles)) + [Event.DocumentEnd]
    ensures Emits(m, es, m.(state := Some(DocumentStartState), states := [],
                            rest := EndTokens(if d.ends == 0 then 0 else d.ends - 1) + more))
  {
    hide Step, Emits, DocOk, Events, NodeOf, Tokens;
    var tail := EndTokens(d.ends) + more;
    RootRuns(m, d, tail);
    var m1 := m.(state := Some(DocumentEndState), states := [], rest := tail);
    DocumentEndRuns(m1, d.ends, more);
    var last := m.(state := Some(DocumentStartState), states := [], rest := EndTokens(if d.ends == 0 then 0 else d.ends - 1) + more);
    EmitsConcat(m, Events(NodeOf(d.root, m.handles)), m1, [Event.DocumentEnd], last);
    es := Events(NodeOf(d.root, m.handles)) + [Event.DocumentEnd];
  }

  lemma StreamEndStep(m: Machine, ends: nat, more: seq<Tok>)
    requires m.rest == EndTokens(ends) + (DocsTokens([]) + ([Tok.StreamEnd] + more))
    ensures StepDocumentStart(m) == Ok(Emitted(Event.StreamEnd, m.(state := None, rest := more)))
  {
    hide TakeDirectives;
    var tail := [Tok.StreamEnd] + more;
    assert DocsTokens([]) + tail == tail && tail[1..] == more;
    EndsSkipped(m, ends, tail);
  }

  lemma StartIsDocumentStart(m: Machine, s: State, ends: nat, rest: seq<Tok>)
    requires s == DocumentStartState || (s == ImplicitDocumentStart && ends == 0)
    requires m.rest == EndTokens(ends) + rest && EndsDocs(rest)
    ensures Step(m, s) == StepDocumentStart(m)
  {
    hide Step, StepDocumentStart;
    DocumentStates(m);
    if ends == 0 {
      assert m.rest == rest;
    }
  }

  /** Any stream of grammatical documents is accepted, whatever token stands
      for its start and whatever follows its end, and the events are those of
      the nodes the documents stand for. */
  lemma EveryStreamIsRead(first: Tok, docs: seq<Doc>, rest: seq<Tok>, broken: bool)
    requires DocsOk(docs)
    ensures Accepts([first] + DocsTokens(docs) + [Tok.StreamEnd] + rest, broken, StreamEvents(DocNodes(docs)), rest)
  {
    hide Step, DocOk, DocTokens, Emits, Events, NodeOf, Tokens, HandlesOf, SyntaxOk;
    var tail := DocsTokens(docs) + ([Tok.StreamEnd] + rest);
    var tokens := [first] + DocsTokens(docs) + [Tok.StreamEnd] + rest;
    assert tokens == [first] + tail && tokens[1..] == tail;
    var m := Start(tokens, broken);
    var m1 := m.(state := Some(ImplicitDocumentStart), rest := tail);
    DocumentStates(m);
    var es := DocumentEvents(DocNodes(docs)) + [Event.StreamEnd];
    var last: Machine;
    if docs == [] || docs[0].header.Some? {
      assert forall i :: 0 <= i < |docs| ==> docs[i].header.Some? && DocOk(docs[i], false) by { ExplicitDocs(docs); }
      assert EndTokens(0) + tail == tail;
      last := DocsRun(m1, ImplicitDocumentStart, 0, docs, rest);
    } else {
      last := ImplicitRuns(m1, docs, rest);
    }
    StartLeads(Event.StreamStart, m1, es, last);
    LeadsEmits(m, StreamStartState, [Event.StreamStart] + es, last);
    assert [Event.StreamStart] + es == StreamEvents(DocNodes(docs));
  }

  lemma ExplicitDocs(docs: seq<Doc>)
    requires DocsOk(docs) && (docs == [] || docs[0].header.Some?)
    ensures forall i :: 0 <= i < |docs| ==> docs[i].header.Some? && DocOk(docs[i], false)
  {
    hide SyntaxOk, HeaderOk, HandlesOf;
  }

  lemma ImplicitDocs(docs: seq<Doc>)
    requires DocsOk(docs) && docs != [] && docs[0].header.None?
    ensures docs[0].root != NOTHING && SyntaxOk(docs[0].root, true, false, DEFAULT_TAGS) && DocOk(docs[0], true)
    ensures forall i :: 0 <= i < |docs[1..]| ==> docs[1..][i].header.Some? && DocOk(docs[1..][i], false)
  {
    hide SyntaxOk, HeaderOk;
    forall i | 0 <= i < |docs[1..]| ensures docs[1..][i].header.Some? && DocOk(docs[1..][i], false) {
      assert docs[1..][i] == docs[i + 1];
    }
  }

  lemma ImplicitRuns(m: Machine, docs: seq<Doc>, more: seq<Tok>) returns (last: Machine)
    requires m.rest == DocsTokens(docs) + ([Tok.StreamEnd] + more)
    requires m.state == Some(ImplicitDocumentStart) && m.states == []
    requires DocsOk(docs) && docs != [] && docs[0].header.None?
    ensures Emits(m, DocumentEvents(DocNodes(docs)) + [Event.StreamEnd], last)
    ensures last.state.None? && last.rest == more
  {
    hide Step, StepDocumentStart, DocOk, DocTokens, EndTokens, Tokens, NodeOf, Events, Emits, Leads, SyntaxOk;
    var d := docs[0];
    ImplicitDocs(docs);
    var after := DocsTokens(docs[1..]) + ([Tok.StreamEnd] + more);
    DocsHead(docs, more);
    hide DocsTokens, DocNodes, DocumentEvents;
    var tail := Tokens(d.root) + (EndTokens(d.ends) + after);
    assert HeaderTokens(d.header) + tail == tail;
    assert m.rest == tail;
    TokensBegin(d.root, true, false, DEFAULT_TAGS);
    DocumentStates(m);
    var m1 := m.(handles := DEFAULT_TAGS, states := [DocumentEndState], state := Some(BlockNode));
    assert m.states + [DocumentEndState] == [DocumentEndState];
    assert Step(m, ImplicitDocumentStart) == Ok(Emitted(Event.DocumentStart, m1));
    DocsBegin(docs[1..], more);
    var body := DocBody(m1, d, after);
    var ends := if d.ends == 0 then 0 else d.ends - 1;
    var m2 := m1.(state := Some(DocumentStartState), states := [], rest := EndTokens(ends) + after);
    last := DocsRun(m2, DocumentStartState, ends, docs[1..], more);
    var tailEvents := DocumentEvents(DocNodes(docs[1..])) + [Event.StreamEnd];
    EmitsConcat(m1, body, m2, tailEvents, last);
    StartLeads(Event.DocumentStart, m1, body + tailEvents, last);
    LeadsEmits(m, ImplicitDocumentStart, [Event.DocumentStart] + (body + tailEvents), last);
    DocsEventsHead(docs, body);
  }
}
