/** Whatever the tokens, a run of the parser reads a grammatical stream: at
    every step the tokens taken so far are those of a syntax tree under
    construction, and the events emitted so far are those of its nodes. */
module YamlSoundness {
  import opened Results
  import opened YamlTree
  import opened YamlTokens
  import opened YamlParser
  import opened YamlSyntax
  import opened YamlCompleteness

  /** What a collection is in the middle of. */
  datatype Pending =
    | Idle
    | AwaitItem
    | AwaitKey
    | HaveKey(key: Syntax)
    | AwaitValue(key: Syntax)
    | OpenPair                  // in a flow sequence, before the key of a pair
    | HavePair(couple: Part)    // and after its value
    | HaveBare(node: Syntax)    // in a flow mapping, after a key with no `:`

  /** A collection whose end has not been read; `begun` once its start token is taken. */
  datatype Frame = Frame(style: Style, props: Props, begun: bool, parts: seq<Part>, pending: Pending)

  /** A document under construction: its root when complete, or the collections
      still open, outermost first. */
  datatype Inner = Inner(root: Option<Syntax>, frames: seq<Frame>)

  // --- the tokens and events of what is built so far

  function Separator(f: Frame): seq<Tok> {
    CommaTokens(Flow(f.style) && f.parts != [])
  }

  function PendingTokens(f: Frame): seq<Tok> {
    match f.pending
    case Idle => []
    case AwaitItem => Separator(f) + Dash(f.style)
    case AwaitKey => Separator(f) + [Tok.Key]
    case HaveKey(k) => Separator(f) + [Tok.Key] + Tokens(k)
    case AwaitValue(k) => Separator(f) + [Tok.Key] + Tokens(k) + [Tok.Value]
    case OpenPair => Separator(f)
    case HavePair(c) => Separator(f) + PartTokens(f.style, c)
    case HaveBare(n) => Separator(f) + Tokens(n)
  }

  function FrameTokens(f: Frame): seq<Tok> {
    PropTokens(f.props) + (if f.begun then OpenTokens(f.style) else []) + PartsTokens(f.style, f.parts, true) + PendingTokens(f)
  }

  function FramesTokens(frames: seq<Frame>): seq<Tok> {
    if frames == [] then []
    else FramesTokens(frames[..|frames| - 1]) + FrameTokens(frames[|frames| - 1])
  }

  function RootTokens(root: Option<Syntax>): seq<Tok> {
    match root
    case None => []
    case Some(s) => Tokens(s)
  }

  function InnerTokens(i: Inner): seq<Tok> {
    RootTokens(i.root) + FramesTokens(i.frames)
  }

  function PairStart(style: Style): seq<Event> {
    if style.FlowSeq? then [Event.MappingStart(None, None)] else []
  }

  function PendingEvents(f: Frame, handles: map<string, string>): seq<Event> {
    match f.pending
    case Idle => []
    case AwaitItem => []
    case AwaitKey => PairStart(f.style)
    case HaveKey(k) => PairStart(f.style) + Events(NodeOf(k, handles))
    case AwaitValue(k) => PairStart(f.style) + Events(NodeOf(k, handles))
    case OpenPair => PairStart(f.style)
    case HavePair(c) => PairStart(f.style) + OnePairEvents(PairOf(c, handles))
    case HaveBare(n) => Events(NodeOf(n, handles))
  }

  function FrameStart(f: Frame, handles: map<string, string>): Event {
    CollStart(Coll(f.style, f.props, [], false), handles)
  }

  function FrameEvents(f: Frame, handles: map<string, string>): seq<Event> {
    [FrameStart(f, handles)] + BodyEvents(f.style, f.parts, handles) + PendingEvents(f, handles)
  }

  function FramesEvents(frames: seq<Frame>, handles: map<string, string>): seq<Event> {
    if frames == [] then []
    else FramesEvents(frames[..|frames| - 1], handles) + FrameEvents(frames[|frames| - 1], handles)
  }

  function RootEvents(root: Option<Syntax>, handles: map<string, string>): seq<Event> {
    match root
    case None => []
    case Some(s) => Events(NodeOf(s, handles))
  }

  function InnerEvents(i: Inner, handles: map<string, string>): seq<Event> {
    RootEvents(i.root, handles) + FramesEvents(i.frames, handles)
  }

  // --- a node put where one is awaited

  predicate CanFill(f: Frame) {
    f.begun && (f.pending.AwaitItem? || f.pending.AwaitKey? || f.pending.AwaitValue?)
  }

  function Fill(f: Frame, s: Syntax): Frame
    requires CanFill(f)
  {
    match f.pending
    case AwaitItem =>
      if f.style.FlowMap? then f.(pending := HaveBare(s)) else f.(parts := f.parts + [Item(s)], pending := Idle)
    case AwaitKey => f.(pending := HaveKey(s))
    case AwaitValue(k) => Valued(f, Couple(k, Some(s)))
  }

  /** A key with its value, or without one. */
  function Valued(f: Frame, c: Part): Frame {
    if f.style.FlowSeq? then f.(pending := HavePair(c)) else f.(parts := f.parts + [c], pending := Idle)
  }

  function Place(i: Inner, s: Syntax): Inner
    requires i.frames != [] ==> CanFill(Top(i))
  {
    if i.frames == [] then i.(root := Some(s)) else OnTop(i, Fill(Top(i), s))
  }

  function Top(i: Inner): Frame
    requires i.frames != []
  {
    i.frames[|i.frames| - 1]
  }

  function Below(i: Inner): Inner
    requires i.frames != []
  {
    i.(frames := i.frames[..|i.frames| - 1])
  }

  /** The innermost collection replaced. */
  function OnTop(i: Inner, f: Frame): Inner
    requires i.frames != []
  {
    i.(frames := i.frames[..|i.frames| - 1] + [f])
  }

  // --- how the parser's states and stack follow what is built

  /** Whether `s` is where the parser is when `f` is the innermost collection. */
  predicate At(s: State, f: Frame) {
    match s
    case BlockSequenceFirstEntry => f.style.BlockSeq? && !f.begun && f.parts == [] && f.pending.Idle?
    case BlockSequenceEntry => f.style.BlockSeq? && f.begun && f.pending.Idle?
    case IndentlessSequenceEntry => f.style.DashSeq? && f.begun && f.pending.Idle?
    case BlockMappingFirstKey => f.style.BlockMap? && !f.begun && f.parts == [] && f.pending.Idle?
    case BlockMappingKey => f.style.BlockMap? && f.begun && f.pending.Idle?
    case BlockMappingValue => f.style.BlockMap? && f.begun && f.pending.HaveKey?
    case FlowSequenceFirstEntry => f.style.FlowSeq? && !f.begun && f.parts == [] && f.pending.Idle?
    case FlowSequenceEntry => f.style.FlowSeq? && f.begun && f.parts != [] && f.pending.Idle?
    case FlowSequenceEntryMappingKey => f.style.FlowSeq? && f.begun && f.pending.OpenPair?
    case FlowSequenceEntryMappingValue => f.style.FlowSeq? && f.begun && f.pending.HaveKey?
    case FlowSequenceEntryMappingEnd => f.style.FlowSeq? && f.begun && f.pending.HavePair?
    case FlowMappingFirstKey => f.style.FlowMap? && !f.begun && f.parts == [] && f.pending.Idle?
    case FlowMappingKey => f.style.FlowMap? && f.begun && f.parts != [] && f.pending.Idle?
    case FlowMappingValue => f.style.FlowMap? && f.begun && f.pending.HaveKey?
    case FlowMappingEmptyValue => f.style.FlowMap? && f.begun && f.pending.HaveBare?
    case _ => false
  }

  /** The parser's stack holds, for the document and for every open collection
      awaiting a node, the state it comes back to once the node is there. */
  predicate Stacked(states: seq<State>, frames: seq<Frame>) {
    && |states| == |frames| + 1
    && states[0] == DocumentEndState
    && (forall k :: 0 <= k < |frames| ==> CanFill(frames[k]) && At(states[k + 1], Fill(frames[k], NOTHING)))
  }

  /** The token in front is the one that made the parser open the collection. */
  predicate Ahead(f: Frame, rest: seq<Tok>) {
    && (!f.begun ==> OpenTokens(f.style) <= rest)
    && (f.style.DashSeq? && f.parts == [] && f.pending.Idle? ==> rest != [] && rest[0].BlockEntry?)
    && (f.pending.OpenPair? ==> rest != [] && rest[0].Key?)
  }

  /** Whether a block collection, and a sequence at its parent's indentation,
      may stand in the k-th collection (or at the root, for k = 0). */
  predicate SlotBlock(frames: seq<Frame>, k: nat)
    requires k <= |frames|
  {
    k == 0 || !Flow(frames[k - 1].style)
  }

  predicate SlotIndentless(frames: seq<Frame>, k: nat)
    requires k <= |frames|
  {
    k > 0 && frames[k - 1].style.BlockMap?
  }

  predicate KeyOk(style: Style, k: Syntax, handles: map<string, string>) {
    PartOk(style, Couple(k, None), handles)
  }

  predicate FrameOk(f: Frame, handles: map<string, string>) {
    && PropsOk(f.props, handles)
    && PartsOk(f.style, f.parts, handles)
    && match f.pending
       case Idle => true
       case AwaitItem => !f.style.BlockMap?
       case AwaitKey => !f.style.BlockSeq? && !f.style.DashSeq?
       case HaveKey(k) => KeyOk(f.style, k, handles)
       case AwaitValue(k) => KeyOk(f.style, k, handles)
       case OpenPair => f.style.FlowSeq?
       case HavePair(c) => c.Couple? && PartOk(f.style, c, handles)
       case HaveBare(n) => PartOk(f.style, Item(n), handles)
  }

  predicate FramesOk(frames: seq<Frame>, handles: map<string, string>) {
    forall k :: 0 <= k < |frames| ==>
      FrameOk(frames[k], handles) && StyleOk(frames[k].style, SlotBlock(frames, k), SlotIndentless(frames, k))
  }

  /** The parser, about to read a node. */
  predicate Waits(m: Machine, i: Inner) {
    i.root.None? && FramesOk(i.frames, m.handles) && Stacked(m.states, i.frames)
  }

  /** The parser, in state `s` inside a document. */
  predicate Fits(m: Machine, s: State, i: Inner) {
    && FramesOk(i.frames, m.handles)
    && if s.DocumentEndState? then
         i.frames == [] && i.root.Some? && SyntaxOk(i.root.value, true, false, m.handles) && m.states == []
       else if s.DocumentContent? || s.BlockNode? then i.frames == [] && Waits(m, i)
       else
         && i.frames != [] && i.root.None?
         && At(s, Top(i)) && Ahead(Top(i), m.rest) && Stacked(m.states, Below(i).frames)
  }

  // --- replacing and adding collections

  lemma FramesSnoc(frames: seq<Frame>, f: Frame, handles: map<string, string>)
    ensures FramesTokens(frames + [f]) == FramesTokens(frames) + FrameTokens(f)
    ensures FramesEvents(frames + [f], handles) == FramesEvents(frames, handles) + FrameEvents(f, handles)
  {
    assert (frames + [f])[..|frames|] == frames;
  }

  lemma OnTopOk(i: Inner, f: Frame, handles: map<string, string>)
    requires i.frames != [] && FramesOk(i.frames, handles)
    requires FrameOk(f, handles) && f.style == Top(i).style
    ensures FramesOk(OnTop(i, f).frames, handles)
    ensures OnTop(i, f).frames[..|i.frames| - 1] == i.frames[..|i.frames| - 1]
    ensures Top(OnTop(i, f)) == f
  {
    hide FrameOk;
    var fs := OnTop(i, f).frames;
    forall k | 0 <= k < |fs|
      ensures FrameOk(fs[k], handles) && StyleOk(fs[k].style, SlotBlock(fs, k), SlotIndentless(fs, k))
    {
      assert k < |fs| - 1 ==> fs[k] == i.frames[k];
      assert k > 0 ==> fs[k - 1] == i.frames[k - 1];
    }
  }

  /** What the innermost collection takes and emits is what the document does. */
  lemma OnTopGrows(i: Inner, f: Frame, ts: seq<Tok>, es: seq<Event>, handles: map<string, string>)
    requires i.frames != []
    requires FrameTokens(f) == FrameTokens(Top(i)) + ts
    requires FrameEvents(f, handles) == FrameEvents(Top(i), handles) + es
    ensures InnerTokens(OnTop(i, f)) == InnerTokens(i) + ts
    ensures InnerEvents(OnTop(i, f), handles) == InnerEvents(i, handles) + es
  {
    hide FrameTokens, FrameEvents, RootTokens, RootEvents;
    FramesSnoc(Below(i).frames, f, handles);
    FramesSnoc(Below(i).frames, Top(i), handles);
    assert i.frames == Below(i).frames + [Top(i)];
  }

  lemma BodySnoc(style: Style, parts: seq<Part>, p: Part, handles: map<string, string>)
    ensures BodyEvents(style, parts + [p], handles) == BodyEvents(style, parts, handles) + PartEvents(style, p, handles)
  {
    if Sequence(style) {
      ItemsOfSnoc(parts, p, handles);
      ItemEventsConcat(ItemsOf(parts, handles), [ItemOf(p, handles)]);
      assert [ItemOf(p, handles)][1..] == [];
    } else {
      PairsOfSnoc(parts, p, handles);
      PairEventsConcat(PairsOf(parts, handles), [PairOf(p, handles)]);
      assert [PairOf(p, handles)][1..] == [];
    }
  }

  /** What a collection awaits comes after its finished parts. */
  lemma PendingLast(f: Frame, handles: map<string, string>)
    ensures FrameTokens(f) == FrameTokens(f.(pending := Idle)) + PendingTokens(f)
    ensures FrameEvents(f, handles) == FrameEvents(f.(pending := Idle), handles) + PendingEvents(f, handles)
  {
    hide PropTokens, OpenTokens, PartsTokens, BodyEvents, FrameStart, PendingTokens, PendingEvents;
    var idle := f.(pending := Idle);
    assert PendingTokens(idle) == [] && PendingEvents(idle, handles) == [] by { IdlePending(idle, handles); }
    assert FrameStart(idle, handles) == FrameStart(f, handles) by { SameStart(f, idle, handles); }
  }

  lemma IdlePending(f: Frame, handles: map<string, string>)
    requires f.pending.Idle?
    ensures PendingTokens(f) == [] && PendingEvents(f, handles) == []
  {
  }

  lemma SameStart(f: Frame, g: Frame, handles: map<string, string>)
    requires f.style == g.style && f.props == g.props
    ensures FrameStart(f, handles) == FrameStart(g, handles)
  {
  }

  /** A finished part comes after the parts before it. */
  lemma PartLast(f: Frame, p: Part, handles: map<string, string>)
    requires f.pending.Idle?
    ensures var g := f.(parts := f.parts + [p]);
            && FrameTokens(g) == FrameTokens(f) + (Separator(f) + PartTokens(f.style, p))
            && FrameEvents(g, handles) == FrameEvents(f, handles) + PartEvents(f.style, p, handles)
  {
    hide PropTokens, OpenTokens, PartsTokens, BodyEvents, FrameStart, PartTokens, PartEvents;
    var g := f.(parts := f.parts + [p]);
    PartsTokensSnoc(f.style, f.parts, p, true);
    BodySnoc(f.style, f.parts, p, handles);
    SameStart(f, g, handles);
  }

  lemma ValuedGrows(f: Frame, c: Part, handles: map<string, string>)
    requires c.Couple? && (f.style.BlockMap? || Flow(f.style))
    ensures FrameTokens(Valued(f, c)) == FrameTokens(f.(pending := Idle)) + (Separator(f) + PartTokens(f.style, c))
    ensures FrameEvents(Valued(f, c), handles)
         == FrameEvents(f.(pending := Idle), handles) + (PairStart(f.style) + OnePairEvents(PairOf(c, handles)))
  {
    hide FrameTokens, FrameEvents, PartTokens, OnePairEvents, PairOf;
    if f.style.FlowSeq? {
      PendingLast(Valued(f, c), handles);
    } else {
      PartLast(f.(pending := Idle), c, handles);
    }
  }

  /** The tokens a filled place adds to what was awaited. */
  lemma FilledTokens(f: Frame, s: Syntax, part: Part)
    requires CanFill(f)
    requires f.pending.AwaitItem? ==> part == Item(s)
    requires f.pending.AwaitValue? ==> part == Couple(f.pending.key, Some(s))
    ensures f.pending.AwaitItem? || f.pending.AwaitValue? ==> Separator(f) + PartTokens(f.style, part) == PendingTokens(f) + Tokens(s)
    ensures f.pending.AwaitKey? ==> PendingTokens(f.(pending := HaveKey(s))) == PendingTokens(f) + Tokens(s)
    ensures f.pending.AwaitItem? && f.style.FlowMap? ==> PendingTokens(f.(pending := HaveBare(s))) == PendingTokens(f) + Tokens(s)
  {
    hide Tokens, Separator, Dash;
    var sep := Separator(f);
    match f.pending
    case AwaitItem =>
      assert sep + (Dash(f.style) + Tokens(s)) == (sep + Dash(f.style)) + Tokens(s);
      if f.style.FlowMap? {
        assert Dash(f.style) == [] by { NoDash(f.style); }
        assert Separator(f.(pending := HaveBare(s))) == sep by { SameSeparator(f, HaveBare(s)); }
        assert (sep + []) + Tokens(s) == sep + Tokens(s);
      }
    case AwaitKey =>
      assert Separator(f.(pending := HaveKey(s))) == sep by { SameSeparator(f, HaveKey(s)); }
    case AwaitValue(k) =>
      assert sep + ([Tok.Key] + Tokens(k) + ([Tok.Value] + Tokens(s))) == (sep + [Tok.Key] + Tokens(k) + [Tok.Value]) + Tokens(s);
  }

  lemma NoDash(style: Style)
    requires Flow(style)
    ensures Dash(style) == []
  {
  }

  lemma FillTokens(f: Frame, s: Syntax, handles: map<string, string>)
    requires CanFill(f) && FrameOk(f, handles)
    ensures FrameTokens(Fill(f, s)) == FrameTokens(f) + Tokens(s)
  {
    hide FrameTokens, FrameEvents, PendingTokens, PendingEvents, Separator, Tokens, PartTokens, SyntaxOk, ValueOk, PartsOk, PropsOk;
    PendingLast(f, handles);
    match f.pending
    case AwaitItem =>
      FilledTokens(f, s, Item(s));
      if f.style.FlowMap? {
        PendingLast(Fill(f, s), handles);
      } else {
        PartLast(f.(pending := Idle), Item(s), handles);
        assert Separator(f.(pending := Idle)) == Separator(f) by { SameSeparator(f, Idle); }
      }
    case AwaitKey =>
      FilledTokens(f, s, Item(s));
      PendingLast(Fill(f, s), handles);
    case AwaitValue(k) =>
      FilledTokens(f, s, Couple(k, Some(s)));
      ValuedGrows(f, Couple(k, Some(s)), handles);
  }

  lemma SameSeparator(f: Frame, p: Pending)
    ensures Separator(f.(pending := p)) == Separator(f)
  {
  }

  /** The events a filled place adds to what was awaited. */
  lemma FilledEvents(f: Frame, s: Syntax, part: Part, handles: map<string, string>)
    requires CanFill(f) && FrameOk(f, handles)
    requires f.pending.AwaitItem? ==> part == Item(s)
    requires f.pending.AwaitValue? ==> part == Couple(f.pending.key, Some(s))
    ensures f.pending.AwaitItem? && !f.style.FlowMap? ==>
              PartEvents(f.style, part, handles) == PendingEvents(f, handles) + Events(NodeOf(s, handles))
    ensures f.pending.AwaitItem? && f.style.FlowMap? ==>
              PendingEvents(f.(pending := HaveBare(s)), handles) == PendingEvents(f, handles) + Events(NodeOf(s, handles))
    ensures f.pending.AwaitKey? ==>
              PendingEvents(f.(pending := HaveKey(s)), handles) == PendingEvents(f, handles) + Events(NodeOf(s, handles))
    ensures f.pending.AwaitValue? ==>
              PairStart(f.style) + OnePairEvents(PairOf(part, handles)) == PendingEvents(f, handles) + Events(NodeOf(s, handles))
  {
    hide Events, NodeOf, PropsOk, PartsOk, PartOk, SyntaxOk;
    match f.pending
    case AwaitItem =>
      assert f.style.FlowSeq? || f.style.FlowMap? || f.style.BlockSeq? || f.style.DashSeq?;
    case AwaitKey =>
    case AwaitValue(k) =>
      var key, value := Events(NodeOf(k, handles)), Events(NodeOf(s, handles));
      assert PairOf(part, handles) == Pair(NodeOf(k, handles), NodeOf(s, handles));
      assert PairStart(f.style) + (key + value) == (PairStart(f.style) + key) + value;
  }

  lemma FillEvents(f: Frame, s: Syntax, handles: map<string, string>)
    requires CanFill(f) && FrameOk(f, handles)
    ensures FrameEvents(Fill(f, s), handles) == FrameEvents(f, handles) + Events(NodeOf(s, handles))
  {
    hide FrameTokens, FrameEvents, PendingTokens, PendingEvents, PartEvents, OnePairEvents, PairOf, PairStart, FrameOk, Events, NodeOf;
    var idle := f.(pending := Idle);
    PendingLast(f, handles);
    match f.pending
    case AwaitItem =>
      FilledEvents(f, s, Item(s), handles);
      if f.style.FlowMap? {
        PendingLast(Fill(f, s), handles);
      } else {
        PartLast(idle, Item(s), handles);
      }
    case AwaitKey =>
      FilledEvents(f, s, Item(s), handles);
      PendingLast(Fill(f, s), handles);
    case AwaitValue(k) =>
      AwaitsPair(f, handles);
      FilledEvents(f, s, Couple(k, Some(s)), handles);
      ValuedGrows(f, Couple(k, Some(s)), handles);
  }

  lemma AwaitsPair(f: Frame, handles: map<string, string>)
    requires f.pending.AwaitValue? && FrameOk(f, handles)
    ensures f.style.BlockMap? || Flow(f.style)
  {
    hide PropsOk, PartsOk, SyntaxOk;
  }

  /** A node put where one is awaited leaves the collection grammatical. */
  lemma FillOk(f: Frame, s: Syntax, handles: map<string, string>)
    requires CanFill(f) && FrameOk(f, handles)
    requires SyntaxOk(s, !Flow(f.style), f.style.BlockMap?, handles)
    requires f.pending.AwaitItem? && Flow(f.style) ==> s != NOTHING
    ensures FrameOk(Fill(f, s), handles)
  {
    hide SyntaxOk, PropsOk, PartsOk;
    match f.pending
    case AwaitItem =>
      PartsOkSnoc(f.style, f.parts, Item(s), handles);
    case AwaitKey =>
      assert ValueOk(None, !Flow(f.style), f.style.BlockMap?, handles);
      assert PartOk(f.style, Couple(s, None), handles);
    case AwaitValue(k) =>
      PartsOkSnoc(f.style, f.parts, Couple(k, Some(s)), handles);
  }

  // --- one step

  /** How many steps a state can take without taking a token. */
  function Rank(s: State): nat {
    match s
    case ImplicitDocumentStart => 5
    case BlockNode => 4
    case DocumentContent => 2
    case DocumentEndState => 1
    case BlockMappingValue => 1
    case IndentlessSequenceEntry => 2
    case FlowSequenceEntryMappingValue => 2
    case FlowSequenceEntryMappingEnd => 1
    case FlowMappingValue => 1
    case FlowMappingEmptyValue => 1
    case _ => 0
  }

  /** A bound on the events still to come. */
  function Work(m: Machine): nat {
    8 * |m.rest| + if m.state.Some? then Rank(m.state.value) else 0
  }

  /** One event more, and the tokens it took, in what is built. */
  predicate Keeps(m: Machine, i: Inner, r: Emitted, i2: Inner) {
    && r.next.state.Some?
    && r.next.handles == m.handles && r.next.broken == m.broken
    && Fits(r.next, r.next.state.value, i2)
    && InnerTokens(i2) + r.next.rest == InnerTokens(i) + m.rest
    && InnerEvents(i2, m.handles) == InnerEvents(i, m.handles) + [r.event]
    && (i.frames != [] && i2.root.Some? ==> i2.root.value.Coll?)
  }

  predicate SlotOk(i: Inner, s: Syntax, handles: map<string, string>) {
    && SyntaxOk(s, SlotBlock(i.frames, |i.frames|), SlotIndentless(i.frames, |i.frames|), handles)
    && (i.frames != [] && Top(i).pending.AwaitItem? && Flow(Top(i).style) ==> s != NOTHING)
  }

  lemma AtAnyNode(s: State, f: Frame, x: Syntax)
    requires CanFill(f) && At(s, Fill(f, NOTHING))
    ensures At(s, Fill(f, x))
    ensures Fill(f, x).begun && !Fill(f, x).pending.OpenPair? && (Fill(f, x).pending.Idle? ==> Fill(f, x).parts != [])
    ensures Fill(f, x).style == f.style
    ensures !s.DocumentEndState? && !s.DocumentContent? && !s.BlockNode?
  {
  }

  /** A whole node put where the parser awaits one: it is back in the state on
      top of its stack. */
  lemma PlaceKeeps(m: Machine, i: Inner, s: Syntax, e: Event, rest: seq<Tok>)
    requires Waits(m, i) && SlotOk(i, s, m.handles)
    requires m.rest == Tokens(s) + rest
    requires Events(NodeOf(s, m.handles)) == [e]
    ensures m.states != [] && (i.frames != [] ==> CanFill(Top(i)))
    ensures Keeps(m, i, Emitted(e, Returned(m, rest)), Place(i, s))
  {
    hide Fits, SlotOk, InnerTokens, InnerEvents, Tokens, Events, NodeOf, Place, FrameOk, StyleOk, Stacked, Top;
    PlaceFits(m, i, s, rest);
    PlaceGrows(i, s, m.handles);
    PlaceRoot(i, s);
    assert InnerTokens(i) + Tokens(s) + rest == InnerTokens(i) + m.rest;
  }

  lemma PlaceRoot(i: Inner, s: Syntax)
    requires i.root.None? && (i.frames != [] ==> CanFill(Top(i)))
    ensures Place(i, s).root == if i.frames == [] then Some(s) else None
  {
    hide Fill;
  }

  lemma PlaceFits(m: Machine, i: Inner, s: Syntax, rest: seq<Tok>)
    requires Waits(m, i) && SlotOk(i, s, m.handles)
    ensures m.states != [] && (i.frames != [] ==> CanFill(Top(i)))
    ensures i.frames != [] ==> FrameOk(Top(i), m.handles)
    ensures var m1 := Returned(m, rest); Fits(m1, m1.state.value, Place(i, s))
  {
    hide SyntaxOk, FrameOk, Fill;
    var m1 := Returned(m, rest);
    if i.frames != [] {
      var f := Top(i);
      FillOk(f, s, m.handles);
      AtAnyNode(m1.state.value, f, s);
      OnTopOk(i, Fill(f, s), m.handles);
    }
  }

  lemma PlaceGrows(i: Inner, s: Syntax, handles: map<string, string>)
    requires i.frames != [] ==> CanFill(Top(i)) && FrameOk(Top(i), handles)
    requires i.frames == [] ==> i.root.None?
    ensures InnerTokens(Place(i, s)) == InnerTokens(i) + Tokens(s)
    ensures InnerEvents(Place(i, s), handles) == InnerEvents(i, handles) + Events(NodeOf(s, handles))
  {
    hide Tokens, Events, NodeOf, Fill, FrameTokens, FrameEvents, FrameOk;
    if i.frames != [] {
      hide InnerTokens, InnerEvents;
      var f := Top(i);
      FillTokens(f, s, handles);
      FillEvents(f, s, handles);
      OnTopGrows(i, Fill(f, s), Tokens(s), Events(NodeOf(s, handles)), handles);
    }
  }

  // --- nodes

  /** The tokens that properties are taken from. */
  function PropertyTokens(anchor: Option<string>, tag: Option<Tok>, anchorFirst: bool): seq<Tok> {
    var anchors := if anchor.Some? then [Tok.Anchor(anchor.value)] else [];
    var tags := if tag.Some? then [tag.value] else [];
    if anchorFirst then anchors + tags else tags + anchors
  }

  lemma PropertiesRead(m: Machine)
    requires TakeProperties(m).Ok?
    ensures var p := TakeProperties(m).value;
            && p.next == m.(rest := p.next.rest) && (p.tag.Some? ==> p.tag.value.Tag?)
            && m.rest == PropertyTokens(p.anchor, p.tag, m.rest != [] && m.rest[0].Anchor?) + p.next.rest
  {
    PropertiesAre(m);
    hide TakeProperties;
    var p := TakeProperties(m).value;
    var n := (if p.anchor.Some? then 1 else 0) + if p.tag.Some? then 1 else 0;
    assert m.rest == m.rest[..n] + m.rest[n..];
  }

  lemma PropertiesAre(m: Machine)
    requires TakeProperties(m).Ok?
    ensures var p := TakeProperties(m).value;
            var n := (if p.anchor.Some? then 1 else 0) + if p.tag.Some? then 1 else 0;
            && n <= |m.rest| && p.next == m.(rest := m.rest[n..]) && (p.tag.Some? ==> p.tag.value.Tag?)
            && m.rest[..n] == PropertyTokens(p.anchor, p.tag, m.rest != [] && m.rest[0].Anchor?)
  {
    if |m.rest| > 1 {
      assert m.rest[1..][1..] == m.rest[2..] && m.rest[1..][0] == m.rest[1];
    }
  }

  /** The properties a node was read with. */
  lemma PropsTaken(m: Machine) returns (props: Props)
    requires var p := TakeProperties(m); p.Ok? && ResolveTag(m.handles, p.value.tag).Ok?
    ensures var p := TakeProperties(m).value;
            && p.next == m.(rest := p.next.rest)
            && m.rest == PropTokens(props) + p.next.rest
            && AnchorOf(props) == p.anchor
            && TagOf(props, m.handles) == ResolveTag(m.handles, p.tag).value
            && PropsOk(props, m.handles)
    ensures props.Bare? <==> AnchorOf(props).None? && TagOf(props, m.handles).None?
  {
    PropertiesRead(m);
    hide TakeProperties;
    var p := TakeProperties(m).value;
    if p.anchor.None? && p.tag.None? {
      props := Bare;
    } else if p.tag.None? {
      props := Anchored(p.anchor.value);
    } else {
      var Tag(handle, suffix) := p.tag.value;
      if p.anchor.None? {
        props := Tagged(handle, suffix);
      } else if m.rest[0].Anchor? {
        props := AnchoredTagged(p.anchor.value, handle, suffix);
      } else {
        props := TaggedAnchored(p.anchor.value, handle, suffix);
      }
    }
  }

  function Begun(i: Inner, style: Style, props: Props): Inner {
    i.(frames := i.frames + [Frame(style, props, style.DashSeq?, [], Idle)])
  }

  /** A collection begun where the parser awaits a node. */
  lemma BeginKeeps(m: Machine, i: Inner, style: Style, props: Props, rest: seq<Tok>)
    requires Waits(m, i)
    requires PropsOk(props, m.handles) && StyleOk(style, SlotBlock(i.frames, |i.frames|), SlotIndentless(i.frames, |i.frames|))
    requires m.rest == PropTokens(props) + rest
    requires OpenTokens(style) <= rest
    requires style.DashSeq? ==> rest != [] && rest[0].BlockEntry?
    ensures Keeps(m, i, Emitted(CollStart(Coll(style, props, [], false), m.handles), m.(state := Some(FirstState(style)), rest := rest)),
                  Begun(i, style, props))
  {
    hide Fits, Waits, PropsOk, StyleOk, InnerTokens, InnerEvents, CollStart, PropTokens, OpenTokens, Begun, FirstState,
         SlotBlock, SlotIndentless;
    BeginFits(m, i, style, props, rest);
    BeginGrows(i, style, props, m.handles);
    WaitsStates(m, i);
    BegunRoot(i, style, props);
    assert InnerTokens(i) + PropTokens(props) + rest == InnerTokens(i) + m.rest;
  }

  lemma BegunRoot(i: Inner, style: Style, props: Props)
    ensures Begun(i, style, props).root == i.root
  {
  }

  lemma BeginFits(m: Machine, i: Inner, style: Style, props: Props, rest: seq<Tok>)
    requires Waits(m, i)
    requires PropsOk(props, m.handles) && StyleOk(style, SlotBlock(i.frames, |i.frames|), SlotIndentless(i.frames, |i.frames|))
    requires OpenTokens(style) <= rest
    requires style.DashSeq? ==> rest != [] && rest[0].BlockEntry?
    ensures Fits(m.(state := Some(FirstState(style)), rest := rest), FirstState(style), Begun(i, style, props))
  {
    hide FramesOk, PropsOk, StyleOk, Stacked;
    BegunOk(i, style, props, m.handles);
    var i2 := Begun(i, style, props);
    assert Top(i2) == Frame(style, props, style.DashSeq?, [], Idle);
    assert Below(i2).frames == i.frames;
  }

  lemma BegunOk(i: Inner, style: Style, props: Props, handles: map<string, string>)
    requires FramesOk(i.frames, handles)
    requires PropsOk(props, handles) && StyleOk(style, SlotBlock(i.frames, |i.frames|), SlotIndentless(i.frames, |i.frames|))
    ensures FramesOk(Begun(i, style, props).frames, handles)
  {
    hide FrameOk, StyleOk;
    var fs := Begun(i, style, props).frames;
    BareFrameOk(fs[|i.frames|], handles);
    forall k | 0 <= k < |fs|
      ensures FrameOk(fs[k], handles) && StyleOk(fs[k].style, SlotBlock(fs, k), SlotIndentless(fs, k))
    {
      assert k < |i.frames| ==> fs[k] == i.frames[k];
      assert k > 0 ==> fs[k - 1] == i.frames[k - 1];
    }
  }

  lemma BareFrameOk(f: Frame, handles: map<string, string>)
    requires f.parts == [] && f.pending.Idle? && PropsOk(f.props, handles)
    ensures FrameOk(f, handles)
  {
  }

  lemma BeginGrows(i: Inner, style: Style, props: Props, handles: map<string, string>)
    ensures InnerTokens(Begun(i, style, props)) == InnerTokens(i) + PropTokens(props)
    ensures InnerEvents(Begun(i, style, props), handles) == InnerEvents(i, handles) + [CollStart(Coll(style, props, [], false), handles)]
  {
    hide RootTokens, RootEvents, PropTokens, CollStart;
    var f := Frame(style, props, style.DashSeq?, [], Idle);
    FramesSnoc(i.frames, f, handles);
    assert FrameTokens(f) == PropTokens(props);
    assert FrameEvents(f, handles) == [CollStart(Coll(style, props, [], false), handles)];
  }

  lemma LeafEvents(s: Syntax, handles: map<string, string>)
    requires !s.Coll?
    ensures s.Ref? ==> Events(NodeOf(s, handles)) == [Event.Alias(s.name)]
    ensures s.Empty? ==> var tag := TagOf(s.props, handles);
      Events(NodeOf(s, handles)) == [Event.Scalar(AnchorOf(s.props), tag, tag.None? || tag == Some("!"), "")]
    ensures s.Text? ==> var tag := TagOf(s.props, handles);
      Events(NodeOf(s, handles)) == [Event.Scalar(AnchorOf(s.props), tag, (s.plain && tag.None?) || tag == Some("!"), s.value)]
    ensures Tokens(s) == if s.Ref? then [Tok.Alias(s.name)] else if s.Empty? then PropTokens(s.props)
                         else PropTokens(s.props) + [Tok.Scalar(s.value, s.plain)]
  {
    hide TagOf, AnchorOf, PropTokens;
  }

  lemma LeafSlot(i: Inner, s: Syntax, handles: map<string, string>)
    requires !s.Coll? && s != NOTHING && (!s.Ref? ==> PropsOk(s.props, handles))
    ensures SlotOk(i, s, handles)
  {
    hide PropsOk;
  }

  lemma LeafKeeps(m: Machine, i: Inner, s: Syntax, rest: seq<Tok>) returns (i2: Inner)
    requires Waits(m, i) && m.states != [] && (i.frames != [] ==> CanFill(Top(i))) && i.root.None?
    requires (s.Text? || s.Empty?) && s != NOTHING && PropsOk(s.props, m.handles)
    requires m.rest == (if s.Empty? then PropTokens(s.props) else PropTokens(s.props) + [Tok.Scalar(s.value, s.plain)]) + rest
    ensures |Events(NodeOf(s, m.handles))| == 1
    ensures Keeps(m, i, Emitted(Events(NodeOf(s, m.handles))[0], Returned(m, rest)), i2)
    ensures i2.root.Some? ==> i2.root.value != NOTHING
  {
    hide Keeps, Waits, Tokens, Events, NodeOf, PropTokens, PropsOk, SlotOk, Place;
    LeafEvents(s, m.handles);
    LeafSlot(i, s, m.handles);
    PlaceKeeps(m, i, s, Events(NodeOf(s, m.handles))[0], rest);
    PlaceRoot(i, s);
    i2 := Place(i, s);
  }

  /** The content of a node after its properties. */
  lemma ContentKeeps(m: Machine, i: Inner, props: Props, rest: seq<Tok>) returns (i2: Inner)
    requires Waits(m, i)
    requires PropsOk(props, m.handles)
    requires m.rest == PropTokens(props) + rest
    requires props.Bare? <==> AnchorOf(props).None? && TagOf(props, m.handles).None?
    requires ParseContent(m.(rest := rest), AnchorOf(props), TagOf(props, m.handles),
                          SlotBlock(i.frames, |i.frames|), SlotIndentless(i.frames, |i.frames|)).Ok?
    ensures Keeps(m, i, ParseContent(m.(rest := rest), AnchorOf(props), TagOf(props, m.handles),
                                     SlotBlock(i.frames, |i.frames|), SlotIndentless(i.frames, |i.frames|)).value, i2)
    ensures i2.root.Some? ==> i2.root.value != NOTHING
  {
    hide Keeps, Waits, Tokens, Events, NodeOf, PropTokens, PropsOk, AnchorOf, TagOf, SlotOk, Place;
    var block, indentless := SlotBlock(i.frames, |i.frames|), SlotIndentless(i.frames, |i.frames|);
    WaitsStates(m, i);
    if indentless && rest != [] && rest[0].BlockEntry? {
      BeginKeeps(m, i, DashSeq, props, rest);
      i2 := Begun(i, DashSeq, props);
    } else if rest != [] && rest[0].Scalar? {
      var s := Text(props, rest[0].value, rest[0].plain);
      assert m.rest == PropTokens(props) + [rest[0]] + rest[1..];
      i2 := LeafKeeps(m, i, s, rest[1..]);
      LeafEvents(s, m.handles);
    } else if rest != [] && rest[0].FlowSequenceStart? {
      BeginKeeps(m, i, FlowSeq, props, rest);
      i2 := Begun(i, FlowSeq, props);
    } else if rest != [] && rest[0].FlowMappingStart? {
      BeginKeeps(m, i, FlowMap, props, rest);
      i2 := Begun(i, FlowMap, props);
    } else if block && rest != [] && rest[0].BlockSequenceStart? {
      BeginKeeps(m, i, BlockSeq, props, rest);
      i2 := Begun(i, BlockSeq, props);
    } else if block && rest != [] && rest[0].BlockMappingStart? {
      BeginKeeps(m, i, BlockMap, props, rest);
      i2 := Begun(i, BlockMap, props);
    } else {
      var s := Empty(props);
      i2 := LeafKeeps(m, i, s, rest);
      LeafEvents(s, m.handles);
    }
  }

  lemma WaitsStates(m: Machine, i: Inner)
    requires Waits(m, i)
    ensures m.states != [] && (i.frames != [] ==> CanFill(Top(i))) && i.root.None?
  {
  }

  /** A node, or its beginning, read where the parser awaits one. */
  lemma ParseNodeKeeps(m: Machine, i: Inner) returns (i2: Inner)
    requires Waits(m, i)
    requires ParseNode(m, SlotBlock(i.frames, |i.frames|), SlotIndentless(i.frames, |i.frames|)).Ok?
    ensures Keeps(m, i, ParseNode(m, SlotBlock(i.frames, |i.frames|), SlotIndentless(i.frames, |i.frames|)).value, i2)
    ensures i2.root.Some? ==> i2.root.value != NOTHING
  {
    hide Keeps, Waits, Tokens, Events, NodeOf, PropTokens, PropsOk, AnchorOf, TagOf, SlotOk, Place,
         TakeProperties, ResolveTag, ParseContent, SlotBlock, SlotIndentless;
    if m.rest != [] && m.rest[0].Alias? {
      var s := Ref(m.rest[0].name);
      WaitsStates(m, i);
      LeafEvents(s, m.handles);
      LeafSlot(i, s, m.handles);
      PlaceKeeps(m, i, s, Event.Alias(s.name), m.rest[1..]);
      PlaceRoot(i, s);
      i2 := Place(i, s);
    } else {
      var props := PropsTaken(m);
      i2 := ContentKeeps(m, i, props, TakeProperties(m).value.next.rest);
    }
  }

  // --- moves of the innermost collection

  /** The parser with `f` innermost, about to step. */
  predicate Stands(m: Machine, i: Inner) {
    && i.frames != [] && i.root.None? && FramesOk(i.frames, m.handles)
    && Stacked(m.states, Below(i).frames)
  }

  /** Tokens taken into the innermost collection before its step emits anything. */
  lemma TakenKeeps(m: Machine, i: Inner, f: Frame, ts: seq<Tok>, m1: Machine, r: Emitted, i2: Inner)
    requires i.frames != []
    requires m.rest == ts + m1.rest && m1.handles == m.handles && m1.broken == m.broken
    requires FrameTokens(f) == FrameTokens(Top(i)) + ts
    requires FrameEvents(f, m.handles) == FrameEvents(Top(i), m.handles)
    requires Keeps(m1, OnTop(i, f), r, i2)
    ensures Keeps(m, i, r, i2)
  {
    hide Fits, InnerTokens, InnerEvents, FrameTokens, FrameEvents, Top, OnTop;
    assert FrameEvents(f, m.handles) == FrameEvents(Top(i), m.handles) + [];
    OnTopGrows(i, f, ts, [], m.handles);
    OnTopRoot(i, f);
    assert InnerTokens(i) + ts + m1.rest == InnerTokens(i) + m.rest;
  }

  lemma OnTopRoot(i: Inner, f: Frame)
    requires i.frames != []
    ensures OnTop(i, f).root == i.root && OnTop(i, f).frames != []
  {
  }

  /** One event, and the tokens with it, that only change the innermost collection. */
  lemma MovedKeeps(m: Machine, i: Inner, f: Frame, ts: seq<Tok>, e: Event, m1: Machine)
    requires Stands(m, i)
    requires FrameOk(f, m.handles) && f.style == Top(i).style
    requires m.rest == ts + m1.rest && m1 == m.(state := m1.state, rest := m1.rest)
    requires m1.state.Some? && At(m1.state.value, f) && Ahead(f, m1.rest)
    requires FrameTokens(f) == FrameTokens(Top(i)) + ts
    requires FrameEvents(f, m.handles) == FrameEvents(Top(i), m.handles) + [e]
    ensures Keeps(m, i, Emitted(e, m1), OnTop(i, f))
  {
    assert Fits(m1, m1.state.value, OnTop(i, f)) by {
      hide FrameOk, FrameTokens, FrameEvents, FramesOk, Stacked;
      OnTopOk(i, f, m.handles);
    }
    hide Fits, InnerTokens, InnerEvents, FrameTokens, FrameEvents, FrameOk, At, Ahead, Stacked, FramesOk, OnTop, Top, Below;
    OnTopGrows(i, f, ts, [e], m.handles);
    OnTopRoot(i, f);
    assert InnerTokens(i) + ts + m1.rest == InnerTokens(i) + m.rest;
  }

  lemma PendingMove(f: Frame, p: Pending, ts: seq<Tok>, es: seq<Event>, handles: map<string, string>)
    requires PendingTokens(f.(pending := p)) == PendingTokens(f) + ts
    requires PendingEvents(f.(pending := p), handles) == PendingEvents(f, handles) + es
    ensures FrameTokens(f.(pending := p)) == FrameTokens(f) + ts
    ensures FrameEvents(f.(pending := p), handles) == FrameEvents(f, handles) + es
  {
    hide FrameTokens, FrameEvents, PendingTokens, PendingEvents;
    PendingLast(f, handles);
    PendingLast(f.(pending := p), handles);
  }

  /** A collection's first token, taken at its first entry. */
  lemma OpenTaken(f: Frame, handles: map<string, string>)
    requires !f.begun && f.parts == [] && f.pending.Idle?
    ensures FrameTokens(f.(begun := true)) == FrameTokens(f) + OpenTokens(f.style)
    ensures FrameEvents(f.(begun := true), handles) == FrameEvents(f, handles)
  {
    hide PropTokens, OpenTokens;
    SameStart(f, f.(begun := true), handles);
    hide FrameStart;
  }

  lemma StandsOnTop(m: Machine, i: Inner, f: Frame, rest: seq<Tok>)
    requires Stands(m, i) && FrameOk(f, m.handles) && f.style == Top(i).style
    ensures Stands(m.(rest := rest), OnTop(i, f)) && Top(OnTop(i, f)) == f
  {
    hide FrameOk, FramesOk, Stacked;
    OnTopOk(i, f, m.handles);
  }

  /** A node, or nothing, where the innermost collection awaits one. */
  lemma NodeOrEmptyKeeps(m: Machine, none: bool, back: State, i: Inner) returns (i2: Inner)
    requires Stands(m, i) && CanFill(Top(i)) && At(back, Fill(Top(i), NOTHING))
    requires none && Top(i).pending.AwaitItem? ==> !Flow(Top(i).style)
    requires NodeOrEmpty(m, none, back, !Flow(Top(i).style), Top(i).style.BlockMap?).Ok?
    ensures Keeps(m, i, NodeOrEmpty(m, none, back, !Flow(Top(i).style), Top(i).style.BlockMap?).value, i2)
  {
    hide Keeps, FramesOk, ParseNode, At, Fill, CanFill;
    var m1 := Pushed(m, back);
    PushedWaits(m, back, i);
    if none {
      NothingSlot(i, m.handles);
      i2 := NothingKeeps(m1, i);
      assert Returned(m1, m.rest) == m.(state := Some(back)) by {
        assert m1.states[..|m.states|] == m.states;
      }
    } else {
      i2 := ParseNodeKeeps(m1, i);
    }
    SameMachine(m, m1, i, NodeOrEmpty(m, none, back, !Flow(Top(i).style), Top(i).style.BlockMap?).value, i2);
  }

  lemma PushedWaits(m: Machine, back: State, i: Inner)
    requires Stands(m, i) && CanFill(Top(i)) && At(back, Fill(Top(i), NOTHING))
    ensures Waits(Pushed(m, back), i)
  {
    hide FramesOk, At, Fill, CanFill;
  }

  lemma NothingSlot(i: Inner, handles: map<string, string>)
    requires i.frames != []
    requires Top(i).pending.AwaitItem? ==> !Flow(Top(i).style)
    ensures SlotOk(i, NOTHING, handles)
  {
  }

  lemma SameMachine(m: Machine, m1: Machine, i: Inner, r: Emitted, i2: Inner)
    requires Keeps(m1, i, r, i2)
    requires m1.rest == m.rest && m1.handles == m.handles && m1.broken == m.broken
    ensures Keeps(m, i, r, i2)
  {
    hide Fits, InnerTokens, InnerEvents;
  }

  /** The end of a collection: the node it stands for goes where one was awaited. */
  lemma CloseKeeps(m: Machine, i: Inner, comma: bool, rest: seq<Tok>)
    requires Stands(m, i)
    requires Top(i).begun && Top(i).pending.Idle? && (Top(i).style.DashSeq? ==> Top(i).parts != [])
    requires comma ==> Flow(Top(i).style) && Top(i).parts != []
    requires m.rest == CommaTokens(comma) + CloseTokens(Top(i).style) + rest
    ensures m.states != [] && (Below(i).frames != [] ==> CanFill(Top(Below(i))))
    ensures Keeps(m, i, Emitted(CollEnd(Top(i).style), Returned(m, rest)),
                  Place(Below(i), Coll(Top(i).style, Top(i).props, Top(i).parts, comma)))
  {
    hide Fits, Tokens, Events, NodeOf, InnerTokens, InnerEvents, Place, SlotOk, CommaTokens, CloseTokens, CollEnd,
         FramesOk, FrameOk, Stacked, CanFill;
    var f := Top(i);
    var c := Coll(f.style, f.props, f.parts, comma);
    var b := Below(i);
    CloseWaits(m, i, comma);
    PlaceFits(m, b, c, rest);
    PlaceGrows(b, c, m.handles);
    CloseGrows(i, comma, m.handles);
    PlaceRoot(b, c);
    hide Waits, Stands, Top, Below;
    assert InnerTokens(i) + CommaTokens(comma) + CloseTokens(f.style) + rest
        == InnerTokens(i) + (CommaTokens(comma) + CloseTokens(f.style) + rest);
  }

  lemma CloseWaits(m: Machine, i: Inner, comma: bool)
    requires Stands(m, i)
    requires Top(i).begun && Top(i).pending.Idle? && (Top(i).style.DashSeq? ==> Top(i).parts != [])
    requires comma ==> Flow(Top(i).style) && Top(i).parts != []
    ensures Waits(m, Below(i))
    ensures SlotOk(Below(i), Coll(Top(i).style, Top(i).props, Top(i).parts, comma), m.handles)
  {
    hide PartsOk, PropsOk, Stacked;
    var fs, b := i.frames, Below(i).frames;
    var top := |b|;
    assert FrameOk(fs[top], m.handles) && StyleOk(fs[top].style, SlotBlock(fs, top), SlotIndentless(fs, top));
    assert top > 0 ==> b[top - 1] == fs[top - 1];
    hide FrameOk, StyleOk;
    forall k | 0 <= k < |b| ensures FrameOk(b[k], m.handles) && StyleOk(b[k].style, SlotBlock(b, k), SlotIndentless(b, k)) {
      assert b[k] == fs[k] && (k > 0 ==> b[k - 1] == fs[k - 1]);
      assert FrameOk(fs[k], m.handles) && StyleOk(fs[k].style, SlotBlock(fs, k), SlotIndentless(fs, k));
    }
  }

  lemma CloseGrows(i: Inner, comma: bool, handles: map<string, string>)
    requires i.frames != [] && i.root.None? && Top(i).begun && Top(i).pending.Idle?
    ensures var c := Coll(Top(i).style, Top(i).props, Top(i).parts, comma);
            && InnerTokens(Below(i)) + Tokens(c) == InnerTokens(i) + CommaTokens(comma) + CloseTokens(Top(i).style)
            && InnerEvents(Below(i), handles) + Events(NodeOf(c, handles)) == InnerEvents(i, handles) + [CollEnd(Top(i).style)]
  {
    hide Tokens, Events, NodeOf, FrameTokens, FrameEvents, CollEnd, CommaTokens, CloseTokens;
    var f := Top(i);
    assert i.frames == Below(i).frames + [f];
    FramesSnoc(Below(i).frames, f, handles);
    ClosedTokens(f, comma);
    ClosedEvents(f, comma, handles);
  }

  lemma ClosedTokens(f: Frame, comma: bool)
    requires f.begun && f.pending.Idle?
    ensures Tokens(Coll(f.style, f.props, f.parts, comma)) == FrameTokens(f) + CommaTokens(comma) + CloseTokens(f.style)
  {
    hide PropTokens, OpenTokens, PartsTokens, CommaTokens, CloseTokens;
  }

  lemma ClosedEvents(f: Frame, comma: bool, handles: map<string, string>)
    requires f.pending.Idle?
    ensures Events(NodeOf(Coll(f.style, f.props, f.parts, comma), handles)) == FrameEvents(f, handles) + [CollEnd(f.style)]
  {
    hide BodyEvents, CollEnd, Events, NodeOf, FrameStart, CollStart;
    var c := Coll(f.style, f.props, f.parts, comma);
    CollEvents(c, handles);
    CollStartIs(f, c, handles);
  }

  lemma CollStartIs(f: Frame, c: Syntax, handles: map<string, string>)
    requires c.Coll? && c.style == f.style && c.props == f.props
    ensures FrameStart(f, handles) == CollStart(c, handles)
  {
  }

  // --- the steps of block collections

  /** The innermost collection takes a token or two and awaits a node. */
  lemma AwaitKeeps(m: Machine, i: Inner, p: Pending, ts: seq<Tok>, rest: seq<Tok>, none: bool, back: State) returns (i2: Inner)
    requires Stands(m, i) && Top(i).begun
    requires p.AwaitItem? || p.AwaitKey? || p.AwaitValue?
    requires var f := Top(i).(pending := p);
             && FrameOk(f, m.handles)
             && PendingTokens(f) == PendingTokens(Top(i)) + ts
             && PendingEvents(f, m.handles) == PendingEvents(Top(i), m.handles)
             && At(back, Fill(f, NOTHING))
    requires none && p.AwaitItem? ==> !Flow(Top(i).style)
    requires m.rest == ts + rest
    requires NodeOrEmpty(m.(rest := rest), none, back, !Flow(Top(i).style), Top(i).style.BlockMap?).Ok?
    ensures Keeps(m, i, NodeOrEmpty(m.(rest := rest), none, back, !Flow(Top(i).style), Top(i).style.BlockMap?).value, i2)
  {
    hide Keeps, FramesOk, Stacked, FrameOk, PendingTokens, PendingEvents, At, Fill, FrameTokens, FrameEvents, NodeOrEmpty;
    var f := Top(i).(pending := p);
    assert PendingEvents(f, m.handles) == PendingEvents(Top(i), m.handles) + [];
    PendingMove(Top(i), p, ts, [], m.handles);
    assert FrameEvents(f, m.handles) == FrameEvents(Top(i), m.handles) + [] == FrameEvents(Top(i), m.handles);
    var m1 := m.(rest := rest);
    StandsOnTop(m, i, f, rest);
    i2 := NodeOrEmptyKeeps(m1, none, back, OnTop(i, f));
    TakenKeeps(m, i, f, ts, m1, NodeOrEmpty(m1, none, back, !Flow(Top(i).style), Top(i).style.BlockMap?).value, i2);
  }

  lemma EntryKeeps(m: Machine, i: Inner, style: Style) returns (i2: Inner)
    requires style.BlockSeq? || style.DashSeq?
    requires Stands(m, i) && At(EntryState(style), Top(i)) && Ahead(Top(i), m.rest)
    requires StepEntry(m, style, false).Ok?
    ensures Keeps(m, i, StepEntry(m, style, false).value, i2)
  {
    hide Keeps, FramesOk, Stacked, NodeOrEmpty, Place, PartsOk, PropsOk;
    var f := Top(i);
    if m.rest != [] && m.rest[0].BlockEntry? {
      assert m.rest == [Tok.BlockEntry] + m.rest[1..];
      assert FrameOk(f.(pending := AwaitItem), m.handles) by { TopOk(m, i); }
      var absent := m.rest[1..] != [] && EndsPart(style, m.rest[1..][0]);
      i2 := AwaitKeeps(m, i, AwaitItem, [Tok.BlockEntry], m.rest[1..], absent, EntryState(style));
    } else {
      var rest := if style.BlockSeq? then m.rest[1..] else m.rest;
      assert m.rest == CommaTokens(false) + CloseTokens(style) + rest;
      CloseKeeps(m, i, false, rest);
      i2 := Place(Below(i), Coll(style, f.props, f.parts, false));
    }
  }

  lemma TopOk(m: Machine, i: Inner)
    requires Stands(m, i)
    ensures FrameOk(Top(i), m.handles)
  {
    hide FrameOk, Stacked;
  }

  lemma BlockKeyKeeps(m: Machine, i: Inner) returns (i2: Inner)
    requires Stands(m, i) && At(BlockMappingKey, Top(i))
    requires StepBlockMappingKey(m).Ok?
    ensures Keeps(m, i, StepBlockMappingKey(m).value, i2)
  {
    hide Keeps, FramesOk, Stacked, NodeOrEmpty, Place, PartsOk, PropsOk;
    var f := Top(i);
    if m.rest != [] && m.rest[0].Key? {
      assert m.rest == [Tok.Key] + m.rest[1..];
      assert FrameOk(f.(pending := AwaitKey), m.handles) by { TopOk(m, i); }
      var absent := m.rest[1..] != [] && KeyAbsent(BlockMap, m.rest[1..][0]);
      i2 := AwaitKeeps(m, i, AwaitKey, [Tok.Key], m.rest[1..], absent, BlockMappingValue);
    } else {
      assert m.rest == CommaTokens(false) + CloseTokens(BlockMap) + m.rest[1..];
      CloseKeeps(m, i, false, m.rest[1..]);
      i2 := Place(Below(i), Coll(BlockMap, f.props, f.parts, false));
    }
  }

  /** A value after its `:`, or none. */
  lemma ValueKeeps(m: Machine, i: Inner, style: Style) returns (i2: Inner)
    requires style.BlockMap? || Flow(style)
    requires Stands(m, i) && At(AfterKey(style), Top(i))
    requires StepValue(m, style).Ok?
    ensures Keeps(m, i, StepValue(m, style).value, i2)
  {
    hide Keeps, FramesOk, FrameOk, Stacked, NodeOrEmpty, StepValue, PendingTokens, PendingEvents, FrameTokens, FrameEvents;
    var f := Top(i);
    var k := f.pending.key;
    TopOk(m, i);
    ValueEquation(m, style);
    if m.rest != [] && m.rest[0].Value? {
      assert m.rest == [Tok.Value] + m.rest[1..];
      ColonMoves(f, m.handles);
      i2 := AwaitKeeps(m, i, AwaitValue(k), [Tok.Value], m.rest[1..], ValueAbsent(style, m.rest[1..]), AfterValue(style));
    } else {
      var g := Valued(f, Couple(k, None));
      UnvaluedGrows(f, m.handles);
      UnvaluedOk(f, m.handles);
      assert m.rest == [] + m.rest;
      MovedKeeps(m, i, g, [], EMPTY_SCALAR, m.(state := Some(AfterValue(style))));
      i2 := OnTop(i, g);
    }
  }

  /** Whether nothing stands after a `:`. */
  predicate ValueAbsent(style: Style, rest: seq<Tok>) {
    rest != [] && (EndsPart(style, rest[0]) || (style.BlockMap? && rest[0].Value?))
  }

  lemma ValueEquation(m: Machine, style: Style)
    requires style.BlockMap? || Flow(style)
    requires StepValue(m, style).Ok?
    ensures StepValue(m, style)
         == if m.rest != [] && m.rest[0].Value? then
              NodeOrEmpty(m.(rest := m.rest[1..]), ValueAbsent(style, m.rest[1..]), AfterValue(style), style.BlockMap?, style.BlockMap?)
            else Ok(Emitted(EMPTY_SCALAR, m.(state := Some(AfterValue(style)))))
  {
    hide NodeOrEmpty;
  }

  lemma ColonMoves(f: Frame, handles: map<string, string>)
    requires f.pending.HaveKey? && FrameOk(f, handles)
    ensures var g := f.(pending := AwaitValue(f.pending.key));
            && FrameOk(g, handles)
            && PendingTokens(g) == PendingTokens(f) + [Tok.Value]
            && PendingEvents(g, handles) == PendingEvents(f, handles)
  {
    hide PartsOk, PropsOk, PartOk, Tokens, NodeOf;
  }

  lemma UnvaluedOk(f: Frame, handles: map<string, string>)
    requires f.pending.HaveKey? && FrameOk(f, handles)
    ensures FrameOk(Valued(f, Couple(f.pending.key, None)), handles)
  {
    hide SyntaxOk, PropsOk, PartsOk;
    PartsOkSnoc(f.style, f.parts, Couple(f.pending.key, None), handles);
  }

  lemma UnvaluedGrows(f: Frame, handles: map<string, string>)
    requires f.pending.HaveKey? && (f.style.BlockMap? || Flow(f.style))
    ensures var g := Valued(f, Couple(f.pending.key, None));
            && FrameTokens(g) == FrameTokens(f) + []
            && FrameEvents(g, handles) == FrameEvents(f, handles) + [EMPTY_SCALAR]
  {
    hide FrameTokens, FrameEvents, Tokens, NodeOf, Separator, PairStart;
    var c := Couple(f.pending.key, None);
    ValuedGrows(f, c, handles);
    PendingLast(f, handles);
    assert Separator(f) + PartTokens(f.style, c) == PendingTokens(f);
    NullEvents();
    assert PairStart(f.style) + OnePairEvents(PairOf(c, handles)) == PendingEvents(f, handles) + [EMPTY_SCALAR];
  }

  // --- the steps of flow collections

  /** The `,` before an entry is the separator its tokens begin with. */
  lemma CommaTaken(m: Machine, i: Inner)
    requires i.frames != [] && Flow(Top(i).style)
    requires TakeComma(m, Top(i).parts == []).Ok?
    ensures var m1 := TakeComma(m, Top(i).parts == []).value;
            m1 == m.(rest := m1.rest) && m.rest == Separator(Top(i)) + m1.rest
  {
  }

  /** A flow collection awaits a node with no token of its own before it. */
  lemma BareKeeps(m: Machine, i: Inner, rest: seq<Tok>, back: State) returns (i2: Inner)
    requires Stands(m, i) && Top(i).begun && Top(i).pending.Idle? && Flow(Top(i).style)
    requires At(back, Fill(Top(i).(pending := AwaitItem), NOTHING))
    requires m.rest == Separator(Top(i)) + rest
    requires ParseNode(Pushed(m.(rest := rest), back), false, false).Ok?
    ensures Keeps(m, i, ParseNode(Pushed(m.(rest := rest), back), false, false).value, i2)
  {
    hide Keeps, FramesOk, Stacked, FrameOk, At, Fill, ParseNode;
    TopOk(m, i);
    IdleMoves(Top(i), m.handles);
    i2 := AwaitKeeps(m, i, AwaitItem, Separator(Top(i)), rest, false, back);
  }

  lemma IdleMoves(f: Frame, handles: map<string, string>)
    requires f.pending.Idle? && FrameOk(f, handles) && Flow(f.style)
    ensures PendingTokens(f) == [] && PendingEvents(f, handles) == []
    ensures var g := f.(pending := AwaitItem);
            FrameOk(g, handles) && PendingTokens(g) == [] + Separator(f) && PendingEvents(g, handles) == []
    ensures var g := f.(pending := AwaitKey);
            FrameOk(g, handles) && PendingTokens(g) == [] + (Separator(f) + [Tok.Key])
            && PendingEvents(g, handles) == PairStart(f.style)
    ensures var g := f.(pending := OpenPair);
            (FrameOk(g, handles) <==> f.style.FlowSeq?) && PendingTokens(g) == [] + Separator(f)
            && PendingEvents(g, handles) == [] + PairStart(f.style)
  {
    hide PartsOk, PropsOk;
  }

  lemma FlowItemKeeps(m: Machine, i: Inner) returns (i2: Inner)
    requires Stands(m, i) && Top(i).style.FlowSeq? && Top(i).begun && Top(i).pending.Idle?
    requires StepFlowSequenceEntry(m, Top(i).parts == []).Ok?
    ensures Keeps(m, i, StepFlowSequenceEntry(m, Top(i).parts == []).value, i2)
  {
    hide Keeps, FramesOk, Stacked, FrameOk, ParseNode, TakeComma, Separator, Place;
    var f := Top(i);
    if m.rest != [] && m.rest[0].FlowSequenceEnd? {
      assert m.rest == CommaTokens(false) + CloseTokens(FlowSeq) + m.rest[1..];
      CloseKeeps(m, i, false, m.rest[1..]);
      i2 := Place(Below(i), Coll(FlowSeq, f.props, f.parts, false));
    } else {
      CommaTaken(m, i);
      var m1 := TakeComma(m, f.parts == []).value;
      if m1.rest != [] && m1.rest[0].Key? {
        i2 := OpenPairKeeps(m, i, m1.rest);
      } else if m1.rest != [] && m1.rest[0].FlowSequenceEnd? {
        i2 := CommaEndKeeps(m, i, m1.rest);
      } else {
        i2 := BareKeeps(m, i, m1.rest, FlowSequenceEntry);
      }
    }
  }

  lemma OpenPairKeeps(m: Machine, i: Inner, rest: seq<Tok>) returns (i2: Inner)
    requires Stands(m, i) && Top(i).style.FlowSeq? && Top(i).begun && Top(i).pending.Idle?
    requires m.rest == Separator(Top(i)) + rest && rest != [] && rest[0].Key?
    ensures Keeps(m, i, Emitted(Event.MappingStart(None, None), m.(rest := rest, state := Some(FlowSequenceEntryMappingKey))), i2)
  {
    hide Keeps, FramesOk, Stacked, FrameOk, FrameTokens, FrameEvents, PendingTokens, PendingEvents, Separator;
    var g := Top(i).(pending := OpenPair);
    TopOk(m, i);
    IdleMoves(Top(i), m.handles);
    PendingMove(Top(i), OpenPair, Separator(Top(i)), [Event.MappingStart(None, None)], m.handles);
    MovedKeeps(m, i, g, Separator(Top(i)), Event.MappingStart(None, None), m.(rest := rest, state := Some(FlowSequenceEntryMappingKey)));
    i2 := OnTop(i, g);
  }

  /** A `,` is taken only after a part. */
  lemma PartsComma(f: Frame, ts: seq<Tok>, rest: seq<Tok>)
    requires ts == Separator(f) + rest
    ensures f.parts == [] ==> ts == rest
  {
    if f.parts == [] {
      assert [] + rest == rest;
    }
  }

  /** A `,` before the `]` or `}`. */
  lemma CommaEndKeeps(m: Machine, i: Inner, rest: seq<Tok>) returns (i2: Inner)
    requires Stands(m, i) && Flow(Top(i).style) && Top(i).begun && Top(i).pending.Idle?
    requires m.rest == Separator(Top(i)) + rest
    requires rest != [] && [rest[0]] == CloseTokens(Top(i).style) && m.rest != rest
    ensures m.states != []
    ensures Keeps(m, i, Emitted(CollEnd(Top(i).style), Returned(m, rest[1..])), i2)
  {
    hide Keeps, FramesOk, Stacked, Place, CloseTokens, CollEnd, Returned;
    var f := Top(i);
    assert f.parts != [] by { PartsComma(f, m.rest, rest); }
    assert rest == [rest[0]] + rest[1..];
    assert m.rest == CommaTokens(true) + CloseTokens(f.style) + rest[1..];
    CloseKeeps(m, i, true, rest[1..]);
    i2 := Place(Below(i), Coll(f.style, f.props, f.parts, true));
  }

  lemma FlowPairKeeps(m: Machine, i: Inner) returns (i2: Inner)
    requires Stands(m, i) && Top(i).style.FlowMap? && Top(i).begun && Top(i).pending.Idle?
    requires StepFlowMappingKey(m, Top(i).parts == []).Ok?
    ensures Keeps(m, i, StepFlowMappingKey(m, Top(i).parts == []).value, i2)
  {
    hide Keeps, FramesOk, Stacked, FrameOk, ParseNode, NodeOrEmpty, TakeComma, Separator, Place;
    var f := Top(i);
    if m.rest != [] && m.rest[0].FlowMappingEnd? {
      assert m.rest == CommaTokens(false) + CloseTokens(FlowMap) + m.rest[1..];
      CloseKeeps(m, i, false, m.rest[1..]);
      i2 := Place(Below(i), Coll(FlowMap, f.props, f.parts, false));
    } else {
      CommaTaken(m, i);
      var m1 := TakeComma(m, f.parts == []).value;
      if m1.rest != [] && m1.rest[0].Key? {
        i2 := FlowKeyKeeps(m, i, m1.rest);
      } else if m1.rest != [] && m1.rest[0].FlowMappingEnd? {
        i2 := CommaEndKeeps(m, i, m1.rest);
      } else {
        i2 := BareKeeps(m, i, m1.rest, FlowMappingEmptyValue);
      }
    }
  }

  function FlowKeyNext(m: Machine, rest: seq<Tok>): Result<Emitted>
    requires rest != []
  {
    NodeOrEmpty(m.(rest := rest[1..]), rest[1..] != [] && KeyAbsent(FlowMap, rest[1..][0]), FlowMappingValue, false, false)
  }

  lemma FlowKeyKeeps(m: Machine, i: Inner, rest: seq<Tok>) returns (i2: Inner)
    requires Stands(m, i) && Top(i).style.FlowMap? && Top(i).begun && Top(i).pending.Idle?
    requires m.rest == Separator(Top(i)) + rest && rest != [] && rest[0].Key?
    requires FlowKeyNext(m, rest).Ok?
    ensures Keeps(m, i, FlowKeyNext(m, rest).value, i2)
  {
    hide Keeps, FramesOk, Stacked, FrameOk, PendingTokens, PendingEvents, Separator, NodeOrEmpty;
    var f := Top(i);
    TopOk(m, i);
    IdleMoves(f, m.handles);
    var ts := Separator(f) + [Tok.Key];
    assert m.rest == ts + rest[1..] by {
      assert rest == [Tok.Key] + rest[1..];
    }
    i2 := AwaitKeeps(m, i, AwaitKey, ts, rest[1..], rest[1..] != [] && KeyAbsent(FlowMap, rest[1..][0]), FlowMappingValue);
  }

  // --- the steps inside a pair

  lemma OpenPairMoves(f: Frame, handles: map<string, string>)
    requires f.pending.OpenPair? && FrameOk(f, handles)
    ensures var g := f.(pending := AwaitKey);
            && FrameOk(g, handles)
            && PendingTokens(g) == PendingTokens(f) + [Tok.Key]
            && PendingEvents(g, handles) == PendingEvents(f, handles)
  {
    hide PartsOk, PropsOk;
  }

  lemma PairKeyKeeps(m: Machine, i: Inner) returns (i2: Inner)
    requires Stands(m, i) && At(FlowSequenceEntryMappingKey, Top(i)) && Ahead(Top(i), m.rest)
    requires StepFlowSequenceEntryMappingKey(m).Ok?
    ensures Keeps(m, i, StepFlowSequenceEntryMappingKey(m).value, i2)
  {
    hide Keeps, FramesOk, Stacked, FrameOk, PendingTokens, PendingEvents, NodeOrEmpty;
    var f := Top(i);
    TopOk(m, i);
    OpenPairMoves(f, m.handles);
    assert m.rest == [Tok.Key] + m.rest[1..];
    var absent := m.rest[1..] != [] && KeyAbsent(FlowSeq, m.rest[1..][0]);
    i2 := AwaitKeeps(m, i, AwaitKey, [Tok.Key], m.rest[1..], absent, FlowSequenceEntryMappingValue);
  }

  /** The end of a pair in a flow sequence, or of a key with no `:` in a flow mapping. */
  lemma FinishKeeps(m: Machine, i: Inner, p: Part, e: Event) returns (i2: Inner)
    requires Stands(m, i)
    requires match Top(i).pending
             case HavePair(c) => At(FlowSequenceEntryMappingEnd, Top(i)) && p == c && e == Event.MappingEnd
             case HaveBare(n) => At(FlowMappingEmptyValue, Top(i)) && p == Item(n) && e == EMPTY_SCALAR
             case _ => false
    ensures Keeps(m, i, Emitted(e, m.(state := Some(EntryState(Top(i).style)))), i2)
  {
    hide Keeps, FramesOk, Stacked, FrameOk, FrameTokens, FrameEvents;
    var f := Top(i);
    var g := f.(parts := f.parts + [p], pending := Idle);
    TopOk(m, i);
    FinishMoves(f, p, e, m.handles);
    assert m.rest == [] + m.rest;
    MovedKeeps(m, i, g, [], e, m.(state := Some(EntryState(f.style))));
    i2 := OnTop(i, g);
  }

  lemma FinishMoves(f: Frame, p: Part, e: Event, handles: map<string, string>)
    requires FrameOk(f, handles)
    requires match f.pending
             case HavePair(c) => f.style.FlowSeq? && p == c && e == Event.MappingEnd
             case HaveBare(n) => f.style.FlowMap? && p == Item(n) && e == EMPTY_SCALAR
             case _ => false
    ensures var g := f.(parts := f.parts + [p], pending := Idle);
            && FrameOk(g, handles)
            && FrameTokens(g) == FrameTokens(f) + []
            && FrameEvents(g, handles) == FrameEvents(f, handles) + [e]
  {
    hide FrameTokens, FrameEvents, Tokens, NodeOf, SyntaxOk, ValueOk, PropsOk, PartsOk, Separator, Events;
    var idle := f.(pending := Idle);
    PartsOkSnoc(f.style, f.parts, p, handles);
    PendingLast(f, handles);
    PartLast(idle, p, handles);
    SameSeparator(f, Idle);
    if f.pending.HavePair? {
      PairItemEvents(p, handles);
    } else {
      NullEvents();
    }
  }

  // --- any step inside a document

  /** A collection's first step: its start token, then its first entry or its end. */
  lemma FirstKeeps(m: Machine, i: Inner, style: Style) returns (i2: Inner)
    requires Stands(m, i) && At(FirstState(style), Top(i)) && !style.DashSeq? && Ahead(Top(i), m.rest)
    requires Step(m, FirstState(style)).Ok?
    ensures Keeps(m, i, Step(m, FirstState(style)).value, i2)
  {
    hide Keeps, FramesOk, Stacked, Step, StepBlockSequenceEntry, StepIndentlessSequenceEntry, StepBlockMappingKey,
         StepFlowSequenceEntry, StepFlowMappingKey, FrameTokens, FrameEvents, PartsOk, PropsOk;
    var f := Top(i).(begun := true);
    var inner := m.rest[1..];
    assert m.rest == OpenTokens(style) + inner;
    var m1 := m.(rest := inner);
    StepIsFirst(m, style, inner);
    assert FrameOk(f, m.handles) by { TopOk(m, i); }
    StandsOnTop(m, i, f, inner);
    OpenTaken(Top(i), m.handles);
    match style {
      case BlockSeq => i2 := EntryKeeps(m1, OnTop(i, f), style);
      case BlockMap => i2 := BlockKeyKeeps(m1, OnTop(i, f));
      case FlowSeq => i2 := FlowItemKeeps(m1, OnTop(i, f));
      case FlowMap => i2 := FlowPairKeeps(m1, OnTop(i, f));
    }
    TakenKeeps(m, i, f, OpenTokens(style), m1, Step(m, FirstState(style)).value, i2);
  }

  lemma FitsStands(m: Machine, s: State, i: Inner)
    requires Fits(m, s, i) && !s.DocumentEndState? && !s.DocumentContent? && !s.BlockNode?
    ensures Stands(m, i) && At(s, Top(i)) && Ahead(Top(i), m.rest)
  {
    hide FramesOk, Stacked, At, Ahead;
  }

  /** The states of block collections. */
  lemma BlockStepKeeps(m: Machine, s: State, i: Inner) returns (i2: Inner)
    requires Fits(m, s, i) && Step(m, s).Ok?
    requires s.BlockSequenceFirstEntry? || s.BlockSequenceEntry? || s.IndentlessSequenceEntry?
          || s.BlockMappingFirstKey? || s.BlockMappingKey? || s.BlockMappingValue?
    ensures Keeps(m, i, Step(m, s).value, i2)
  {
    hide Keeps, Fits, Stands, At, Ahead, Step, StepBlockSequenceEntry, StepIndentlessSequenceEntry, StepBlockMappingKey,
         StepFlowSequenceEntry, StepFlowMappingKey, StepBlockMappingValue;
    FitsStands(m, s, i);
    match s
    case BlockSequenceFirstEntry => i2 := FirstKeeps(m, i, BlockSeq);
    case BlockSequenceEntry => StepIsEntry(m, BlockSeq); i2 := EntryKeeps(m, i, BlockSeq);
    case IndentlessSequenceEntry => StepIsEntry(m, DashSeq); i2 := EntryKeeps(m, i, DashSeq);
    case BlockMappingFirstKey => i2 := FirstKeeps(m, i, BlockMap);
    case BlockMappingKey => StepIsEntry(m, BlockMap); i2 := BlockKeyKeeps(m, i);
    case BlockMappingValue => StepIsValue(m, BlockMap); i2 := ValueKeeps(m, i, BlockMap);
  }

  lemma AtFlow(s: State, f: Frame)
    requires At(s, f)
    ensures s.FlowSequenceEntry? ==> f.style.FlowSeq? && f.begun && f.parts != [] && f.pending.Idle?
    ensures s.FlowMappingKey? ==> f.style.FlowMap? && f.begun && f.parts != [] && f.pending.Idle?
    ensures s.FlowSequenceEntryMappingEnd? ==> f.style.FlowSeq? && f.pending.HavePair?
    ensures s.FlowMappingEmptyValue? ==> f.style.FlowMap? && f.pending.HaveBare?
  {
  }

  lemma FlowSteps(m: Machine)
    ensures Step(m, FlowSequenceEntry) == StepFlowSequenceEntry(m, false)
    ensures Step(m, FlowMappingKey) == StepFlowMappingKey(m, false)
    ensures Step(m, FlowSequenceEntryMappingKey) == StepFlowSequenceEntryMappingKey(m)
    ensures Step(m, FlowSequenceEntryMappingEnd) == Ok(Emitted(Event.MappingEnd, m.(state := Some(FlowSequenceEntry))))
    ensures Step(m, FlowMappingEmptyValue) == Ok(Emitted(EMPTY_SCALAR, m.(state := Some(FlowMappingKey))))
  {
    hide StepFlowSequenceEntry, StepFlowMappingKey, StepFlowSequenceEntryMappingKey;
  }

  /** The states of flow collections. */
  lemma FlowStepKeeps(m: Machine, s: State, i: Inner) returns (i2: Inner)
    requires Fits(m, s, i) && Step(m, s).Ok?
    requires s.FlowSequenceFirstEntry? || s.FlowSequenceEntry? || s.FlowSequenceEntryMappingKey? || s.FlowSequenceEntryMappingValue?
          || s.FlowSequenceEntryMappingEnd? || s.FlowMappingFirstKey? || s.FlowMappingKey? || s.FlowMappingValue? || s.FlowMappingEmptyValue?
    ensures Keeps(m, i, Step(m, s).value, i2)
  {
    hide Keeps, Fits, Stands, At, Ahead, Step, StepFlowSequenceEntry, StepFlowMappingKey, StepFlowSequenceEntryMappingKey,
         StepFlowSequenceEntryMappingValue, StepFlowMappingValue;
    FitsStands(m, s, i);
    assert i.frames != [] by { StandsFrames(m, i); }
    AtFlow(s, Top(i));
    FlowSteps(m);
    match s
    case FlowSequenceFirstEntry => i2 := FirstKeeps(m, i, FlowSeq);
    case FlowSequenceEntry => i2 := FlowItemKeeps(m, i);
    case FlowSequenceEntryMappingKey => i2 := PairKeyKeeps(m, i);
    case FlowSequenceEntryMappingValue => StepIsValue(m, FlowSeq); i2 := ValueKeeps(m, i, FlowSeq);
    case FlowSequenceEntryMappingEnd => i2 := FinishKeeps(m, i, Top(i).pending.couple, Event.MappingEnd);
    case FlowMappingFirstKey => i2 := FirstKeeps(m, i, FlowMap);
    case FlowMappingKey => i2 := FlowPairKeeps(m, i);
    case FlowMappingValue => StepIsValue(m, FlowMap); i2 := ValueKeeps(m, i, FlowMap);
    case FlowMappingEmptyValue => i2 := FinishKeeps(m, i, Item(Top(i).pending.node), EMPTY_SCALAR);
  }

  lemma StandsFrames(m: Machine, i: Inner)
    requires Stands(m, i)
    ensures i.frames != []
  {
  }

  /** The root of a document, or nothing after its `---`. */
  lemma RootStepKeeps(m: Machine, s: State, i: Inner) returns (i2: Inner)
    requires Fits(m, s, i) && Step(m, s).Ok?
    requires s.DocumentContent? || s.BlockNode?
    ensures Keeps(m, i, Step(m, s).value, i2)
    ensures s.BlockNode? && i2.root.Some? ==> i2.root.value != NOTHING
  {
    assert i.frames == [] && Waits(m, i) && !(s.DocumentEndState?);
    assert SlotBlock(i.frames, |i.frames|) && !SlotIndentless(i.frames, |i.frames|);
    hide Keeps, Fits, Waits, Step, ParseNode, SlotBlock, SlotIndentless, Place, SlotOk, Tokens, Events, NodeOf;
    DocumentStates(m);
    if s.DocumentContent? && m.rest != [] && EndsRoot(m.rest[0]) {
      WaitsStates(m, i);
      RootNothing(i, m.handles);
      i2 := NothingKeeps(m, i);
    } else {
      i2 := ParseNodeKeeps(m, i);
    }
  }

  /** An empty node, put where one is awaited. */
  lemma NothingKeeps(m: Machine, i: Inner) returns (i2: Inner)
    requires Waits(m, i) && m.states != [] && SlotOk(i, NOTHING, m.handles)
    ensures Keeps(m, i, Emitted(EMPTY_SCALAR, Returned(m, m.rest)), i2)
    ensures i2 == Place(i, NOTHING)
  {
    hide Keeps, Waits, SlotOk, Place;
    assert Tokens(NOTHING) == [] by { NothingIsNoTokens(); }
    assert m.rest == Tokens(NOTHING) + m.rest;
    assert Events(NodeOf(NOTHING, m.handles)) == [EMPTY_SCALAR] by { NothingIsNull(m.handles); NullEvents(); }
    hide Tokens, Events, NodeOf;
    PlaceKeeps(m, i, NOTHING, EMPTY_SCALAR, m.rest);
    i2 := Place(i, NOTHING);
  }

  lemma RootNothing(i: Inner, handles: map<string, string>)
    requires i.frames == []
    ensures SlotOk(i, NOTHING, handles)
  {
  }

  // --- whole streams

  /** What a run has read so far. */
  datatype Ctx =
    | Fresh
    | Between(first: Tok, docs: seq<Doc>)
    | Inside(first: Tok, docs: seq<Doc>, header: Option<seq<Directive>>, inner: Inner)
    | Closed(first: Tok, docs: seq<Doc>)

  function CtxTokens(c: Ctx): seq<Tok> {
    match c
    case Fresh => []
    case Between(first, docs) => [first] + DocsTokens(docs)
    case Inside(first, docs, header, inner) => [first] + DocsTokens(docs) + (HeaderTokens(header) + InnerTokens(inner))
    case Closed(first, docs) => [first] + DocsTokens(docs) + [Tok.StreamEnd]
  }

  function CtxEvents(c: Ctx): seq<Event> {
    match c
    case Fresh => []
    case Between(_, docs) => [Event.StreamStart] + DocumentEvents(DocNodes(docs))
    case Inside(_, docs, header, inner) =>
      [Event.StreamStart] + DocumentEvents(DocNodes(docs)) + ([Event.DocumentStart] + InnerEvents(inner, HandlesOf(header)))
    case Closed(_, docs) => StreamEvents(DocNodes(docs))
  }

  /** What has been read, and the parser, agree. */
  predicate Agrees(m: Machine, c: Ctx) {
    match c
    case Fresh => m.state == Some(StreamStartState) && m.states == []
    case Between(_, docs) =>
      && m.states == [] && DocsOk(docs)
      && m.state == Some(if docs == [] then ImplicitDocumentStart else DocumentStartState)
    case Inside(_, docs, header, inner) =>
      && m.state.Some? && DocsOk(docs) && HeaderOk(header) && m.handles == HandlesOf(header)
      && Fits(m, m.state.value, inner)
      && (header.None? ==> docs == [] && !m.state.value.DocumentContent? && (inner.root.Some? ==> inner.root.value != NOTHING))
    case Closed(_, docs) => m.state.None? && DocsOk(docs)
  }

  /** One more event, and the tokens it took, in what has been read. */
  predicate Advances(m: Machine, c: Ctx, r: Emitted, c2: Ctx) {
    && Agrees(r.next, c2)
    && CtxTokens(c2) + r.next.rest == CtxTokens(c) + m.rest
    && CtxEvents(c2) == CtxEvents(c) + [r.event]
  }

  /** A step inside a document leaves it inside, past its beginning. */
  lemma KeepsInside(m: Machine, i: Inner, r: Emitted, i2: Inner)
    requires Keeps(m, i, r, i2)
    ensures r.next.state.Some? && !r.next.state.value.DocumentContent? && !r.next.state.value.BlockNode?
    ensures r.next.handles == m.handles && Fits(r.next, r.next.state.value, i2)
    ensures i.frames != [] && i2.root.Some? ==> i2.root.value.Coll?
  {
    hide InnerTokens, FramesOk, Stacked, At, Ahead;
    assert InnerEvents(i2, m.handles) != [];
  }

  lemma InnerAdvances(m: Machine, c: Ctx, r: Emitted, i2: Inner)
    requires c.Inside? && Agrees(m, c) && Keeps(m, c.inner, r, i2)
    requires !m.state.value.DocumentEndState?
    requires m.state.value.BlockNode? && i2.root.Some? ==> i2.root.value != NOTHING
    ensures Advances(m, c, r, c.(inner := i2))
  {
    InnerAgrees(m, c, r, i2);
    InnerGrows(m, c, r, i2);
    hide Agrees, CtxTokens, CtxEvents;
  }

  lemma InnerAgrees(m: Machine, c: Ctx, r: Emitted, i2: Inner)
    requires c.Inside? && Agrees(m, c) && Keeps(m, c.inner, r, i2)
    requires !m.state.value.DocumentEndState?
    requires m.state.value.BlockNode? && i2.root.Some? ==> i2.root.value != NOTHING
    ensures Agrees(r.next, c.(inner := i2))
  {
    hide Keeps, Fits, HandlesOf, HeaderOk, DocsOk;
    KeepsInside(m, c.inner, r, i2);
    if c.header.None? && i2.root.Some? && c.inner.frames == [] {
      FitsRoot(m, m.state.value, c.inner);
    }
  }

  lemma InnerGrows(m: Machine, c: Ctx, r: Emitted, i2: Inner)
    requires c.Inside? && Agrees(m, c) && Keeps(m, c.inner, r, i2)
    ensures CtxTokens(c.(inner := i2)) + r.next.rest == CtxTokens(c) + m.rest
    ensures CtxEvents(c.(inner := i2)) == CtxEvents(c) + [r.event]
  {
    hide *;
    AgreesHandles(m, c);
    KeepsGrows(m, c.inner, r, i2);
    InsideSpelled(c, i2);
    InsideSpelled(c, c.inner);
    MoreInside([c.first] + DocsTokens(c.docs), HeaderTokens(c.header), InnerTokens(i2), r.next.rest, InnerTokens(c.inner), m.rest);
    MoreInside([Event.StreamStart] + DocumentEvents(DocNodes(c.docs)), [Event.DocumentStart], InnerEvents(i2, m.handles), [],
               InnerEvents(c.inner, m.handles), [r.event]);
    var es := CtxEvents(c.(inner := i2));
    assert es + [] == es && InnerEvents(i2, m.handles) + [] == InnerEvents(i2, m.handles);
  }

  lemma KeepsGrows(m: Machine, i: Inner, r: Emitted, i2: Inner)
    requires Keeps(m, i, r, i2)
    ensures InnerTokens(i2) + r.next.rest == InnerTokens(i) + m.rest
    ensures InnerEvents(i2, m.handles) == InnerEvents(i, m.handles) + [r.event]
  {
    hide Fits, InnerTokens, InnerEvents;
  }

  lemma InsideSpelled(c: Ctx, i: Inner)
    requires c.Inside?
    ensures CtxTokens(c.(inner := i)) == [c.first] + DocsTokens(c.docs) + (HeaderTokens(c.header) + InnerTokens(i))
    ensures CtxEvents(c.(inner := i))
         == [Event.StreamStart] + DocumentEvents(DocNodes(c.docs)) + ([Event.DocumentStart] + InnerEvents(i, HandlesOf(c.header)))
    ensures i == c.inner ==> c.(inner := i) == c
  {
    hide InnerTokens, InnerEvents, DocsTokens, DocNodes, HeaderTokens, HandlesOf;
  }

  lemma MoreInside<T>(head: seq<T>, mid: seq<T>, a: seq<T>, b: seq<T>, c: seq<T>, d: seq<T>)
    requires a + b == c + d
    ensures head + (mid + a) + b == head + (mid + c) + d
  {
    assert head + (mid + a) + b == head + (mid + (a + b));
    assert head + (mid + c) + d == head + (mid + (c + d));
  }

  lemma AgreesHandles(m: Machine, c: Ctx)
    requires c.Inside? && Agrees(m, c)
    ensures m.handles == HandlesOf(c.header) && m.state.Some? && Fits(m, m.state.value, c.inner)
  {
    hide Fits, DocsOk, HeaderOk, HandlesOf;
  }

  lemma FitsRoot(m: Machine, s: State, i: Inner)
    requires Fits(m, s, i) && i.frames == []
    ensures s.DocumentEndState? || s.DocumentContent? || s.BlockNode?
    ensures s.DocumentEndState? <==> i.root.Some?
  {
    hide FramesOk, SyntaxOk, Stacked;
  }

  /** The parser's `...` lines are those a document ends with. */
  lemma EndsTaken(m: Machine) returns (ends: nat)
    ensures m.rest == EndTokens(ends) + SkipDocumentEnds(m).rest
    ensures var r := SkipDocumentEnds(m).rest; r == [] || !r[0].DocumentEnd?
    decreases |m.rest|
  {
    if m.rest != [] && m.rest[0].DocumentEnd? {
      ends := EndsTaken(m.(rest := m.rest[1..]));
      assert m.rest == [Tok.DocumentEnd] + m.rest[1..];
      ends := ends + 1;
    } else {
      ends := 0;
    }
  }

  lemma {:induction false} EndTokensConcat(a: nat, b: nat)
    ensures EndTokens(a + b) == EndTokens(a) + EndTokens(b)
    decreases a
  {
    if a > 0 {
      EndTokensConcat(a - 1, b);
      assert EndTokens(a + b) == [Tok.DocumentEnd] + EndTokens(a - 1 + b);
    }
  }

  /** More `...` lines after the last document. */
  function MoreEnds(docs: seq<Doc>, ends: nat): seq<Doc>
    requires docs != []
  {
    var last := docs[|docs| - 1];
    docs[..|docs| - 1] + [last.(ends := last.ends + ends)]
  }

  lemma MoreEndsTokens(docs: seq<Doc>, ends: nat)
    requires docs != []
    ensures DocsTokens(MoreEnds(docs, ends)) == DocsTokens(docs) + EndTokens(ends)
    ensures DocNodes(MoreEnds(docs, ends)) == DocNodes(docs)
    ensures DocsOk(docs) ==> DocsOk(MoreEnds(docs, ends))
  {
    hide DocTokens, DocsTokens, DocNodes, NodeOf, DocOk, EndTokens;
    var init, last := docs[..|docs| - 1], docs[|docs| - 1];
    var d := last.(ends := last.ends + ends);
    assert docs == init + [last];
    DocsTokensSnoc(init, last);
    DocsTokensSnoc(init, d);
    DocNodesSnoc(init, last);
    DocNodesSnoc(init, d);
    EndsLater(last, ends);
    assert DocsTokens(init) + (DocTokens(last) + EndTokens(ends)) == DocsTokens(init) + DocTokens(last) + EndTokens(ends);
    if DocsOk(docs) {
      forall k | 0 <= k < |docs| ensures DocOk(MoreEnds(docs, ends)[k], k == 0) {
        assert DocOk(docs[k], k == 0);
        EndsOk(docs[k], ends, k == 0);
      }
    }
  }

  lemma EndsLater(d: Doc, ends: nat)
    ensures DocTokens(d.(ends := d.ends + ends)) == DocTokens(d) + EndTokens(ends)
  {
    EndTokensConcat(d.ends, ends);
    hide HeaderTokens, Tokens, EndTokens;
  }

  lemma EndsOk(d: Doc, ends: nat, first: bool)
    requires DocOk(d, first)
    ensures DocOk(d.(ends := d.ends + ends), first)
  {
    hide SyntaxOk, HeaderOk;
  }

  /** The directives a document was read with. */
  lemma DirectivesTaken(m: Machine, version: bool) returns (ds: seq<Directive>)
    requires TakeDirectives(m, version).Ok?
    ensures var n := TakeDirectives(m, version).value;
            && n == m.(rest := n.rest, handles := Declared(ds, m.handles))
            && m.rest == DirectiveTokens(ds) + n.rest
            && DirectivesOk(ds, m.handles, version)
    decreases |m.rest|
  {
    if m.rest != [] && m.rest[0].DirectiveTok? {
      var d := m.rest[0].directive;
      var m1 := m.(rest := m.rest[1..]);
      var tail: seq<Directive>;
      match d {
        case YamlDirective(_) => tail := DirectivesTaken(m1, true);
        case TagDirective(h, p) => tail := DirectivesTaken(m1.(handles := m.handles[h := p]), version);
        case OtherDirective => tail := DirectivesTaken(m1, version);
      }
      ds := [d] + tail;
      assert ds[1..] == tail;
      assert m.rest == [m.rest[0]] + m.rest[1..];
    } else {
      ds := [];
    }
  }

  /** A document finished after those before it. */
  lemma DocAdded(docs: seq<Doc>, d: Doc)
    requires DocsOk(docs) && DocOk(d, docs == [])
    ensures DocsOk(docs + [d])
    ensures DocsTokens(docs + [d]) == DocsTokens(docs) + (HeaderTokens(d.header) + Tokens(d.root) + EndTokens(d.ends))
    ensures DocumentEvents(DocNodes(docs + [d]))
         == DocumentEvents(DocNodes(docs)) + ([Event.DocumentStart] + Events(NodeOf(d.root, HandlesOf(d.header))) + [Event.DocumentEnd])
  {
    hide Tokens, NodeOf, SyntaxOk, HandlesOf, HeaderTokens, HeaderOk, Events, EndTokens;
    var n := NodeOf(d.root, HandlesOf(d.header));
    DocsTokensSnoc(docs, d);
    DocNodesSnoc(docs, d);
    DocumentEventsConcat(DocNodes(docs), [n]);
    assert [n][1..] == [];
    assert DocumentEvents([n]) == [Event.DocumentStart] + Events(n) + [Event.DocumentEnd] + DocumentEvents([]);
  }

  lemma RootDone(m: Machine, c: Ctx)
    requires Agrees(m, c) && c.Inside? && m.state == Some(DocumentEndState)
    ensures c.inner.root.Some? && m.states == [] && DocsOk(c.docs)
    ensures forall ends: nat :: DocOk(Doc(c.header, c.inner.root.value, ends), c.docs == [])
    ensures InnerTokens(c.inner) == Tokens(c.inner.root.value)
    ensures InnerEvents(c.inner, HandlesOf(c.header)) == Events(NodeOf(c.inner.root.value, HandlesOf(c.header)))
  {
    hide SyntaxOk, HandlesOf, HeaderOk, Tokens, NodeOf, Events, DocsOk;
  }

  lemma DocumentEndIs(m: Machine)
    requires m.states == [] && StepDocumentEnd(m).Ok?
    ensures var marked := m.rest != [] && m.rest[0].DocumentEnd?;
            var rest := if marked then m.rest[1..] else m.rest;
            && StepDocumentEnd(m) == Ok(Emitted(Event.DocumentEnd, m.(state := Some(DocumentStartState), rest := rest)))
            && EndTokens(if marked then 1 else 0) + rest == m.rest
  {
    assert EndTokens(1) == [Tok.DocumentEnd] + EndTokens(0);
  }

  lemma Regroup<T>(a: seq<T>, b: seq<T>, c: seq<T>, d: seq<T>, e: seq<T>)
    ensures a + (b + (c + d)) + e == a + b + c + (d + e)
  {
  }

  /** The end of a document's node, and a `...` after it or not. */
  lemma DocumentEndAdvances(m: Machine, c: Ctx) returns (c2: Ctx)
    requires Agrees(m, c) && c.Inside? && m.state == Some(DocumentEndState)
    requires StepDocumentEnd(m).Ok?
    ensures Advances(m, c, StepDocumentEnd(m).value, c2)
  {
    hide EndTokens, Tokens, NodeOf, Events, DocOk, HandlesOf, HeaderTokens, HeaderOk, DocsTokens, DocNodes, DocumentEvents,
         InnerTokens, InnerEvents, DocsOk, Fits, StepDocumentEnd, Agrees, CtxTokens, CtxEvents;
    RootDone(m, c);
    var d := Doc(c.header, c.inner.root.value, if m.rest != [] && m.rest[0].DocumentEnd? then 1 else 0);
    c2 := Between(c.first, c.docs + [d]);
    DocAdded(c.docs, d);
    DocumentEndIs(m);
    var r := StepDocumentEnd(m).value;
    assert Agrees(r.next, c2) by { BetweenAgrees(r.next, c2); }
    BetweenIs(c2);
    InsideIs(c);
    Regroup([c.first], DocsTokens(c.docs), HeaderTokens(d.header) + Tokens(d.root), EndTokens(d.ends), r.next.rest);
  }

  lemma BetweenAgrees(m: Machine, c: Ctx)
    requires c.Between? && m.states == [] && DocsOk(c.docs)
    requires m.state == Some(if c.docs == [] then ImplicitDocumentStart else DocumentStartState)
    ensures Agrees(m, c)
  {
    hide DocsOk;
  }

  lemma BetweenIs(c: Ctx)
    requires c.Between?
    ensures CtxTokens(c) == [c.first] + DocsTokens(c.docs)
    ensures CtxEvents(c) == [Event.StreamStart] + DocumentEvents(DocNodes(c.docs))
  {
    hide DocsTokens, DocNodes, DocumentEvents;
  }

  lemma InsideIs(c: Ctx)
    requires c.Inside?
    ensures CtxTokens(c) == [c.first] + DocsTokens(c.docs) + (HeaderTokens(c.header) + InnerTokens(c.inner))
    ensures CtxEvents(c) == [Event.StreamStart] + DocumentEvents(DocNodes(c.docs))
                            + ([Event.DocumentStart] + InnerEvents(c.inner, HandlesOf(c.header)))
  {
    hide DocsTokens, DocNodes, DocumentEvents, HeaderTokens, InnerTokens, InnerEvents, HandlesOf;
  }

  lemma ClosedIs(c: Ctx)
    requires c.Closed?
    ensures CtxTokens(c) == [c.first] + DocsTokens(c.docs) + [Tok.StreamEnd]
    ensures CtxEvents(c) == [Event.StreamStart] + DocumentEvents(DocNodes(c.docs)) + [Event.StreamEnd]
  {
    hide DocsTokens, DocNodes, DocumentEvents;
  }

  /** The documents so far, the `...` lines now skipped put after the last. */
  lemma EndsAdded(m: Machine, docs: seq<Doc>) returns (all: seq<Doc>, ends: seq<Tok>)
    requires DocsOk(docs)
    requires docs == [] ==> m.rest == [] || !m.rest[0].DocumentEnd?
    ensures m.rest == ends + SkipDocumentEnds(m).rest
    ensures DocsTokens(all) == DocsTokens(docs) + ends
    ensures DocNodes(all) == DocNodes(docs) && DocsOk(all) && (all == [] <==> docs == [])
  {
    hide EndTokens, SkipDocumentEnds, DocsTokens, DocNodes, DocsOk;
    var n := EndsTaken(m);
    ends := EndTokens(n);
    if docs == [] {
      NoEnds(m, n);
      NoEndTokens();
      all := docs;
    } else {
      MoreEndsTokens(docs, n);
      all := MoreEnds(docs, n);
    }
  }

  lemma BetweenFacts(m: Machine, c: Ctx)
    requires Agrees(m, c) && c.Between?
    ensures DocsOk(c.docs) && m.states == []
  {
    hide DocsOk;
  }

  lemma StreamEndAdvances(m: Machine, c: Ctx, docs: seq<Doc>, ends: seq<Tok>) returns (c2: Ctx)
    requires c.Between? && DocsOk(docs)
    requires m.rest == ends + SkipDocumentEnds(m).rest
    requires DocsTokens(docs) == DocsTokens(c.docs) + ends && DocNodes(docs) == DocNodes(c.docs)
    requires var rest := SkipDocumentEnds(m).rest; rest != [] && rest[0].StreamEnd?
    ensures StepDocumentStart(m).Ok?
    ensures Advances(m, c, StepDocumentStart(m).value, c2)
  {
    hide StepDocumentStart, SkipDocumentEnds, DocsTokens, DocNodes, DocumentEvents, CtxTokens, CtxEvents, Agrees, DocsOk;
    c2 := Closed(c.first, docs);
    BetweenIs(c);
    ClosedIs(c2);
    StartEnds(m);
    var rest := SkipDocumentEnds(m).rest;
    ClosedAgrees(StepDocumentStart(m).value.next, c2);
    assert rest == [Tok.StreamEnd] + rest[1..];
    assert [c.first] + (DocsTokens(c.docs) + ends) + [Tok.StreamEnd] + rest[1..] == [c.first] + DocsTokens(c.docs) + (ends + rest);
  }

  lemma HeaderAdvances(m: Machine, c: Ctx, docs: seq<Doc>, ends: seq<Tok>) returns (c2: Ctx)
    requires c.Between? && DocsOk(docs) && m.states == []
    requires m.rest == ends + SkipDocumentEnds(m).rest
    requires DocsTokens(docs) == DocsTokens(c.docs) + ends && DocNodes(docs) == DocNodes(c.docs)
    requires var rest := SkipDocumentEnds(m).rest; !(rest != [] && rest[0].StreamEnd?)
    requires StepDocumentStart(m).Ok?
    ensures Advances(m, c, StepDocumentStart(m).value, c2)
  {
    hide StepDocumentStart, SkipDocumentEnds, DocsTokens, DocNodes, HandlesOf, HeaderTokens, InnerTokens, InnerEvents, HeaderOk,
         DocumentEvents, CtxTokens, CtxEvents, Agrees, DocsOk;
    var ds := StartHeader(m);
    c2 := Inside(c.first, docs, Some(ds), Inner(None, []));
    var r := StepDocumentStart(m).value;
    assert [DocumentEndState] == m.states + [DocumentEndState];
    NewAgrees(r.next, c2);
    BetweenIs(c);
    InsideIs(c2);
    var h := HeaderTokens(Some(ds));
    assert [c.first] + (DocsTokens(c.docs) + ends) + (h + []) + r.next.rest
        == [c.first] + DocsTokens(c.docs) + (ends + (h + r.next.rest));
  }

  /** Between documents: the end of the stream, or the next document's `---`. */
  lemma DocumentStartAdvances(m: Machine, c: Ctx) returns (c2: Ctx)
    requires Agrees(m, c) && c.Between?
    requires c.docs == [] ==> m.rest == [] || !m.rest[0].DocumentEnd?
    requires StepDocumentStart(m).Ok?
    ensures Advances(m, c, StepDocumentStart(m).value, c2)
  {
    hide StepDocumentStart, SkipDocumentEnds, DocsTokens, DocNodes, Advances, Agrees, DocsOk;
    BetweenFacts(m, c);
    var docs, ends := EndsAdded(m, c.docs);
    var rest := SkipDocumentEnds(m).rest;
    if rest != [] && rest[0].StreamEnd? {
      c2 := StreamEndAdvances(m, c, docs, ends);
    } else {
      c2 := HeaderAdvances(m, c, docs, ends);
    }
  }

  lemma ClosedAgrees(m: Machine, c: Ctx)
    requires c.Closed? && m.state.None? && DocsOk(c.docs)
    ensures Agrees(m, c)
  {
    hide DocsOk;
  }

  lemma NewAgrees(m: Machine, c: Ctx)
    requires c.Inside? && c.header.Some? && c.inner == Inner(None, [])
    requires m.state == Some(DocumentContent) && m.states == [DocumentEndState]
    requires DocsOk(c.docs) && HeaderOk(c.header) && m.handles == HandlesOf(c.header)
    ensures Agrees(m, c)
    ensures InnerTokens(c.inner) == [] && InnerEvents(c.inner, HandlesOf(c.header)) == []
  {
    hide DocsOk, HeaderOk, HandlesOf, Fits;
    ContentFits(m, c.inner);
  }

  lemma NoEnds(m: Machine, ends: nat)
    requires m.rest == EndTokens(ends) + SkipDocumentEnds(m).rest
    requires m.rest == [] || !m.rest[0].DocumentEnd?
    ensures ends == 0
  {
    hide SkipDocumentEnds;
  }

  lemma NoEndTokens()
    ensures EndTokens(0) == []
  {
  }

  lemma StartEnds(m: Machine)
    requires var m1 := SkipDocumentEnds(m); m1.rest != [] && m1.rest[0].StreamEnd?
    ensures var m1 := SkipDocumentEnds(m);
            StepDocumentStart(m) == Ok(Emitted(Event.StreamEnd, m1.(rest := m1.rest[1..], state := None)))
  {
    hide SkipDocumentEnds, TakeDirectives;
  }

  lemma StartHeader(m: Machine) returns (ds: seq<Directive>)
    requires StepDocumentStart(m).Ok?
    requires var m1 := SkipDocumentEnds(m); !(m1.rest != [] && m1.rest[0].StreamEnd?)
    ensures HeaderOk(Some(ds))
    ensures var r := StepDocumentStart(m).value;
            && r.event == Event.DocumentStart
            && SkipDocumentEnds(m).rest == HeaderTokens(Some(ds)) + r.next.rest
            && r.next == m.(rest := r.next.rest, handles := HandlesOf(Some(ds)), states := m.states + [DocumentEndState], state := Some(DocumentContent))
  {
    hide SkipDocumentEnds, TakeDirectives;
    var m1 := SkipDocumentEnds(m).(handles := map[]);
    ds := DirectivesTaken(m1, false);
    var m2 := TakeDirectives(m1, false).value;
    assert m2.rest == [Tok.DocumentStart] + m2.rest[1..];
    assert DirectiveTokens(ds) + ([Tok.DocumentStart] + m2.rest[1..]) == HeaderTokens(Some(ds)) + m2.rest[1..];
  }

  lemma ContentFits(m: Machine, i: Inner)
    requires i == Inner(None, []) && m.states == [DocumentEndState]
    ensures Fits(m, DocumentContent, i) && Fits(m, BlockNode, i)
  {
  }

  lemma ImplicitAdvances(m: Machine, c: Ctx) returns (c2: Ctx)
    requires Agrees(m, c) && c.Between? && c.docs == []
    requires StepImplicitDocumentStart(m).Ok?
    ensures Advances(m, c, StepImplicitDocumentStart(m).value, c2)
  {
    if m.rest != [] && (m.rest[0].DirectiveTok? || m.rest[0].DocumentStart? || m.rest[0].StreamEnd?) {
      hide StepDocumentStart, Agrees, Advances;
      c2 := DocumentStartAdvances(m, c);
    } else {
      hide StepDocumentStart, DocsTokens, DocNodes, DocOk, Fits;
      var inner := Inner(None, []);
      c2 := Inside(c.first, [], None, inner);
      var r := StepImplicitDocumentStart(m).value;
      assert r.next.states == [DocumentEndState];
      ContentFits(r.next, inner);
      assert InnerTokens(inner) == [] && InnerEvents(inner, DEFAULT_TAGS) == [];
    }
  }

  /** Every step of every run: what has been read stays grammatical. */
  lemma StepAdvances(m: Machine, s: State, c: Ctx) returns (c2: Ctx)
    requires Agrees(m, c) && m.state == Some(s) && Step(m, s).Ok?
    ensures Advances(m, c, Step(m, s).value, c2)
  {
    hide Step, Advances, Fits, Keeps, DocsOk, HeaderOk, HandlesOf, StepDocumentStart, StepImplicitDocumentStart, StepDocumentEnd,
         StepStreamStart, StepDocumentContent, ParseNode;
    DocumentStates(m);
    match c
    case Fresh =>
      c2 := StreamStartAdvances(m);
    case Between(_, docs) =>
      if docs == [] {
        c2 := ImplicitAdvances(m, c);
      } else {
        c2 := DocumentStartAdvances(m, c);
      }
    case Inside(_, _, _, inner) =>
      if s.DocumentEndState? {
        c2 := DocumentEndAdvances(m, c);
      } else {
        var i2: Inner;
        AgreesHandles(m, c);
        NoOtherState(m, s, inner);
        if s.DocumentContent? || s.BlockNode? {
          i2 := RootStepKeeps(m, s, inner);
        } else if Blocky(s) {
          i2 := BlockStepKeeps(m, s, inner);
        } else {
          i2 := FlowStepKeeps(m, s, inner);
        }
        InnerAdvances(m, c, Step(m, s).value, i2);
        c2 := c.(inner := i2);
      }
    case Closed(_, _) => assert false;
  }

  predicate Blocky(s: State) {
    || s.BlockSequenceFirstEntry? || s.BlockSequenceEntry? || s.IndentlessSequenceEntry?
    || s.BlockMappingFirstKey? || s.BlockMappingKey? || s.BlockMappingValue?
  }

  lemma NoOtherState(m: Machine, s: State, i: Inner)
    requires Fits(m, s, i)
    ensures !s.StreamStartState? && !s.ImplicitDocumentStart? && !s.DocumentStartState?
  {
    hide FramesOk, Stacked, Ahead;
  }

  lemma StreamStartAdvances(m: Machine) returns (c2: Ctx)
    requires Agrees(m, Fresh) && StepStreamStart(m).Ok?
    ensures Advances(m, Fresh, StepStreamStart(m).value, c2)
  {
    c2 := Between(m.rest[0], []);
  }
}
