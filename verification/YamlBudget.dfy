/** What the budget of nodes lets through: a document with no anchors in it is
    charged its nodes, neither more nor less, and a text with no `&` and few
    `?` that is no longer than what a collector reads never exhausts it. */
module YamlBudget {
  import opened Results
  import opened YamlTree
  import opened YamlTokens
  import opened X = YamlSyntax
  import opened YamlGrammar
  import opened YamlCounts
  import opened YamlBuilder
  import opened YamlCompose
  import opened YamlValue
  import opened YamlFlatten
  import opened C = Scanning
  import S = ScannerState
  import W = YamlCosts
  import Q = ScanCosts

  // --- documents without anchors

  predicate Unanchored(n: Node)
    decreases n, 1
  {
    match n
    case AliasNode(_) => true
    case ScalarNode(anchor, _, _, _) => anchor.None?
    case SequenceNode(anchor, _, items) => anchor.None? && ItemsUnanchored(items)
    case MappingNode(anchor, _, pairs) => anchor.None? && PairsUnanchored(pairs)
  }

  predicate ItemsUnanchored(items: seq<Node>)
    decreases items, 0
  {
    items == [] || (Unanchored(items[0]) && ItemsUnanchored(items[1..]))
  }

  predicate PairsUnanchored(pairs: seq<Pair>)
    decreases pairs, 0
  {
    pairs == [] || (PairUnanchored(pairs[0]) && PairsUnanchored(pairs[1..]))
  }

  predicate PairUnanchored(p: Pair)
    decreases p, 0
  {
    Unanchored(p.key) && Unanchored(p.value)
  }

  /** So many nodes are charged, or the budget is exhausted if it is too small. */
  predicate Charges<T>(env: Env, count: nat, r: Result<(T, Env)>) {
    match r
    case Ok((_, after)) => env.nodes + count <= MAX_NODES && after == env.(nodes := env.nodes + count)
    case Err(fault) => fault == BudgetFault ==> env.nodes + count > MAX_NODES
  }

  lemma {:induction false} ComposeCharges(loader: Loader, n: Node, env: Env, level: nat)
    requires Sound(loader) && Unanchored(n) && env.names == map[]
    ensures Charges(env, NodeCount(n), Compose(loader, n, env, level))
    decreases n, 1
  {
    match n
    case AliasNode(_) =>
    case ScalarNode(_, tag, implicit, text) => ScalarFaults(loader, text, implicit, tag);
    case SequenceNode(_, _, _) => SequenceCharges(loader, n, env, level);
    case MappingNode(_, _, _) => MappingCharges(loader, n, env, level);
  }

  lemma ScalarFaults(loader: Loader, text: string, implicit: bool, tag: Option<string>)
    requires Sound(loader)
    ensures ScalarItem(loader, text, implicit, tag) != Err(BudgetFault)
  {
    assert loader.scalar(text, implicit, tag).Err? ==> loader.scalar(text, implicit, tag).fault == ValueFault;
  }

  lemma {:induction false} SequenceCharges(loader: Loader, n: Node, env: Env, level: nat)
    requires n.SequenceNode? && Sound(loader) && Unanchored(n) && env.names == map[]
    ensures Charges(env, NodeCount(n), Compose(loader, n, env, level))
    decreases n, 0
  {
    hide Sound, ComposeItems, ItemsUnanchored, ItemCount, ShapeOf;
    var shape, entered := ShapeOf(n.tag, false), Entered(env, level);
    if shape.Ok? && entered.Ok? {
      ItemsCharge(loader, n.items, entered.value, level + 1);
      var c := ComposeItems(loader, n.items, entered.value, level + 1);
      if c.Ok? {
        PairItemsFaults(c.value.0);
      }
    }
    ShapeFaults(n.tag);
  }

  lemma ShapeFaults(tag: Option<string>)
    ensures ShapeOf(tag, false) != Err(BudgetFault) && ShapeOf(tag, true) != Err(BudgetFault)
  {
  }

  lemma {:induction false} MappingCharges(loader: Loader, n: Node, env: Env, level: nat)
    requires n.MappingNode? && Sound(loader) && Unanchored(n) && env.names == map[]
    ensures Charges(env, NodeCount(n), Compose(loader, n, env, level))
    decreases n, 0
  {
    hide Sound, ComposePairs, PairsUnanchored, PairCount, ShapeOf, NoEquals, MapValue;
    var shape, entered := ShapeOf(n.tag, true), Entered(env, level);
    if shape.Ok? && entered.Ok? {
      PairsCharge(loader, n.pairs, entered.value, level + 1);
      PairsFaults(loader, n.pairs, entered.value, level + 1);
      var c := ComposePairs(loader, n.pairs, entered.value, level + 1);
      if c.Ok? {
        MapValueFaults(loader, c.value.0, shape.value);
      }
    }
    ShapeFaults(n.tag);
  }

  lemma {:induction false} ItemsCharge(loader: Loader, items: seq<Node>, env: Env, level: nat)
    requires Sound(loader) && ItemsUnanchored(items) && env.names == map[] && env.nodes <= MAX_NODES
    ensures Charges(env, ItemCount(items), ComposeItems(loader, items, env, level))
    decreases items, 0
  {
    if items != [] {
      ComposeCharges(loader, items[0], env, level);
      hide Sound, Compose, Unanchored, NodeCount;
      var c := Compose(loader, items[0], env, level);
      if c.Ok? {
        ItemsCharge(loader, items[1..], c.value.1, level);
      }
    }
  }

  lemma {:induction false} PairsCharge(loader: Loader, pairs: seq<Pair>, env: Env, level: nat)
    requires Sound(loader) && PairsUnanchored(pairs) && env.names == map[] && env.nodes <= MAX_NODES
    ensures Charges(env, PairCount(pairs), ComposePairs(loader, pairs, env, level))
    decreases pairs, 0
  {
    if pairs != [] {
      PairCharges(loader, pairs[0], env, level);
      hide Sound, ComposePair, PairUnanchored, OnePairCount;
      var c := ComposePair(loader, pairs[0], env, level);
      if c.Ok? {
        PairsCharge(loader, pairs[1..], c.value.1, level);
      }
    }
  }

  lemma {:induction false} PairCharges(loader: Loader, p: Pair, env: Env, level: nat)
    requires Sound(loader) && PairUnanchored(p) && env.names == map[] && env.nodes <= MAX_NODES
    ensures Charges(env, OnePairCount(p), ComposePair(loader, p, env, level))
    decreases p, 0
  {
    ComposeCharges(loader, p.key, env, level);
    hide Sound, Compose, Unanchored, NodeCount;
    var c := Compose(loader, p.key, env, level);
    if c.Ok? {
      ComposeCharges(loader, p.value, c.value.1, level);
    }
  }

  /** A document with no anchors that is loaded has at most MAX_NODES nodes, and
      one that exhausts the budget has more. */
  lemma UnanchoredBudget(loader: Loader, docs: seq<Node>)
    requires Sound(loader) && docs != [] && Unanchored(docs[0])
    ensures ComposeStream(loader, docs).Ok? ==> NodeCount(docs[0]) <= MAX_NODES
    ensures ComposeStream(loader, docs) == Err(BudgetFault) ==> NodeCount(docs[0]) > MAX_NODES
  {
    hide Sound, Compose, Unanchored, NodeCount;
    ComposeCharges(loader, docs[0], FRESH.env, 0);
  }

  // --- documents that nothing but the budget can refuse

  /** No alias, merge or lone `=`, every scalar constructible and every key one,
      no tag that asks for more than a list, a dict or a set, and not too deep. */
  predicate Loadable(loader: Loader, n: Node, level: nat)
    decreases n, 1
  {
    match n
    case AliasNode(_) => false
    case ScalarNode(_, tag, implicit, text) => !(implicit && (text == "<<" || text == "=")) && loader.scalar(text, implicit, tag).Ok?
    case SequenceNode(_, tag, items) => level < MAX_DEPTH && ShapeOf(tag, false) == Ok(PlainShape) && ItemsLoadable(loader, items, level + 1)
    case MappingNode(_, tag, pairs) => level < MAX_DEPTH && ShapeOf(tag, true).Ok? && PairsLoadable(loader, pairs, level + 1)
  }

  predicate ItemsLoadable(loader: Loader, items: seq<Node>, level: nat)
    decreases items, 0
  {
    items == [] || (Loadable(loader, items[0], level) && ItemsLoadable(loader, items[1..], level))
  }

  predicate PairsLoadable(loader: Loader, pairs: seq<Pair>, level: nat)
    decreases pairs, 0
  {
    pairs == [] || (PairLoadable(loader, pairs[0], level) && PairsLoadable(loader, pairs[1..], level))
  }

  predicate PairLoadable(loader: Loader, p: Pair, level: nat)
    decreases p, 0
  {
    p.key.ScalarNode? && Loadable(loader, p.key, level) && Loadable(loader, p.value, level)
  }

  /** A value, of a scalar a scalar, or else the budget is exhausted. */
  predicate Loads(n: Node, r: Result<(Item, Env)>) {
    match r
    case Ok((item, _)) => item.ValueItem? && (n.ScalarNode? ==> IsScalar(item.value))
    case Err(fault) => fault == BudgetFault
  }

  predicate ScalarKeys(slots: seq<Slot>) {
    forall i :: 0 <= i < |slots| ==> slots[i].key.ValueItem? && IsScalar(slots[i].key.value)
  }

  lemma {:induction false} ComposeLoads(loader: Loader, n: Node, env: Env, level: nat)
    requires Sound(loader) && Unanchored(n) && Loadable(loader, n, level)
    ensures Loads(n, Compose(loader, n, env, level))
    decreases n, 1
  {
    match n
    case ScalarNode(_, tag, implicit, text) =>
      assert loader.scalar(text, implicit, tag).Ok? ==> IsScalar(loader.scalar(text, implicit, tag).value);
    case SequenceNode(_, tag, items) =>
      hide Sound, ComposeItems, ItemsUnanchored, ItemsLoadable, ShapeOf;
      if Entered(env, level).Ok? {
        ItemsLoad(loader, items, Entered(env, level).value, level + 1);
      }
    case MappingNode(_, tag, pairs) =>
      hide Sound, ComposePairs, PairsUnanchored, PairsLoadable, ShapeOf, MapValue;
      if Entered(env, level).Ok? {
        PairsLoad(loader, pairs, Entered(env, level).value, level + 1);
        var c := ComposePairs(loader, pairs, Entered(env, level).value, level + 1);
        if c.Ok? {
          ScalarKeysFlatten(loader, c.value.0, ShapeOf(tag, true).value);
        }
      }
  }

  lemma {:induction false} ItemsLoad(loader: Loader, items: seq<Node>, env: Env, level: nat)
    requires Sound(loader) && ItemsUnanchored(items) && ItemsLoadable(loader, items, level)
    ensures var r := ComposeItems(loader, items, env, level); r.Err? ==> r.fault == BudgetFault
    decreases items, 0
  {
    if items != [] {
      ComposeLoads(loader, items[0], env, level);
      hide Sound, Compose, Unanchored, Loadable;
      var c := Compose(loader, items[0], env, level);
      if c.Ok? {
        ItemsLoad(loader, items[1..], c.value.1, level);
      }
    }
  }

  lemma {:induction false} PairsLoad(loader: Loader, pairs: seq<Pair>, env: Env, level: nat)
    requires Sound(loader) && PairsUnanchored(pairs) && PairsLoadable(loader, pairs, level)
    ensures match ComposePairs(loader, pairs, env, level)
            case Ok((slots, _)) => ScalarKeys(slots)
            case Err(fault) => fault == BudgetFault
    decreases pairs, 0
  {
    if pairs != [] {
      PairLoads(loader, pairs[0], env, level);
      hide Sound, ComposePair, PairUnanchored, PairLoadable;
      var c := ComposePair(loader, pairs[0], env, level);
      if c.Ok? {
        PairsLoad(loader, pairs[1..], c.value.1, level);
      }
    }
  }

  lemma {:induction false} PairLoads(loader: Loader, p: Pair, env: Env, level: nat)
    requires Sound(loader) && PairUnanchored(p) && PairLoadable(loader, p, level)
    ensures match ComposePair(loader, p, env, level)
            case Ok((slot, _)) => slot.key.ValueItem? && IsScalar(slot.key.value)
            case Err(fault) => fault == BudgetFault
    decreases p, 0
  {
    ComposeLoads(loader, p.key, env, level);
    hide Sound, Compose, Unanchored, Loadable;
    var c := Compose(loader, p.key, env, level);
    if c.Ok? {
      ComposeLoads(loader, p.value, c.value.1, level);
    }
  }

  lemma {:induction false} NothingMerged(slots: seq<Slot>, number: string -> Key)
    requires ScalarKeys(slots)
    ensures Merged(slots) == Ok([]) && Hashable(OwnPairs(slots), number)
  {
    if slots != [] {
      NothingMerged(slots[..|slots| - 1], number);
      var last := slots[|slots| - 1];
      var before := OwnPairs(slots[..|slots| - 1]);
      assert KeyOf(last.key.value, number).Some?;
      assert OwnPairs(slots) == before + [Entry(last.key.value, last.value)];
    }
  }

  lemma ScalarKeysFlatten(loader: Loader, slots: seq<Slot>, shape: Shape)
    requires ScalarKeys(slots)
    ensures MapValue(loader, slots, shape).Ok?
  {
    NothingMerged(slots, loader.number);
    hide OwnPairs, Merged, Flattened;
    FlattenFails(slots, loader.number);
  }

  /** The budget exactly: of a document with no anchors that nothing else can
      refuse, the fault is the budget's just when it has more than MAX_NODES nodes;
      else it is loaded. */
  lemma LoadableBudget(loader: Loader, docs: seq<Node>)
    requires Sound(loader) && docs != [] && Unanchored(docs[0]) && Loadable(loader, docs[0], 0)
    ensures ComposeStream(loader, docs) == Err(BudgetFault) <==> NodeCount(docs[0]) > MAX_NODES
    ensures |docs| == 1 ==> (ComposeStream(loader, docs).Ok? <==> NodeCount(docs[0]) <= MAX_NODES)
  {
    hide Sound, Compose, Unanchored, NodeCount, Loadable;
    ComposeLoads(loader, docs[0], FRESH.env, 0);
    ComposeCharges(loader, docs[0], FRESH.env, 0);
  }

  // --- tokens without anchors

  predicate NoAnchors(ts: seq<Tok>) {
    forall t :: t in ts ==> !t.Anchor?
  }

  lemma {:induction false} NodeUnanchored(s: Syntax, handles: map<string, string>)
    requires NoAnchors(Tokens(s))
    ensures Unanchored(NodeOf(s, handles))
    decreases s, 1
  {
    match s
    case Ref(_) =>
    case Empty(props) => PropsUnanchored(props, []);
    case Text(props, value, plain) => PropsUnanchored(props, [Tok.Scalar(value, plain)]);
    case Coll(style, props, parts, comma) =>
      hide NoAnchors, PropTokens, PartsTokens;
      NoneIn(PropTokens(props) + OpenTokens(style) + PartsTokens(style, parts, true) + CommaTokens(comma), CloseTokens(style));
      NoneIn(PropTokens(props) + OpenTokens(style) + PartsTokens(style, parts, true), CommaTokens(comma));
      NoneIn(PropTokens(props) + OpenTokens(style), PartsTokens(style, parts, true));
      NoneIn(PropTokens(props), OpenTokens(style));
      PropsBare(props);
      PartsUnanchored(style, parts, true, handles);
      hide ItemsOf, X.PairsOf, ItemsUnanchored, PairsUnanchored;
  }

  lemma NoneIn(a: seq<Tok>, b: seq<Tok>)
    requires NoAnchors(a + b)
    ensures NoAnchors(a) && NoAnchors(b)
  {
    forall t | t in a ensures !t.Anchor? {
      assert t in a + b;
    }
    forall t | t in b ensures !t.Anchor? {
      assert t in a + b;
    }
  }

  lemma PropsUnanchored(props: Props, more: seq<Tok>)
    requires NoAnchors(PropTokens(props) + more)
    ensures AnchorOf(props).None?
  {
    NoneIn(PropTokens(props), more);
    PropsBare(props);
  }

  lemma PropsBare(props: Props)
    requires NoAnchors(PropTokens(props))
    ensures AnchorOf(props).None?
  {
    PropsNamed(props);
  }

  lemma PropsNamed(props: Props)
    ensures AnchorOf(props).Some? ==> exists t :: t in PropTokens(props) && t.Anchor?
  {
    if AnchorOf(props).Some? {
      assert Tok.Anchor(AnchorOf(props).value) in PropTokens(props);
    }
  }

  lemma {:induction false} PartsUnanchored(style: Style, parts: seq<Part>, first: bool, handles: map<string, string>)
    requires NoAnchors(PartsTokens(style, parts, first))
    ensures ItemsUnanchored(ItemsOf(parts, handles)) && PairsUnanchored(X.PairsOf(parts, handles))
    decreases parts, 0
  {
    if parts != [] {
      hide NoAnchors;
      NoneIn(CommaTokens(Flow(style) && !first) + PartTokens(style, parts[0]), PartsTokens(style, parts[1..], false));
      NoneIn(CommaTokens(Flow(style) && !first), PartTokens(style, parts[0]));
      PartUnanchored(style, parts[0], handles);
      PartsUnanchored(style, parts[1..], false, handles);
      hide PartTokens, ItemOf, PairOf, Unanchored, PairUnanchored;
      assert ItemsOf(parts, handles)[1..] == ItemsOf(parts[1..], handles);
      assert X.PairsOf(parts, handles)[1..] == X.PairsOf(parts[1..], handles);
    }
  }

  lemma {:induction false} PartUnanchored(style: Style, p: Part, handles: map<string, string>)
    requires NoAnchors(PartTokens(style, p))
    ensures Unanchored(ItemOf(p, handles)) && PairUnanchored(PairOf(p, handles))
    decreases p, 0
  {
    match p
    case Item(node) =>
      NoneIn(Dash(style), Tokens(node));
      NodeUnanchored(node, handles);
      hide Tokens, NodeOf, NoAnchors;
    case Couple(key, value) =>
      NoneIn([Tok.Key] + Tokens(key), ValueTokens(value));
      NoneIn([Tok.Key], Tokens(key));
      NodeUnanchored(key, handles);
      match value {
        case None =>
        case Some(v) =>
          NoneIn([Tok.Value], Tokens(v));
          NodeUnanchored(v, handles);
      }
      hide Tokens, NodeOf, NoAnchors;
      assert Unanchored(NULL_NODE);
      var pair := PairOf(p, handles);
      assert Unanchored(ValueOf(value, handles)) && PairUnanchored(pair);
      assert [pair][1..] == [] && PairsUnanchored([pair]);
  }

  // --- texts without anchors

  lemma NoneBoth(a: seq<Tok>, b: seq<Tok>)
    requires NoAnchors(a) && NoAnchors(b)
    ensures NoAnchors(a + b)
  {
  }

  /** No anchor is queued where none was, if the scan succeeds. */
  predicate StillNone(r: Result<Scan>) {
    r.Ok? ==> NoAnchors(r.value.tokens)
  }

  lemma {:induction false} UnwoundNone(s: Scan, column: int)
    requires NoAnchors(s.tokens)
    ensures NoAnchors(Unwound(s, column).tokens)
    decreases |s.indents|
  {
    if s.flowLevel == 0 && s.indent > column && s.indents != [] {
      NoneBoth(s.tokens, [Tok.BlockEnd]);
      hide NoAnchors;
      var last := |s.indents| - 1;
      UnwoundNone(s.(indent := s.indents[last], indents := s.indents[..last], tokens := s.tokens + [Tok.BlockEnd]), column);
    }
  }

  lemma StructureNone(b: seq<char>, s: Scan)
    requires s.pointer <= |b| && NoAnchors(s.tokens) && S.CharAt(b, s.pointer) != '&'
    ensures StillNone(DispatchedStructure(b, s))
  {
    ValueNone(b, s);
    NodeNone(b, s);
    BlockNone(b, s);
    FlowNone(b, s, Tok.FlowSequenceStart);
    FlowNone(b, s, Tok.FlowMappingStart);
    FlowNone(b, s, Tok.FlowSequenceEnd);
    FlowNone(b, s, Tok.FlowMappingEnd);
    hide StillNone, NoAnchors, FetchedValue, DispatchedNode, FetchedBlockEntry, FetchedKey, FetchedFlowStart, FetchedFlowEnd, FetchedFlowEntry;
  }

  lemma FlowNone(b: seq<char>, s: Scan, tok: Tok)
    requires s.pointer <= |b| && NoAnchors(s.tokens) && !tok.Anchor?
    ensures StillNone(FetchedFlowStart(b, s, tok)) && StillNone(FetchedFlowEnd(s, tok)) && StillNone(FetchedFlowEntry(s))
  {
    hide NoAnchors, Saved;
    NoneQueued(s.tokens);
  }

  lemma NoneQueued(ts: seq<Tok>)
    requires NoAnchors(ts)
    ensures forall t: Tok :: !t.Anchor? ==> NoAnchors(ts + [t])
  {
  }

  lemma BlockNone(b: seq<char>, s: Scan)
    requires s.pointer <= |b| && NoAnchors(s.tokens)
    ensures StillNone(FetchedBlockEntry(b, s)) && StillNone(FetchedKey(b, s))
  {
    OpenedNone(s, Tok.BlockSequenceStart, S.ColumnAt(b, s.pointer));
    OpenedNone(s, Tok.BlockMappingStart, S.ColumnAt(b, s.pointer));
    hide NoAnchors, C.Opened, S.ColumnAt;
    forall ts | NoAnchors(ts) ensures NoAnchors(ts + [Tok.Key]) && NoAnchors(ts + [Tok.BlockEntry]) {
      NoneQueued(ts);
    }
  }

  lemma OpenedNone(s: Scan, start: Tok, column: int)
    requires NoAnchors(s.tokens) && !start.Anchor?
    ensures StillNone(C.Opened(s, start, column))
  {
  }

  lemma ValueNone(b: seq<char>, s: Scan)
    requires s.pointer <= |b| && NoAnchors(s.tokens)
    ensures StillNone(FetchedValue(b, s))
  {
    OpenedNone(s, Tok.BlockMappingStart, S.ColumnAt(b, s.pointer));
    hide C.Opened, S.ColumnAt;
  }

  lemma NodeNone(b: seq<char>, s: Scan)
    requires s.pointer <= |b| && NoAnchors(s.tokens) && S.CharAt(b, s.pointer) != '&'
    ensures StillNone(DispatchedNode(b, s))
  {
    hide NoAnchors, Saved, S.ColumnAt;
    NoneQueued(s.tokens);
  }

  lemma DispatchNone(b: seq<char>, s: Scan)
    requires s.pointer <= |b| && NoAnchors(s.tokens) && S.CharAt(b, s.pointer) != '&'
    ensures StillNone(Dispatched(b, s))
  {
    UnwoundNone(s, -1);
    StructureNone(b, s);
    NoneQueued(Unwound(s, -1).tokens);
    hide NoAnchors, DispatchedStructure, Unwound, S.ColumnAt, S.IndicatorAt;
  }

  lemma FetchNone(b: seq<char>, s: Scan)
    requires NoAnchors(s.tokens) && '&' !in b
    ensures StillNone(Fetched(b, s))
  {
    hide NoAnchors, Dispatched, Unwound, S.ColumnAt, S.NextToken, S.LineAt;
    if s.pointer <= |b| && TokenPlace(b, s.pointer) <= |b| && Staled(b, AtNext(b, s)).Ok? {
      var at := Staled(b, AtNext(b, s)).value;
      UnwoundNone(at, S.ColumnAt(b, at.pointer));
      DispatchNone(b, Unwound(at, S.ColumnAt(b, at.pointer)));
    }
  }

  lemma {:induction false} FilledNone(b: seq<char>, s: Scan)
    requires s.pointer < |b| && NoAnchors(s.tokens) && '&' !in b
    ensures StillNone(Filled(b, s))
    decreases |b| - s.pointer, !s.done
  {
    hide NoAnchors, Needed, Fetched;
    var needed := Needed(b, s);
    if needed.Ok? && needed.value.0 {
      FetchNone(b, needed.value.1);
      var n := Fetched(b, needed.value.1);
      if n.Ok? && Progress(b, s, n.value) {
        FilledNone(b, n.value);
      }
    }
  }

  lemma {:induction false} TokensNone(b: seq<char>, s: Scan)
    requires s.pointer < |b| && NoAnchors(s.tokens) && '&' !in b
    ensures TokensFrom(b, s).Ok? ==> NoAnchors(TokensFrom(b, s).value)
    decreases |b| - s.pointer, !s.done, |s.tokens|
  {
    FilledNone(b, s);
    hide Filled;
    if Filled(b, s).Ok? && Filled(b, s).value.tokens != [] {
      TokensNone(b, Took(Filled(b, s).value));
    }
  }

  /** A text without a `&` has no anchors. */
  lemma TextNone(text: string)
    requires '&' !in text
    ensures TokensOf(text).Ok? ==> NoAnchors(TokensOf(text).value)
  {
    TokensNone(text + ['\0'], START);
    hide TokensFrom;
  }

  // --- a text that fits

  lemma DocUnanchored(ts: seq<Tok>, ds: seq<Doc>)
    requires NoAnchors(ts) && W.At(ts, 1, DocsTokens(ds)) && ds != []
    ensures DocNodes(ds) != [] && Unanchored(DocNodes(ds)[0])
  {
    var d := ds[0];
    AtNone(ts, 1, DocsTokens(ds));
    hide NoAnchors, W.At, DocsTokens, Tokens, NodeOf, Unanchored;
    DocsFirst(ds);
    NoneIn(DocTokens(d), DocsTokens(ds[1..]));
    NoneIn(HeaderTokens(d.header) + Tokens(d.root), EndTokens(d.ends));
    NoneIn(HeaderTokens(d.header), Tokens(d.root));
    NodeUnanchored(d.root, HandlesOf(d.header));
  }

  lemma DocsFirst(ds: seq<Doc>)
    requires ds != []
    ensures DocsTokens(ds) == DocTokens(ds[0]) + DocsTokens(ds[1..])
  {
    hide DocTokens;
  }

  lemma AtNone(ts: seq<Tok>, p: nat, xs: seq<Tok>)
    requires NoAnchors(ts) && W.At(ts, p, xs)
    ensures NoAnchors(xs)
  {
    forall t | t in xs ensures !t.Anchor? {
      assert t in ts[p..p + |xs|];
    }
  }

  /** A text without a `&` that, each `?` counted twice, has fewer characters
      than the budget has nodes is never refused for the budget: no more than
      READ_CAP characters, say, with no more than fifteen `?` among them. */
  lemma TextFits(loader: Loader, text: string, docs: seq<Node>)
    requires Sound(loader) && TokensOf(text).Ok? && Grammatical(TokensOf(text).value, StreamEvents(docs), [])
    requires '&' !in text && |text| + Q.Questions(text, |text|) < MAX_NODES
    ensures ComposeStream(loader, docs) != Err(BudgetFault)
  {
    hide *;
    var ts := TokensOf(text).value;
    var ds := W.DocumentsOf(ts, StreamEvents(docs), []);
    SameStream(loader, docs, DocNodes(ds));
    if ds == [] {
      EmptyFits(loader);
    } else {
      TextNone(text);
      DocUnanchored(ts, ds);
      W.DocsPerCharacter(text, ds);
      UnanchoredBudget(loader, DocNodes(ds));
      FirstCount(DocNodes(ds));
    }
  }

  lemma EmptyFits(loader: Loader)
    ensures ComposeStream(loader, DocNodes([])) == Ok(None)
  {
  }

  lemma FirstCount(docs: seq<Node>)
    requires docs != []
    ensures NodeCount(docs[0]) <= ItemCount(docs)
  {
    hide NodeCount;
  }

  /** The events of a stream determine what it is composed to. */
  lemma SameStream(loader: Loader, docs: seq<Node>, more: seq<Node>)
    requires StreamEvents(docs) == StreamEvents(more)
    ensures ComposeStream(loader, docs) == ComposeStream(loader, more)
  {
    hide *;
    BuilderComposes(loader, docs);
    BuilderComposes(loader, more);
  }
}
