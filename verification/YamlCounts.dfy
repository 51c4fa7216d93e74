/** How many nodes a stream can hold, by its tokens. */
module YamlCounts {
  import opened Results
  import opened YamlTree
  import opened YamlTokens
  import opened YamlSyntax
  import opened YamlGrammar

  function NodeCount(n: Node): nat
    decreases n, 1
  {
    match n
    case SequenceNode(_, _, items) => 1 + ItemCount(items)
    case MappingNode(_, _, pairs) => 1 + PairCount(pairs)
    case _ => 1
  }

  function ItemCount(items: seq<Node>): nat
    decreases items, 0
  {
    if items == [] then 0 else NodeCount(items[0]) + ItemCount(items[1..])
  }

  function PairCount(pairs: seq<Pair>): nat
    decreases pairs, 0
  {
    if pairs == [] then 0 else OnePairCount(pairs[0]) + PairCount(pairs[1..])
  }

  function OnePairCount(p: Pair): nat
    decreases p, 0
  {
    NodeCount(p.key) + NodeCount(p.value)
  }

  // --- how many nodes there can be

  /** A node takes a third of a token at the least. */
  lemma {:induction false} CountNode(s: Syntax, block: bool, indentless: bool, handles: map<string, string>)
    requires SyntaxOk(s, block, indentless, handles)
    ensures NodeCount(NodeOf(s, handles)) <= 3 * |Tokens(s)| + 1
    ensures s != NOTHING ==> NodeCount(NodeOf(s, handles)) <= 3 * |Tokens(s)| - if indentless then 1 else 2
    decreases s, 1
  {
    hide PropsOk;
    if s.Coll? {
      CountParts(s.style, s.parts, true, handles);
      hide PartsOk, PartsTokens, ItemsOf, PairsOf, ItemCount, PairCount;
    }
  }

  lemma {:induction false} CountParts(style: Style, parts: seq<Part>, first: bool, handles: map<string, string>)
    requires PartsOk(style, parts, handles)
    ensures Sequence(style) ==> ItemCount(ItemsOf(parts, handles)) <= 3 * |PartsTokens(style, parts, first)|
    ensures !Sequence(style) ==> PairCount(PairsOf(parts, handles)) <= 3 * |PartsTokens(style, parts, first)|
    ensures style.DashSeq? && parts != [] ==> ItemCount(ItemsOf(parts, handles)) <= 3 * |PartsTokens(style, parts, first)| - 2
    decreases parts, 0
  {
    if parts != [] {
      CountPart(style, parts[0], handles);
      CountParts(style, parts[1..], false, handles);
      hide PartOk, PartTokens, ItemOf, PairOf, NodeCount, OnePairCount;
      var items, pairs := ItemsOf(parts, handles), PairsOf(parts, handles);
      assert items[1..] == ItemsOf(parts[1..], handles) && pairs[1..] == PairsOf(parts[1..], handles);
    }
  }

  lemma {:induction false} CountPart(style: Style, p: Part, handles: map<string, string>)
    requires PartOk(style, p, handles)
    ensures Sequence(style) ==> NodeCount(ItemOf(p, handles)) <= 3 * |PartTokens(style, p)| - if style.DashSeq? then 2 else 0
    ensures !Sequence(style) ==> OnePairCount(PairOf(p, handles)) <= 3 * |PartTokens(style, p)|
    decreases p, 0
  {
    assert NodeCount(NULL_NODE) == 1;
    match p
    case Item(node) =>
      CountNode(node, !Flow(style), false, handles);
      hide SyntaxOk, Tokens, NodeOf;
    case Couple(key, value) =>
      CountNode(key, !Flow(style), style.BlockMap?, handles);
      if value.Some? {
        CountNode(value.value, !Flow(style), style.BlockMap?, handles);
      }
      hide SyntaxOk, Tokens, NodeOf;
      assert NodeCount(ValueOf(value, handles)) <= 3 * |ValueTokens(value)| + 1;
      hide ValueOf, ValueTokens, NodeCount;
      var pair := PairOf(p, handles);
      assert |PartTokens(style, p)| == 1 + |Tokens(key)| + |ValueTokens(value)|;
      assert OnePairCount(pair) <= 3 * |PartTokens(style, p)| - 1;
      assert [pair][1..] == [] && PairCount([pair]) == OnePairCount(pair);
  }

  /** The nodes of every grammatical stream are at most thrice its tokens. */
  lemma NodesPerToken(tokens: seq<Tok>, es: seq<Event>, rest: seq<Tok>) returns (docs: seq<Node>)
    requires Grammatical(tokens, es, rest)
    ensures es == StreamEvents(docs) && ItemCount(docs) <= 3 * |tokens|
  {
    hide DocsOk, DocsTokens, DocNodes, StreamEvents;
    var first, ds :|
      && DocsOk(ds)
      && tokens == [first] + DocsTokens(ds) + [Tok.StreamEnd] + rest
      && es == StreamEvents(DocNodes(ds));
    docs := DocNodes(ds);
    DocsInOrder(ds);
    CountDocs(ds, true);
  }

  lemma DocsInOrder(ds: seq<Doc>)
    requires DocsOk(ds)
    ensures forall i :: 0 <= i < |ds| ==> DocOk(ds[i], true && i == 0)
  {
    hide DocOk;
  }

  lemma {:induction false} CountDocs(ds: seq<Doc>, first: bool)
    requires forall i :: 0 <= i < |ds| ==> DocOk(ds[i], first && i == 0)
    ensures ItemCount(DocNodes(ds)) <= 3 * |DocsTokens(ds)|
    decreases |ds|
  {
    if ds != [] {
      var d := ds[0];
      CountNode(d.root, true, false, HandlesOf(d.header));
      CountDocs(ds[1..], false);
      assert NodeCount(NodeOf(d.root, HandlesOf(d.header))) <= 3 * |DocTokens(d)| by {
        hide SyntaxOk, NodeOf, HandlesOf, Tokens;
      }
      hide DocOk, DocTokens, NodeOf, HandlesOf, NodeCount;
      assert DocNodes(ds)[1..] == DocNodes(ds[1..]);
    }
  }
}
