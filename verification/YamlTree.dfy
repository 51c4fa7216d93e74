/** What the parser hands to the tree builder: events, and the serialization
    tree they spell (section 3.2.2 of YAML 1.1). */
module YamlTree {
  import opened Results

  datatype Event =
    | StreamStart
    | StreamEnd
    | DocumentStart
    | DocumentEnd
    | Alias(name: string)
    | Scalar(anchor: Option<string>, tag: Option<string>, implicit: bool, value: string)
    | SequenceStart(anchor: Option<string>, tag: Option<string>)
    | SequenceEnd
    | MappingStart(anchor: Option<string>, tag: Option<string>)
    | MappingEnd

  datatype Pair = Pair(key: Node, value: Node)

  datatype Node =
    | AliasNode(name: string)
    | ScalarNode(anchor: Option<string>, tag: Option<string>, implicit: bool, text: string)
    | SequenceNode(anchor: Option<string>, tag: Option<string>, items: seq<Node>)
    | MappingNode(anchor: Option<string>, tag: Option<string>, pairs: seq<Pair>)

  /** The events that spell one node. */
  function Events(n: Node): seq<Event>
    decreases n, 1
  {
    match n
    case AliasNode(name) => [Event.Alias(name)]
    case ScalarNode(anchor, tag, implicit, text) => [Event.Scalar(anchor, tag, implicit, text)]
    case SequenceNode(anchor, tag, items) =>
      [Event.SequenceStart(anchor, tag)] + ItemEvents(items) + [Event.SequenceEnd]
    case MappingNode(anchor, tag, pairs) =>
      [Event.MappingStart(anchor, tag)] + PairEvents(pairs) + [Event.MappingEnd]
  }

  function ItemEvents(items: seq<Node>): seq<Event>
    decreases items, 0
  {
    if items == [] then [] else Events(items[0]) + ItemEvents(items[1..])
  }

  function PairEvents(pairs: seq<Pair>): seq<Event>
    decreases pairs, 0
  {
    if pairs == [] then [] else OnePairEvents(pairs[0]) + PairEvents(pairs[1..])
  }

  function OnePairEvents(p: Pair): seq<Event>
    decreases p, 0
  {
    Events(p.key) + Events(p.value)
  }

  /** The events that spell a stream of documents. */
  function DocumentEvents(docs: seq<Node>): seq<Event> {
    if docs == [] then []
    else [Event.DocumentStart] + Events(docs[0]) + [Event.DocumentEnd] + DocumentEvents(docs[1..])
  }

  function StreamEvents(docs: seq<Node>): seq<Event> {
    [Event.StreamStart] + DocumentEvents(docs) + [Event.StreamEnd]
  }

  lemma {:induction false} ItemEventsConcat(a: seq<Node>, b: seq<Node>)
    ensures ItemEvents(a + b) == ItemEvents(a) + ItemEvents(b)
  {
    if a == [] {
      assert a + b == b;
    } else {
      assert (a + b)[1..] == a[1..] + b;
      ItemEventsConcat(a[1..], b);
    }
  }

  lemma {:induction false} PairEventsConcat(a: seq<Pair>, b: seq<Pair>)
    ensures PairEvents(a + b) == PairEvents(a) + PairEvents(b)
  {
    if a == [] {
      assert a + b == b;
    } else {
      assert (a + b)[1..] == a[1..] + b;
      PairEventsConcat(a[1..], b);
    }
  }

  lemma {:induction false} DocumentEventsConcat(a: seq<Node>, b: seq<Node>)
    ensures DocumentEvents(a + b) == DocumentEvents(a) + DocumentEvents(b)
  {
    if a == [] {
      assert a + b == b;
    } else {
      assert (a + b)[1..] == a[1..] + b;
      DocumentEventsConcat(a[1..], b);
    }
  }
}
