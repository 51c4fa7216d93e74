/** What the builder builds, told by recursion over the serialization tree
    rather than event by event, and the proof that the two are one. */
module YamlCompose {
  import opened Results
  import opened YamlTree
  import opened YamlValue
  import opened YamlFlatten
  import opened YamlBuilder

  /** The item a node stands for, and what naming, recording and charging leave. */
  function Compose(loader: Loader, n: Node, env: Env, level: nat): Result<(Item, Env)>
    decreases n, 1
  {
    match n
    case AliasNode(name) =>
      var (v, env2) :- Pasted(env, name, level);
      Ok((ValueItem(v), env2))
    case ScalarNode(anchor, tag, implicit, text) =>
      var (id, env1) :- Named(env, anchor);
      var env2 :- Charge(env1, 1);
      var item :- ScalarItem(loader, text, implicit, tag);
      var env3 :- Recorded(env2, id, item);
      Ok((item, env3))
    case SequenceNode(anchor, tag, items) =>
      var (id, env1) :- Named(env, anchor);
      var shape :- ShapeOf(tag, false);
      var env2 :- Entered(env1, level);
      var (vs, env3) :- ComposeItems(loader, items, env2, level + 1);
      var v :- SeqValue(vs, shape);
      var env4 :- Recorded(env3, id, ValueItem(v));
      Ok((ValueItem(v), env4))
    case MappingNode(anchor, tag, pairs) =>
      var (id, env1) :- Named(env, anchor);
      var shape :- ShapeOf(tag, true);
      var env2 :- Entered(env1, level);
      var (slots, env3) :- ComposePairs(loader, pairs, env2, level + 1);
      var v :- MapValue(loader, slots, shape);
      var env4 :- Recorded(env3, id, ValueItem(v));
      Ok((ValueItem(v), env4))
  }

  function Entered(env: Env, level: nat): Result<Env> {
    if level >= MAX_DEPTH then Err(DepthFault) else Charge(env, 1)
  }

  function ComposeItems(loader: Loader, items: seq<Node>, env: Env, level: nat): Result<(seq<Value>, Env)>
    decreases items, 0
  {
    if items == [] then Ok(([], env))
    else
      var (item, env2) :- Compose(loader, items[0], env, level);
      var v :- AsValue(item);
      var (vs, env3) :- ComposeItems(loader, items[1..], env2, level);
      Ok(([v] + vs, env3))
  }

  function ComposePairs(loader: Loader, pairs: seq<Pair>, env: Env, level: nat): Result<(seq<Slot>, Env)>
    decreases pairs, 0
  {
    if pairs == [] then Ok(([], env))
    else
      var (slot, env2) :- ComposePair(loader, pairs[0], env, level);
      var (slots, env3) :- ComposePairs(loader, pairs[1..], env2, level);
      Ok(([slot] + slots, env3))
  }

  function ComposePair(loader: Loader, p: Pair, env: Env, level: nat): Result<(Slot, Env)>
    decreases p, 0
  {
    var (item, env2) :- Compose(loader, p.key, env, level);
    var key := if item.Equals? then ValueItem(Str("=")) else item;
    var (item2, env3) :- Compose(loader, p.value, env2, level);
    var v :- AsValue(item2);
    Ok((Slot(key, v), env3))
  }

  /** The value of a stream: of its one document, if it has one. */
  function ComposeStream(loader: Loader, docs: seq<Node>): Result<Option<Value>> {
    if docs == [] then Ok(None)
    else
      var (item, _) :- Compose(loader, docs[0], FRESH.env, 0);
      var v :- AsValue(item);
      if |docs| == 1 then Ok(Some(v)) else Err(DocumentFault)
  }

  // --- the builder composes

  function After(b: Build, r: Result<(Item, Env)>): Result<Build> {
    var (item, env) :- r;
    Placed(b.(env := env), item)
  }

  lemma RunOne(loader: Loader, b: Build, e: Event)
    ensures Run(loader, b, [e]) == Step(loader, b, e)
  {
    hide Step;
    assert [e][1..] == [];
  }

  /** Running the events of a node places what the node composes to. */
  lemma {:induction false} RunComposes(loader: Loader, n: Node, b: Build)
    ensures Run(loader, b, Events(n)) == After(b, Compose(loader, n, b.env, |b.stack|))
    decreases n, 1
  {
    match n {
      case AliasNode(name) =>
        RunOne(loader, b, Event.Alias(name));
        hide Run, Placed, Pasted;
      case ScalarNode(anchor, tag, implicit, text) =>
        RunOne(loader, b, Event.Scalar(anchor, tag, implicit, text));
        hide Run, Placed, Named, Charge, Recorded, ScalarItem;
      case SequenceNode(_, _, _) => RunSequence(loader, n, b);
      case MappingNode(_, _, _) => RunMapping(loader, n, b);
    }
  }

  /** Start, members, end: what the runs of the three make together. */
  lemma RunBracketed(loader: Loader, b: Build, start: Event, es: seq<Event>, end: Event)
    ensures Run(loader, b, [start] + es + [end]) ==
            (var b1 :- Step(loader, b, start);
             var b2 :- Run(loader, b1, es);
             Step(loader, b2, end))
  {
    hide Step;
    RunConcat(loader, b, [start] + es, [end]);
    RunConcat(loader, b, [start], es);
    RunOne(loader, b, start);
    var b1 := Step(loader, b, start);
    if b1.Ok? {
      var b2 := Run(loader, b1.value, es);
      if b2.Ok? {
        RunOne(loader, b2.value, end);
      }
    }
  }

  lemma {:induction false} RunSequence(loader: Loader, n: Node, b: Build)
    requires n.SequenceNode?
    ensures Run(loader, b, Events(n)) == After(b, Compose(loader, n, b.env, |b.stack|))
    decreases n, 0
  {
    hide Run, Placed, Named, ShapeOf, Charge, Recorded, SeqValue, ComposeItems;
    RunBracketed(loader, b, Event.SequenceStart(n.anchor, n.tag), ItemEvents(n.items), Event.SequenceEnd);
    var named := Named(b.env, n.anchor);
    var shape := ShapeOf(n.tag, false);
    if named.Ok? && shape.Ok? {
      var (id, env1) := named.value;
      var b1 := Opened(b.(env := env1), SeqFrame([], shape.value), id);
      if b1.Ok? {
        RunItems(loader, n.items, b1.value, b.stack, [], shape.value, id);
        var c := ComposeItems(loader, n.items, b1.value.env, |b.stack| + 1);
        if c.Ok? {
          assert [] + c.value.0 == c.value.0;
          CloseSequence(loader, b, c.value.0, shape.value, id, c.value.1);
        }
      }
    }
  }

  lemma CloseSequence(loader: Loader, b: Build, vs: seq<Value>, shape: Shape, id: nat, env: Env)
    ensures Step(loader, b.(stack := b.stack + [Level(SeqFrame(vs, shape), id)], env := env), Event.SequenceEnd) ==
            (var v :- SeqValue(vs, shape);
             Pushed(b.(env := env), ValueItem(v), id))
  {
    hide Pushed, SeqValue;
    assert (b.stack + [Level(SeqFrame(vs, shape), id)])[..|b.stack|] == b.stack;
  }

  lemma CloseMapping(loader: Loader, b: Build, slots: seq<Slot>, shape: Shape, id: nat, env: Env)
    ensures Step(loader, b.(stack := b.stack + [Level(MapFrame(slots, None, shape), id)], env := env), Event.MappingEnd) ==
            (var v :- MapValue(loader, slots, shape);
             Pushed(b.(env := env), ValueItem(v), id))
  {
    hide Pushed, MapValue;
    assert (b.stack + [Level(MapFrame(slots, None, shape), id)])[..|b.stack|] == b.stack;
  }

  /** The events of items fill the innermost frame with their values. */
  lemma {:induction false} RunItems(loader: Loader, items: seq<Node>, b: Build, below: seq<Level>, vs: seq<Value>, shape: Shape, id: nat)
    requires b.stack == below + [Level(SeqFrame(vs, shape), id)]
    ensures Run(loader, b, ItemEvents(items)) ==
            (var (more, env) :- ComposeItems(loader, items, b.env, |b.stack|);
             Ok(b.(stack := below + [Level(SeqFrame(vs + more, shape), id)], env := env)))
    decreases items, 0
  {
    if items == [] {
      assert vs + [] == vs;
    } else {
      RunConcat(loader, b, Events(items[0]), ItemEvents(items[1..]));
      RunItem(loader, items[0], b, below, vs, shape, id);
      hide Run, Compose, Events;
      var c := Compose(loader, items[0], b.env, |b.stack|);
      if c.Ok? && AsValue(c.value.0).Ok? {
        var v, env := AsValue(c.value.0).value, c.value.1;
        var b2 := b.(stack := below + [Level(SeqFrame(vs + [v], shape), id)], env := env);
        RunItems(loader, items[1..], b2, below, vs + [v], shape, id);
        var rest := ComposeItems(loader, items[1..], env, |b2.stack|);
        if rest.Ok? {
          assert vs + [v] + rest.value.0 == vs + ([v] + rest.value.0);
        }
      }
    }
  }

  lemma {:induction false} RunItem(loader: Loader, n: Node, b: Build, below: seq<Level>, vs: seq<Value>, shape: Shape, id: nat)
    requires b.stack == below + [Level(SeqFrame(vs, shape), id)]
    ensures Run(loader, b, Events(n)) ==
            (var (item, env) :- Compose(loader, n, b.env, |b.stack|);
             var v :- AsValue(item);
             Ok(b.(stack := below + [Level(SeqFrame(vs + [v], shape), id)], env := env)))
    decreases n, 2
  {
    RunComposes(loader, n, b);
    hide Run, Compose, Events;
    assert b.stack[..|b.stack| - 1] == below;
  }

  lemma {:induction false} RunMapping(loader: Loader, n: Node, b: Build)
    requires n.MappingNode?
    ensures Run(loader, b, Events(n)) == After(b, Compose(loader, n, b.env, |b.stack|))
    decreases n, 0
  {
    hide Run, Placed, Named, ShapeOf, Charge, Recorded, MapValue, ComposePairs;
    RunBracketed(loader, b, Event.MappingStart(n.anchor, n.tag), PairEvents(n.pairs), Event.MappingEnd);
    var named := Named(b.env, n.anchor);
    var shape := ShapeOf(n.tag, true);
    if named.Ok? && shape.Ok? {
      var (id, env1) := named.value;
      var b1 := Opened(b.(env := env1), MapFrame([], None, shape.value), id);
      if b1.Ok? {
        RunPairs(loader, n.pairs, b1.value, b.stack, [], shape.value, id);
        var c := ComposePairs(loader, n.pairs, b1.value.env, |b.stack| + 1);
        if c.Ok? {
          assert [] + c.value.0 == c.value.0;
          CloseMapping(loader, b, c.value.0, shape.value, id, c.value.1);
        }
      }
    }
  }

  lemma {:induction false} RunPairs(loader: Loader, pairs: seq<Pair>, b: Build, below: seq<Level>, slots: seq<Slot>, shape: Shape, id: nat)
    requires b.stack == below + [Level(MapFrame(slots, None, shape), id)]
    ensures Run(loader, b, PairEvents(pairs)) ==
            (var (more, env) :- ComposePairs(loader, pairs, b.env, |b.stack|);
             Ok(b.(stack := below + [Level(MapFrame(slots + more, None, shape), id)], env := env)))
    decreases pairs, 0
  {
    if pairs == [] {
      assert slots + [] == slots;
    } else {
      RunConcat(loader, b, OnePairEvents(pairs[0]), PairEvents(pairs[1..]));
      RunPair(loader, pairs[0], b, below, slots, shape, id);
      hide Run, ComposePair, OnePairEvents;
      var c := ComposePair(loader, pairs[0], b.env, |b.stack|);
      if c.Ok? {
        var (slot, env) := c.value;
        var b2 := b.(stack := below + [Level(MapFrame(slots + [slot], None, shape), id)], env := env);
        RunPairs(loader, pairs[1..], b2, below, slots + [slot], shape, id);
        var rest := ComposePairs(loader, pairs[1..], env, |b2.stack|);
        if rest.Ok? {
          assert slots + [slot] + rest.value.0 == slots + ([slot] + rest.value.0);
        }
      }
    }
  }

  lemma {:induction false} RunPair(loader: Loader, p: Pair, b: Build, below: seq<Level>, slots: seq<Slot>, shape: Shape, id: nat)
    requires b.stack == below + [Level(MapFrame(slots, None, shape), id)]
    ensures Run(loader, b, OnePairEvents(p)) ==
            (var (slot, env) :- ComposePair(loader, p, b.env, |b.stack|);
             Ok(b.(stack := below + [Level(MapFrame(slots + [slot], None, shape), id)], env := env)))
    decreases p, 0
  {
    RunConcat(loader, b, Events(p.key), Events(p.value));
    RunComposes(loader, p.key, b);
    hide Run, Compose, Events;
    var c := Compose(loader, p.key, b.env, |b.stack|);
    if c.Ok? {
      var (item, env) := c.value;
      var key := if item.Equals? then ValueItem(Str("=")) else item;
      assert b.stack[..|b.stack| - 1] == below;
      var b2 := b.(stack := below + [Level(MapFrame(slots, Some(key), shape), id)], env := env);
      assert Placed(b.(env := env), item) == Ok(b2);
      RunComposes(loader, p.value, b2);
      assert b2.stack[..|b2.stack| - 1] == below;
    }
  }

  /** The events of a whole stream build just what the tree composes to. */
  lemma BuilderComposes(loader: Loader, docs: seq<Node>)
    ensures match Run(loader, FRESH, StreamEvents(docs))
            case Ok(b) => ComposeStream(loader, docs) == Ok(b.done)
            case Err(f) => ComposeStream(loader, docs) == Err(f)
  {
    hide Compose, Events;
    RunBracketed(loader, FRESH, Event.StreamStart, DocumentEvents(docs), Event.StreamEnd);
    if docs != [] {
      var rest := DocumentEvents(docs[1..]);
      var one := [Event.DocumentStart] + Events(docs[0]) + [Event.DocumentEnd];
      assert DocumentEvents(docs) == one + rest;
      RunConcat(loader, FRESH, one, rest);
      RunBracketed(loader, FRESH, Event.DocumentStart, Events(docs[0]), Event.DocumentEnd);
      var begun := FRESH.(docs := 1);
      RunComposes(loader, docs[0], begun);
      var b := Run(loader, FRESH, one);
      if b.Ok? && |docs| > 1 {
        assert rest[0] == Event.DocumentStart;
        assert b.value.docs == 1;
      }
    }
  }

  // --- what cannot go wrong

  /** The errors a document's content can cause. */
  predicate ContentFault(f: Fault) {
    f == AnchorFault || f == DepthFault || f == BudgetFault || f == ValueFault
  }

  lemma {:induction false} PairItemsFaults(items: seq<Value>)
    ensures PairItems(items).Err? ==> PairItems(items) == Err(ValueFault)
  {
    if items != [] {
      PairItemsFaults(items[..|items| - 1]);
    }
  }

  lemma MapValueFaults(loader: Loader, slots: seq<Slot>, shape: Shape)
    requires NoEquals(slots)
    ensures MapValue(loader, slots, shape).Err? ==> MapValue(loader, slots, shape) == Err(ValueFault)
  {
    MergedWorks(slots);
    MergedFaults(slots);
    if Merged(slots).Ok? {
      DictIs(Merged(slots).value + OwnPairs(slots), loader.number);
    }
  }

  lemma {:induction false} MergedFaults(slots: seq<Slot>)
    requires NoEquals(slots)
    ensures Merged(slots).Err? ==> Merged(slots) == Err(ValueFault)
  {
    if slots != [] {
      MergedFaults(slots[..|slots| - 1]);
      SourceWorks(slots[|slots| - 1].value);
    }
  }

  lemma {:induction false} ComposeFaults(loader: Loader, n: Node, env: Env, level: nat)
    requires Sound(loader)
    ensures Compose(loader, n, env, level).Err? ==> ContentFault(Compose(loader, n, env, level).fault)
    decreases n, 1
  {
    match n {
      case AliasNode(_) =>
      case ScalarNode(anchor, tag, implicit, text) =>
        assert loader.scalar(text, implicit, tag).Err? ==> loader.scalar(text, implicit, tag).fault == ValueFault;
      case SequenceNode(anchor, tag, items) =>
        hide Sound, ComposeItems, ComposePairs;
        forall e, l ensures ComposeItems(loader, items, e, l).Err? ==> ContentFault(ComposeItems(loader, items, e, l).fault) {
          ItemsFaults(loader, items, e, l);
        }
        forall vs, shape ensures SeqValue(vs, shape).Err? ==> SeqValue(vs, shape) == Err(ValueFault) {
          PairItemsFaults(vs);
        }
      case MappingNode(anchor, tag, pairs) =>
        hide Sound, ComposeItems, ComposePairs, NoEquals, MapValue;
        forall e, l ensures
          && (ComposePairs(loader, pairs, e, l).Err? ==> ContentFault(ComposePairs(loader, pairs, e, l).fault))
          && (ComposePairs(loader, pairs, e, l).Ok? ==> NoEquals(ComposePairs(loader, pairs, e, l).value.0)) {
          PairsFaults(loader, pairs, e, l);
        }
        forall slots, shape | NoEquals(slots) ensures MapValue(loader, slots, shape).Err? ==> MapValue(loader, slots, shape) == Err(ValueFault) {
          MapValueFaults(loader, slots, shape);
        }
    }
  }

  lemma {:induction false} ItemsFaults(loader: Loader, items: seq<Node>, env: Env, level: nat)
    requires Sound(loader)
    ensures ComposeItems(loader, items, env, level).Err? ==> ContentFault(ComposeItems(loader, items, env, level).fault)
    decreases items, 0
  {
    if items != [] {
      ComposeFaults(loader, items[0], env, level);
      hide Sound, Compose;
      var c := Compose(loader, items[0], env, level);
      if c.Ok? {
        ItemsFaults(loader, items[1..], c.value.1, level);
      }
    }
  }

  lemma {:induction false} PairsFaults(loader: Loader, pairs: seq<Pair>, env: Env, level: nat)
    requires Sound(loader)
    ensures ComposePairs(loader, pairs, env, level).Err? ==> ContentFault(ComposePairs(loader, pairs, env, level).fault)
    ensures ComposePairs(loader, pairs, env, level).Ok? ==> NoEquals(ComposePairs(loader, pairs, env, level).value.0)
    decreases pairs, 0
  {
    if pairs != [] {
      PairFaults(loader, pairs[0], env, level);
      hide Sound, ComposePair;
      var c := ComposePair(loader, pairs[0], env, level);
      if c.Ok? {
        PairsFaults(loader, pairs[1..], c.value.1, level);
      }
    }
  }

  lemma {:induction false} PairFaults(loader: Loader, p: Pair, env: Env, level: nat)
    requires Sound(loader)
    ensures ComposePair(loader, p, env, level).Err? ==> ContentFault(ComposePair(loader, p, env, level).fault)
    ensures ComposePair(loader, p, env, level).Ok? ==> !ComposePair(loader, p, env, level).value.0.key.Equals?
    decreases p, 0
  {
    ComposeFaults(loader, p.key, env, level);
    hide Sound, Compose;
    var c := Compose(loader, p.key, env, level);
    if c.Ok? {
      ComposeFaults(loader, p.value, c.value.1, level);
    }
  }

  /** On the events of any stream at all, the builder never meets an end with
      nothing open, a mapping that ends after a key, or a stored `=`. */
  lemma BuilderFaults(loader: Loader, docs: seq<Node>)
    requires Sound(loader)
    ensures var r := Run(loader, FRESH, StreamEvents(docs));
            r.Err? ==> r.fault == DocumentFault || ContentFault(r.fault)
  {
    hide Compose, Run, Sound, StreamEvents;
    BuilderComposes(loader, docs);
    if docs != [] {
      ComposeFaults(loader, docs[0], FRESH.env, 0);
    }
  }
}
