/** The tree builder: events in, one value out, under a budget of nodes and a
    bound on depth that what aliases paste in counts against too. */
module YamlBuilder {
  import opened Results
  import opened YamlTree
  import opened YamlValue
  import opened YamlFlatten

  const MAX_DEPTH: nat := 512
  const READ_CAP: nat := 0x10_0000
  const MAX_NODES: nat := READ_CAP + 16
  const TAG := "tag:yaml.org,2002:"

  /** The three things a tag can make of a collection. */
  datatype Shape = PlainShape | SetShape | PairsShape

  datatype Frame =
    | SeqFrame(items: seq<Value>, shape: Shape)
    | MapFrame(slots: seq<Slot>, key: Option<Item>, shape: Shape)

  datatype Level = Level(frame: Frame, anchor: nat)

  /** How a scalar is constructed, and what a float or a timestamp is as a key:
      of neither is more known than `Sound` says. */
  datatype Loader = Loader(scalar: (string, bool, Option<string>) -> Result<Value>, number: string -> Key)

  ghost predicate Sound(loader: Loader) {
    forall text, plain, tag ::
      var r := loader.scalar(text, plain, tag);
      && (r.Ok? ==> IsScalar(r.value) && Weigh(r.value, Text) <= Bytes(text) + 64)
      && (r.Err? ==> r.fault == ValueFault)
  }

  /** Anchored values with their depths by id, the names' ids, and the nodes charged. */
  datatype Env = Env(anchors: map<nat, (Value, nat)>, names: map<string, nat>, nodes: nat)

  datatype Build = Build(stack: seq<Level>, env: Env, done: Option<Value>, docs: nat)

  const FRESH := Build([], Env(map[], map[], 0), None, 0)

  // --- pieces of a step

  /** An anchor's id, 0 for none; a name is defined once. */
  function Named(env: Env, name: Option<string>): Result<(nat, Env)> {
    match name
    case None => Ok((0, env))
    case Some(s) =>
      if s in env.names then Err(AnchorFault)
      else Ok((|env.names| + 1, env.(names := env.names[s := |env.names| + 1])))
  }

  function Charge(env: Env, n: nat): Result<Env> {
    if env.nodes + n > MAX_NODES then Err(BudgetFault) else Ok(env.(nodes := env.nodes + n))
  }

  function Kind(tag: string): string {
    if TAG <= tag then tag[|TAG|..] else tag
  }

  function ShapeOf(tag: Option<string>, mapping: bool): Result<Shape> {
    if tag.None? || tag.value == "!" then Ok(PlainShape)
    else
      var kind := Kind(tag.value);
      if kind == (if mapping then "map" else "seq") then Ok(PlainShape)
      else if kind == "set" && mapping then Ok(SetShape)
      else if (kind == "omap" || kind == "pairs") && !mapping then Ok(PairsShape)
      else Err(ValueFault)
  }

  function AsValue(item: Item): Result<Value> {
    if item.ValueItem? then Ok(item.value) else Err(ValueFault)
  }

  /** The copy kept for aliases is charged for like any other. */
  function Recorded(env: Env, id: nat, item: Item): Result<Env> {
    if id != 0 && item.ValueItem? then
      var env2 :- Charge(env, Weigh(item.value, Charged));
      Ok(env2.(anchors := env2.anchors[id := (item.value, Depth(item.value))]))
    else Ok(env)
  }

  function ScalarItem(loader: Loader, text: string, implicit: bool, tag: Option<string>): Result<Item> {
    if text == "<<" && implicit then Ok(Merge)
    else if text == "=" && implicit then Ok(Equals)
    else
      var v :- loader.scalar(text, implicit, tag);
      Ok(ValueItem(v))
  }

  /** What an alias at a level pastes in, cost and depth checked first. */
  function Pasted(env: Env, name: string, level: nat): Result<(Value, Env)> {
    if name !in env.names || env.names[name] !in env.anchors then Err(AnchorFault)
    else
      var (v, depth) := env.anchors[env.names[name]];
      if level + depth > MAX_DEPTH then Err(DepthFault)
      else
        var env2 :- Charge(env, Weigh(v, Charged));
        Ok((v, env2))
  }

  /** One-pair mappings as lists of a key and its value. */
  function PairItems(items: seq<Value>): Result<seq<Value>> {
    if items == [] then Ok([])
    else
      var before :- PairItems(items[..|items| - 1]);
      match items[|items| - 1]
      case Map(m) => if |m| == 1 then Ok(before + [Seq([m[0].key, m[0].value])]) else Err(ValueFault)
      case _ => Err(ValueFault)
  }

  function SeqValue(items: seq<Value>, shape: Shape): Result<Value> {
    if shape == PairsShape then
      var pairs :- PairItems(items);
      Ok(Seq(pairs))
    else Ok(Seq(items))
  }

  /** The keys of a set. */
  function KeysOnly(entries: seq<Entry>): (keys: seq<Entry>)
    ensures |keys| == |entries|
  {
    if entries == [] then [] else KeysOnly(entries[..|entries| - 1]) + [Entry(entries[|entries| - 1].key, Null)]
  }

  function MapValue(loader: Loader, slots: seq<Slot>, shape: Shape): Result<Value> {
    var entries :- Flattened(slots, loader.number);
    Ok(Map(if shape == SetShape then KeysOnly(entries) else entries))
  }

  function FrameValue(loader: Loader, f: Frame): Result<Value> {
    match f
    case SeqFrame(items, shape) => SeqValue(items, shape)
    case MapFrame(slots, None, shape) => MapValue(loader, slots, shape)
    case MapFrame(_, Some(_), _) => Err(DanglingKeyFault)
  }

  /** An item where the innermost open collection, or the document, takes it. */
  function FramePlaced(f: Frame, item: Item): Result<Frame> {
    match f
    case SeqFrame(items, _) =>
      var v :- AsValue(item);
      Ok(f.(items := items + [v]))
    case MapFrame(_, None, _) => Ok(f.(key := Some(if item.Equals? then ValueItem(Str("=")) else item)))
    case MapFrame(slots, Some(k), _) =>
      var v :- AsValue(item);
      Ok(f.(slots := slots + [Slot(k, v)], key := None))
  }

  function Placed(b: Build, item: Item): Result<Build> {
    if b.stack == [] then
      var v :- AsValue(item);
      Ok(b.(done := Some(v)))
    else
      var top := b.stack[|b.stack| - 1];
      var f :- FramePlaced(top.frame, item);
      Ok(b.(stack := b.stack[..|b.stack| - 1] + [Level(f, top.anchor)]))
  }

  function Pushed(b: Build, item: Item, anchor: nat): Result<Build> {
    var env :- Recorded(b.env, anchor, item);
    Placed(b.(env := env), item)
  }

  function Opened(b: Build, f: Frame, anchor: nat): Result<Build> {
    if |b.stack| >= MAX_DEPTH then Err(DepthFault)
    else
      var env :- Charge(b.env, 1);
      Ok(b.(stack := b.stack + [Level(f, anchor)], env := env))
  }

  function Closed(loader: Loader, b: Build): Result<Build> {
    if b.stack == [] then Err(UnbalancedFault)
    else
      var top := b.stack[|b.stack| - 1];
      var v :- FrameValue(loader, top.frame);
      Pushed(b.(stack := b.stack[..|b.stack| - 1]), ValueItem(v), top.anchor)
  }

  // --- steps and runs

  function Step(loader: Loader, b: Build, e: Event): Result<Build> {
    match e
    case DocumentStart => if b.docs >= 1 then Err(DocumentFault) else Ok(b.(docs := b.docs + 1))
    case SequenceStart(anchor, tag) =>
      var (id, env) :- Named(b.env, anchor);
      var shape :- ShapeOf(tag, false);
      Opened(b.(env := env), SeqFrame([], shape), id)
    case MappingStart(anchor, tag) =>
      var (id, env) :- Named(b.env, anchor);
      var shape :- ShapeOf(tag, true);
      Opened(b.(env := env), MapFrame([], None, shape), id)
    case SequenceEnd => Closed(loader, b)
    case MappingEnd => Closed(loader, b)
    case Scalar(anchor, tag, implicit, value) =>
      var (id, env) :- Named(b.env, anchor);
      var env2 :- Charge(env, 1);
      var item :- ScalarItem(loader, value, implicit, tag);
      Pushed(b.(env := env2), item, id)
    case Alias(name) =>
      var (v, env) :- Pasted(b.env, name, |b.stack|);
      Pushed(b.(env := env), ValueItem(v), 0)
    case StreamStart => Ok(b)
    case StreamEnd => Ok(b)
    case DocumentEnd => Ok(b)
  }

  function Run(loader: Loader, b: Build, es: seq<Event>): Result<Build>
    decreases |es|
  {
    if es == [] then Ok(b)
    else
      var b2 :- Step(loader, b, es[0]);
      Run(loader, b2, es[1..])
  }

  lemma {:induction false} RunConcat(loader: Loader, b: Build, es: seq<Event>, more: seq<Event>)
    ensures Run(loader, b, es + more) ==
            match Run(loader, b, es)
            case Ok(b2) => Run(loader, b2, more)
            case Err(f) => Err(f)
    decreases |es|
  {
    hide Step;
    if es == [] {
      assert es + more == more;
    } else {
      assert (es + more)[1..] == es[1..] + more;
      var b2 := Step(loader, b, es[0]);
      if b2.Ok? {
        RunConcat(loader, b2.value, es[1..], more);
      }
    }
  }

  // --- the builder as an object

  class Builder {
    const loader: Loader
    var stack: seq<Level>
    var anchors: map<nat, (Value, nat)>
    var names: map<string, nat>
    var nodes: nat
    var done: Option<Value>
    var docs: nat

    ghost function Now(): Build
      reads this
    {
      Build(stack, Env(anchors, names, nodes), done, docs)
    }

    constructor (loader: Loader)
      ensures this.loader == loader && Now() == FRESH
    {
      this.loader := loader;
      stack, anchors, names, nodes, done, docs := [], map[], map[], 0, None, 0;
    }

    method AnchorId(name: Option<string>) returns (r: Result<nat>)
      modifies this`names
      ensures match Named(old(Now()).env, name)
              case Ok((id, env)) => r == Ok(id) && Now() == old(Now()).(env := env)
              case Err(f) => r == Err(f)
    {
      match name {
        case None => return Ok(0);
        case Some(s) =>
          if s in names {
            return Err(AnchorFault);
          }
          var id := |names| + 1;
          names := names[s := id];
          return Ok(id);
      }
    }

    method Count(n: nat) returns (r: Result<()>)
      modifies this`nodes
      ensures match Charge(old(Now()).env, n)
              case Ok(env) => r.Ok? && Now() == old(Now()).(env := env)
              case Err(f) => r == Err(f)
    {
      nodes := nodes + n;
      return if nodes > MAX_NODES then Err(BudgetFault) else Ok(());
    }

    method Open(f: Frame, anchor: nat) returns (r: Result<()>)
      modifies this
      ensures match Opened(old(Now()), f, anchor)
              case Ok(b) => r.Ok? && Now() == b
              case Err(f) => r == Err(f)
    {
      if |stack| >= MAX_DEPTH {
        return Err(DepthFault);
      }
      var _ :- Count(1);
      stack := stack + [Level(f, anchor)];
      return Ok(());
    }

    method Close() returns (r: Result<()>)
      modifies this
      ensures match Closed(loader, old(Now()))
              case Ok(b) => r.Ok? && Now() == b
              case Err(f) => r == Err(f)
    {
      hide Pushed;
      if stack == [] {
        return Err(UnbalancedFault);
      }
      var top := stack[|stack| - 1];
      stack := stack[..|stack| - 1];
      var v;
      match top.frame {
        case SeqFrame(items, shape) =>
          if shape == PairsShape {
            var pairs :- PairsOf(items);
            v := Seq(pairs);
          } else {
            v := Seq(items);
          }
        case MapFrame(slots, None, shape) =>
          var entries :- Flatten(slots, loader.number);
          if shape == SetShape {
            entries := KeySet(entries);
          }
          v := Map(entries);
        case MapFrame(_, Some(_), _) => return Err(DanglingKeyFault);
      }
      assert FrameValue(loader, top.frame) == Ok(v);
      r := Push(ValueItem(v), top.anchor);
    }

    method Push(item: Item, anchor: nat) returns (r: Result<()>)
      modifies this`stack, this`anchors, this`nodes, this`done
      ensures match Pushed(old(Now()), item, anchor)
              case Ok(b) => r.Ok? && Now() == b
              case Err(f) => r == Err(f)
    {
      if anchor != 0 && item.ValueItem? {
        var _ :- Count(Weigh(item.value, Charged));
        anchors := anchors[anchor := (item.value, Depth(item.value))];
      }
      if stack == [] {
        var v :- AsValue(item);
        done := Some(v);
        return Ok(());
      }
      var top := stack[|stack| - 1];
      var f := top.frame;
      match f {
        case SeqFrame(items, _) =>
          var v :- AsValue(item);
          f := f.(items := items + [v]);
        case MapFrame(_, None, _) =>
          f := f.(key := Some(if item.Equals? then ValueItem(Str("=")) else item));
        case MapFrame(slots, Some(k), _) =>
          var v :- AsValue(item);
          f := f.(slots := slots + [Slot(k, v)], key := None);
      }
      stack := stack[..|stack| - 1] + [Level(f, top.anchor)];
      return Ok(());
    }

    method Take(e: Event) returns (r: Result<()>)
      modifies this
      ensures match Step(loader, old(Now()), e)
              case Ok(b) => r.Ok? && Now() == b
              case Err(f) => r == Err(f)
    {
      hide Closed, Opened, Pushed, ShapeOf, Kind;
      match e {
        case DocumentStart =>
          docs := docs + 1;
          if docs > 1 {
            return Err(DocumentFault);
          }
        case SequenceStart(anchor, tag) =>
          var id :- AnchorId(anchor);
          var shape :- ShapeOf(tag, false);
          r := Open(SeqFrame([], shape), id);
          return;
        case MappingStart(anchor, tag) =>
          var id :- AnchorId(anchor);
          var shape :- ShapeOf(tag, true);
          r := Open(MapFrame([], None, shape), id);
          return;
        case SequenceEnd =>
          r := Close();
          return;
        case MappingEnd =>
          r := Close();
          return;
        case Scalar(anchor, tag, implicit, value) =>
          var id :- AnchorId(anchor);
          var _ :- Count(1);
          var item :- ScalarItem(loader, value, implicit, tag);
          r := Push(item, id);
          return;
        case Alias(name) =>
          r := TakeAlias(name);
          return;
        case _ =>
      }
      return Ok(());
    }

    /** An alias, refused before anything is pasted where the copy would be too
        dear or too deep. */
    method TakeAlias(name: string) returns (r: Result<()>)
      modifies this
      ensures match Step(loader, old(Now()), Event.Alias(name))
              case Ok(b) => r.Ok? && Now() == b
              case Err(f) => r == Err(f)
    {
      hide Pushed;
      if name !in names {
        return Err(AnchorFault);
      }
      var id := names[name];
      if id !in anchors {
        return Err(AnchorFault);
      }
      var (v, depth) := anchors[id];
      if |stack| + depth > MAX_DEPTH {
        return Err(DepthFault);
      }
      var _ :- Count(Weigh(v, Charged));
      r := Push(ValueItem(v), 0);
    }

    /** Every event in turn; the value of the one document, if there was one. */
    method Load(es: seq<Event>) returns (r: Result<Option<Value>>)
      modifies this
      ensures match Run(loader, old(Now()), es)
              case Ok(b) => r == Ok(b.done) && Now() == b
              case Err(f) => r == Err(f)
    {
      hide Step;
      ghost var start := Now();
      var n := 0;
      while n < |es|
        invariant n <= |es| && Run(loader, start, es) == Run(loader, Now(), es[n..])
      {
        assert es[n..][1..] == es[n + 1..];
        var _ :- Take(es[n]);
        n := n + 1;
      }
      return Ok(done);
    }
  }

  method PairsOf(items: seq<Value>) returns (r: Result<seq<Value>>)
    ensures r == PairItems(items)
  {
    var out: seq<Value> := [];
    var n := 0;
    while n < |items|
      invariant n <= |items| && PairItems(items[..n]) == Ok(out)
    {
      assert items[..n + 1][..n] == items[..n];
      match items[n] {
        case Map(m) =>
          if |m| != 1 {
            PairItemsFail(items, n + 1);
            return Err(ValueFault);
          }
          out := out + [Seq([m[0].key, m[0].value])];
        case _ =>
          PairItemsFail(items, n + 1);
          return Err(ValueFault);
      }
      n := n + 1;
    }
    assert items[..n] == items;
    return Ok(out);
  }

  lemma {:induction false} PairItemsFail(items: seq<Value>, n: nat)
    requires n <= |items| && PairItems(items[..n]).Err?
    ensures PairItems(items) == Err(ValueFault)
    decreases |items| - n
  {
    if n < |items| {
      assert items[..n + 1][..n] == items[..n];
      PairItemsFail(items, n + 1);
    } else {
      assert items[..n] == items;
      PairItemsFault(items);
    }
  }

  lemma {:induction false} PairItemsFault(items: seq<Value>)
    ensures PairItems(items).Err? ==> PairItems(items) == Err(ValueFault)
  {
    if items != [] {
      PairItemsFault(items[..|items| - 1]);
    }
  }

  method KeySet(entries: seq<Entry>) returns (keys: seq<Entry>)
    ensures keys == KeysOnly(entries)
  {
    keys := [];
    var n := 0;
    while n < |entries|
      invariant n <= |entries| && keys == KeysOnly(entries[..n])
    {
      assert entries[..n + 1][..n] == entries[..n];
      keys := keys + [Entry(entries[n].key, Null)];
      n := n + 1;
    }
    assert entries[..n] == entries;
  }
}
