/** What the tree builder can cost: at every point of every run the nodes it
    holds are within the budget, their text within the events' text and 64
    bytes for each node charged, and nothing nests past the bound. */
module YamlBounds {
  import opened Results
  import opened YamlTree
  import opened YamlValue
  import opened YamlFlatten
  import opened YamlBuilder

  // --- what a state holds

  function ItemWeigh(item: Item, m: Measure): nat {
    match item
    case ValueItem(v) => Weigh(v, m)
    case Merge => 0
    case Equals => Weigh(Str("="), m)
  }

  function SlotWeigh(s: Slot, m: Measure): nat {
    ItemWeigh(s.key, m) + Weigh(s.value, m)
  }

  function WeighSlots(slots: seq<Slot>, m: Measure): nat {
    if slots == [] then 0 else WeighSlots(slots[..|slots| - 1], m) + SlotWeigh(slots[|slots| - 1], m)
  }

  function FrameWeigh(f: Frame, m: Measure): nat {
    match f
    case SeqFrame(items, _) => Own(m) + WeighAll(items, m)
    case MapFrame(slots, None, _) => Own(m) + WeighSlots(slots, m)
    case MapFrame(slots, Some(k), _) => Own(m) + WeighSlots(slots, m) + ItemWeigh(k, m)
  }

  function StackWeigh(stack: seq<Level>, m: Measure): nat {
    if stack == [] then 0 else StackWeigh(stack[..|stack| - 1], m) + FrameWeigh(stack[|stack| - 1].frame, m)
  }

  /** The copies kept for the first `n` anchors. */
  function KeptWeigh(anchors: map<nat, (Value, nat)>, n: nat, m: Measure): nat {
    if n == 0 then 0 else KeptWeigh(anchors, n - 1, m) + if n in anchors then Weigh(anchors[n].0, m) else 0
  }

  /** Everything a build holds: open collections, kept copies, the finished value. */
  function Held(b: Build, m: Measure): nat {
    StackWeigh(b.stack, m) + KeptWeigh(b.env.anchors, |b.env.names|, m) + if b.done.Some? then Weigh(b.done.value, m) else 0
  }

  /** What may be held, after events with `text` bytes of text. */
  function Cap(env: Env, text: nat, m: Measure): nat {
    if m == Text then text + 64 * env.nodes else env.nodes
  }

  function ItemDepth(item: Item): nat {
    if item.ValueItem? then Depth(item.value) else 0
  }

  function DepthSlots(slots: seq<Slot>): nat {
    if slots == [] then 0
    else Max(DepthSlots(slots[..|slots| - 1]), Max(ItemDepth(slots[|slots| - 1].key), Depth(slots[|slots| - 1].value)))
  }

  function FrameDepth(f: Frame): nat {
    match f
    case SeqFrame(items, _) => DepthAll(items)
    case MapFrame(slots, None, _) => DepthSlots(slots)
    case MapFrame(slots, Some(k), _) => Max(DepthSlots(slots), ItemDepth(k))
  }

  /** What an open collection holds may nest by what its own level leaves. */
  predicate StackFits(stack: seq<Level>) {
    |stack| <= MAX_DEPTH && forall i :: 0 <= i < |stack| ==> FrameDepth(stack[i].frame) + i + 1 <= MAX_DEPTH
  }

  /** Kept copies have a name's id and their depth beside them; ids of open
      collections are names' too, each its own, and have no copy yet. */
  predicate EnvFits(env: Env) {
    && (forall id :: id in env.anchors ==> 1 <= id <= |env.names| && env.anchors[id].1 == Depth(env.anchors[id].0) <= MAX_DEPTH)
    && (forall s :: s in env.names ==> env.names[s] <= |env.names|)
  }

  predicate OpenIds(stack: seq<Level>, env: Env) {
    && (forall i :: 0 <= i < |stack| ==> stack[i].anchor <= |env.names| && stack[i].anchor !in env.anchors)
    && (forall i, j :: 0 <= i < j < |stack| && stack[i].anchor != 0 ==> stack[i].anchor != stack[j].anchor)
  }

  predicate Within(b: Build, text: nat, m: Measure, spare: nat) {
    Held(b, m) + spare <= Cap(b.env, text, m)
  }

  predicate Bounded(b: Build, text: nat) {
    Roomy(b, text, 0, 0)
  }

  /** Bounded, with room for more nodes and more text. */
  predicate Roomy(b: Build, text: nat, nodes: nat, bytes: nat) {
    && b.env.nodes <= MAX_NODES
    && Within(b, text, Nodes, nodes) && Within(b, text, Text, bytes)
    && StackFits(b.stack) && EnvFits(b.env) && OpenIds(b.stack, b.env)
    && (b.done.Some? ==> Depth(b.done.value) <= MAX_DEPTH)
  }

  function EventText(e: Event): nat {
    if e.Scalar? then Bytes(e.value) else 0
  }

  function EventsText(es: seq<Event>): nat {
    if es == [] then 0 else EventText(es[0]) + EventsText(es[1..])
  }

  // --- a dict weighs no more than its pairs

  lemma WeighEntriesAt(es: seq<Entry>, i: nat, m: Measure)
    requires i < |es|
    ensures WeighEntries(es, m) == WeighEntries(es[..i], m) + WeighEntry(es[i], m) + WeighEntries(es[i + 1..], m)
  {
    assert es == es[..i] + ([es[i]] + es[i + 1..]);
    WeighEntriesConcat(es[..i], [es[i]] + es[i + 1..], m);
    WeighEntriesConcat([es[i]], es[i + 1..], m);
    WeighEntriesOne(es[i], m);
  }

  lemma InsertWeigh(d: seq<Entry>, k: Key, e: Entry, number: string -> Key, m: Measure)
    ensures WeighEntries(Insert(d, k, e, number), m) <= WeighEntries(d, m) + WeighEntry(e, m)
  {
    var i := Place(d, k, number);
    if i < |d| {
      var d2 := Insert(d, k, e, number);
      WeighEntriesAt(d, i, m);
      WeighEntriesAt(d2, i, m);
      assert d2[..i] == d[..i] && d2[i + 1..] == d[i + 1..];
    } else {
      WeighEntriesConcat(d, [e], m);
      WeighEntriesOne(e, m);
    }
  }

  lemma {:induction false} DictWeigh(es: seq<Entry>, number: string -> Key, m: Measure)
    ensures Dict(es, number).Ok? ==> WeighEntries(Dict(es, number).value, m) <= WeighEntries(es, m)
  {
    hide Insert, KeyOf;
    if es != [] {
      var init, e := es[..|es| - 1], es[|es| - 1];
      DictWeigh(init, number, m);
      assert es == init + [e];
      WeighEntriesConcat(init, [e], m);
      WeighEntriesOne(e, m);
      if Dict(es, number).Ok? {
        InsertWeigh(Dict(init, number).value, KeyOf(e.key, number).value, e, number, m);
      }
    }
  }

  lemma {:induction false} ListWeigh(maps: seq<Value>, m: Measure)
    ensures ListSource(maps).Ok? ==> WeighEntries(ListSource(maps).value, m) <= WeighAll(maps, m)
  {
    if maps != [] {
      ListWeigh(maps[1..], m);
      if ListSource(maps).Ok? {
        WeighEntriesConcat(ListSource(maps[1..]).value, maps[0].entries, m);
      }
    }
  }

  lemma SourceWeigh(v: Value, m: Measure)
    ensures Source(v).Ok? ==> WeighEntries(Source(v).value, m) <= Weigh(v, m)
  {
    if v.Seq? {
      ListWeigh(v.items, m);
    }
  }

  lemma {:induction false} SlotsWeigh(slots: seq<Slot>, m: Measure)
    ensures Merged(slots).Ok? ==>
              WeighEntries(Merged(slots).value, m) + WeighEntries(OwnPairs(slots), m) <= WeighSlots(slots, m)
  {
    if slots != [] && Merged(slots).Ok? {
      var init, last := slots[..|slots| - 1], slots[|slots| - 1];
      SlotsWeigh(init, m);
      match last.key {
        case ValueItem(k) =>
          WeighEntriesConcat(OwnPairs(init), [Entry(k, last.value)], m);
          WeighEntriesOne(Entry(k, last.value), m);
        case Merge =>
          SourceWeigh(last.value, m);
          WeighEntriesConcat(Merged(init).value, Source(last.value).value, m);
          assert OwnPairs(slots) == OwnPairs(init);
        case Equals =>
      }
    }
  }

  lemma {:induction false} KeysOnlyWeigh(es: seq<Entry>, m: Measure)
    requires m != Charged
    ensures WeighEntries(KeysOnly(es), m) <= WeighEntries(es, m)
  {
    if es != [] {
      var init, e := es[..|es| - 1], es[|es| - 1];
      KeysOnlyWeigh(init, m);
      assert es == init + [e];
      WeighEntriesConcat(init, [e], m);
      WeighEntriesConcat(KeysOnly(init), [Entry(e.key, Null)], m);
      WeighEntriesOne(e, m);
      WeighEntriesOne(Entry(e.key, Null), m);
      WeighsNode(e.value);
    }
  }

  lemma {:induction false} PairItemsWeigh(items: seq<Value>, m: Measure)
    ensures PairItems(items).Ok? ==> WeighAll(PairItems(items).value, m) <= WeighAll(items, m)
  {
    if items != [] && PairItems(items).Ok? {
      var init, v := items[..|items| - 1], items[|items| - 1];
      PairItemsWeigh(init, m);
      assert items == init + [v];
      WeighAllConcat(init, [v], m);
      WeighAllOne(v, m);
      var p := Seq([v.entries[0].key, v.entries[0].value]);
      WeighAllConcat(PairItems(init).value, [p], m);
      WeighAllOne(p, m);
      PairWeigh(v.entries[0], m);
      assert v.entries == [v.entries[0]];
      WeighEntriesOne(v.entries[0], m);
    }
  }

  lemma PairWeigh(e: Entry, m: Measure)
    ensures Weigh(Seq([e.key, e.value]), m) == Own(m) + WeighEntry(e, m)
  {
    assert [e.key, e.value] == [e.key] + [e.value];
    WeighAllConcat([e.key], [e.value], m);
    WeighAllOne(e.key, m);
    WeighAllOne(e.value, m);
  }

  /** A finished collection weighs no more than it did open. */
  lemma FrameValueWeigh(loader: Loader, f: Frame, m: Measure)
    requires m != Charged
    ensures FrameValue(loader, f).Ok? ==> Weigh(FrameValue(loader, f).value, m) <= FrameWeigh(f, m)
  {
    match f {
      case SeqFrame(items, shape) => PairItemsWeigh(items, m);
      case MapFrame(slots, None, shape) =>
        if Flattened(slots, loader.number).Ok? {
          SlotsWeigh(slots, m);
          var all := Merged(slots).value + OwnPairs(slots);
          WeighEntriesConcat(Merged(slots).value, OwnPairs(slots), m);
          DictWeigh(all, loader.number, m);
          KeysOnlyWeigh(Dict(all, loader.number).value, m);
        }
      case MapFrame(_, Some(_), _) =>
    }
  }

  // --- nor nests deeper

  lemma DepthEntriesAt(es: seq<Entry>, i: nat)
    requires i < |es|
    ensures DepthEntries(es) == Max(DepthEntries(es[..i]), Max(DepthEntry(es[i]), DepthEntries(es[i + 1..])))
  {
    assert es == es[..i] + ([es[i]] + es[i + 1..]);
    DepthEntriesConcat(es[..i], [es[i]] + es[i + 1..]);
  }

  lemma InsertDepth(d: seq<Entry>, k: Key, e: Entry, number: string -> Key)
    ensures DepthEntries(Insert(d, k, e, number)) <= Max(DepthEntries(d), DepthEntry(e))
  {
    var i := Place(d, k, number);
    if i < |d| {
      var d2 := Insert(d, k, e, number);
      DepthEntriesAt(d, i);
      DepthEntriesAt(d2, i);
      assert d2[..i] == d[..i] && d2[i + 1..] == d[i + 1..];
    } else {
      DepthEntriesConcat(d, [e]);
      DepthOnes(Null, e);
    }
  }

  lemma {:induction false} DictDepth(es: seq<Entry>, number: string -> Key)
    ensures Dict(es, number).Ok? ==> DepthEntries(Dict(es, number).value) <= DepthEntries(es)
  {
    hide Insert, KeyOf;
    if es != [] {
      var init, e := es[..|es| - 1], es[|es| - 1];
      DictDepth(init, number);
      assert es == init + [e];
      DepthEntriesConcat(init, [e]);
      DepthOnes(Null, e);
      if Dict(es, number).Ok? {
        InsertDepth(Dict(init, number).value, KeyOf(e.key, number).value, e, number);
      }
    }
  }

  lemma {:induction false} ListDepth(maps: seq<Value>)
    ensures ListSource(maps).Ok? ==> DepthEntries(ListSource(maps).value) <= DepthAll(maps)
  {
    if maps != [] {
      ListDepth(maps[1..]);
      if ListSource(maps).Ok? {
        DepthEntriesConcat(ListSource(maps[1..]).value, maps[0].entries);
      }
    }
  }

  lemma SourceDepth(v: Value)
    ensures Source(v).Ok? ==> DepthEntries(Source(v).value) <= Depth(v)
  {
    if v.Seq? {
      ListDepth(v.items);
    }
  }

  lemma {:induction false} SlotsDepth(slots: seq<Slot>)
    ensures Merged(slots).Ok? ==>
              DepthEntries(Merged(slots).value) <= DepthSlots(slots) && DepthEntries(OwnPairs(slots)) <= DepthSlots(slots)
  {
    if slots != [] && Merged(slots).Ok? {
      var init, last := slots[..|slots| - 1], slots[|slots| - 1];
      SlotsDepth(init);
      match last.key {
        case ValueItem(k) =>
          DepthEntriesConcat(OwnPairs(init), [Entry(k, last.value)]);
          DepthOnes(Null, Entry(k, last.value));
        case Merge =>
          SourceDepth(last.value);
          DepthEntriesConcat(Merged(init).value, Source(last.value).value);
          assert OwnPairs(slots) == OwnPairs(init);
        case Equals =>
      }
    }
  }

  lemma {:induction false} KeysOnlyDepth(es: seq<Entry>)
    ensures DepthEntries(KeysOnly(es)) <= DepthEntries(es)
  {
    if es != [] {
      var init, e := es[..|es| - 1], es[|es| - 1];
      KeysOnlyDepth(init);
      assert es == init + [e];
      DepthEntriesConcat(init, [e]);
      DepthEntriesConcat(KeysOnly(init), [Entry(e.key, Null)]);
      DepthOnes(Null, e);
      DepthOnes(Null, Entry(e.key, Null));
    }
  }

  lemma {:induction false} PairItemsDepth(items: seq<Value>)
    ensures PairItems(items).Ok? ==> DepthAll(PairItems(items).value) <= DepthAll(items)
  {
    if items != [] && PairItems(items).Ok? {
      var init, v := items[..|items| - 1], items[|items| - 1];
      PairItemsDepth(init);
      assert items == init + [v];
      DepthAllConcat(init, [v]);
      var e := v.entries[0];
      assert v.entries == [e] && [e.key, e.value] == [e.key] + [e.value];
      var p := Seq([e.key, e.value]);
      DepthAllConcat(PairItems(init).value, [p]);
      DepthAllConcat([e.key], [e.value]);
      DepthOnes(v, e);
      DepthOnes(p, e);
      DepthOnes(e.key, e);
      DepthOnes(e.value, e);
    }
  }

  lemma FrameValueDepth(loader: Loader, f: Frame)
    ensures FrameValue(loader, f).Ok? ==> Depth(FrameValue(loader, f).value) <= 1 + FrameDepth(f)
  {
    match f {
      case SeqFrame(items, shape) => PairItemsDepth(items);
      case MapFrame(slots, None, shape) =>
        if Flattened(slots, loader.number).Ok? {
          SlotsDepth(slots);
          var all := Merged(slots).value + OwnPairs(slots);
          DepthEntriesConcat(Merged(slots).value, OwnPairs(slots));
          DictDepth(all, loader.number);
          KeysOnlyDepth(Dict(all, loader.number).value);
        }
      case MapFrame(_, Some(_), _) =>
    }
  }

  // --- every step keeps the bounds

  /** An id that no open collection and no kept copy has. */
  predicate FreshId(b: Build, id: nat) {
    id != 0 ==> id <= |b.env.names| && id !in b.env.anchors && forall i :: 0 <= i < |b.stack| ==> b.stack[i].anchor != id
  }

  lemma NamedKeeps(b: Build, text: nat, name: Option<string>)
    requires Bounded(b, text) && Named(b.env, name).Ok?
    ensures var (id, env) := Named(b.env, name).value;
            Bounded(b.(env := env), text) && FreshId(b.(env := env), id)
  {
    hide StackWeigh, FrameDepth, Depth, Weigh;
    if name.Some? {
      var n := |b.env.names|;
      var (id, env) := Named(b.env, name).value;
      assert |env.names| == n + 1;
      assert n + 1 !in b.env.anchors;
      forall m: Measure ensures Held(b.(env := env), m) == Held(b, m) {
        assert KeptWeigh(b.env.anchors, n + 1, m) == KeptWeigh(b.env.anchors, n, m);
      }
    }
  }

  lemma ChargeKeeps(b: Build, text: nat, n: nat)
    requires Bounded(b, text) && Charge(b.env, n).Ok?
    ensures Roomy(b.(env := Charge(b.env, n).value), text, n, 64 * n)
  {
    hide StackWeigh, KeptWeigh, FrameDepth, Depth, Weigh;
  }

  lemma {:induction false} KeptMore(anchors: map<nat, (Value, nat)>, n: nat, id: nat, v: Value, d: nat, m: Measure)
    requires 1 <= id && id !in anchors
    ensures KeptWeigh(anchors[id := (v, d)], n, m) == KeptWeigh(anchors, n, m) + if id <= n then Weigh(v, m) else 0
  {
    if n > 0 {
      KeptMore(anchors, n - 1, id, v, d, m);
    }
  }

  lemma RecordedKeeps(b: Build, text: nat, nodes: nat, bytes: nat, id: nat, item: Item)
    requires Roomy(b, text, nodes, bytes) && FreshId(b, id) && ItemDepth(item) <= MAX_DEPTH
    requires Recorded(b.env, id, item).Ok?
    ensures Roomy(b.(env := Recorded(b.env, id, item).value), text, nodes, bytes)
  {
    hide StackWeigh, KeptWeigh, FrameDepth, Depth, Weigh;
    if id != 0 && item.ValueItem? {
      var v := item.value;
      KeptMore(b.env.anchors, |b.env.names|, id, v, Depth(v), Nodes);
      KeptMore(b.env.anchors, |b.env.names|, id, v, Depth(v), Text);
      ChargeCovers(v);
    }
  }

  lemma FramePlacedWeigh(f: Frame, item: Item, m: Measure)
    requires FramePlaced(f, item).Ok?
    ensures FrameWeigh(FramePlaced(f, item).value, m) == FrameWeigh(f, m) + ItemWeigh(item, m)
  {
    match f {
      case SeqFrame(items, _) =>
        WeighAllConcat(items, [item.value], m);
        WeighAllOne(item.value, m);
      case MapFrame(slots, None, _) =>
      case MapFrame(slots, Some(k), _) =>
        var s := Slot(k, item.value);
        assert (slots + [s])[..|slots|] == slots;
    }
  }

  lemma FramePlacedDepth(f: Frame, item: Item)
    requires FramePlaced(f, item).Ok?
    ensures FrameDepth(FramePlaced(f, item).value) <= Max(FrameDepth(f), ItemDepth(item))
  {
    match f {
      case SeqFrame(items, _) =>
        DepthAllConcat(items, [item.value]);
        DepthOnes(item.value, Entry(Null, Null));
      case MapFrame(slots, None, _) =>
      case MapFrame(slots, Some(k), _) =>
        var s := Slot(k, item.value);
        assert (slots + [s])[..|slots|] == slots;
    }
  }

  lemma PlacedKeeps(b: Build, text: nat, item: Item)
    requires Roomy(b, text, ItemWeigh(item, Nodes), ItemWeigh(item, Text)) && |b.stack| + ItemDepth(item) <= MAX_DEPTH
    requires Placed(b, item).Ok?
    ensures Bounded(Placed(b, item).value, text)
  {
    hide KeptWeigh, FrameDepth, FrameWeigh, Depth, Weigh, FramePlaced;
    var b2 := Placed(b, item).value;
    if b.stack != [] {
      var below, top := b.stack[..|b.stack| - 1], b.stack[|b.stack| - 1];
      var f := FramePlaced(top.frame, item).value;
      assert b2.stack == below + [Level(f, top.anchor)] && b2.stack[..|below|] == below;
      FramePlacedWeigh(top.frame, item, Nodes);
      FramePlacedWeigh(top.frame, item, Text);
      FramePlacedDepth(top.frame, item);
    }
  }

  lemma PushedKeeps(b: Build, text: nat, nodes: nat, bytes: nat, id: nat, item: Item)
    requires Roomy(b, text, nodes, bytes) && FreshId(b, id) && |b.stack| + ItemDepth(item) <= MAX_DEPTH
    requires ItemWeigh(item, Nodes) <= nodes && ItemWeigh(item, Text) <= bytes
    requires Pushed(b, item, id).Ok?
    ensures Bounded(Pushed(b, item, id).value, text)
  {
    hide StackWeigh, KeptWeigh, FrameDepth, Depth, Weigh, Held, StackFits, EnvFits, OpenIds, Recorded, Placed;
    RecordedKeeps(b, text, nodes, bytes, id, item);
    PlacedKeeps(b.(env := Recorded(b.env, id, item).value), text, item);
  }

  lemma OpenedKeeps(b: Build, text: nat, f: Frame, id: nat)
    requires Bounded(b, text) && FreshId(b, id) && FrameDepth(f) == 0 && FrameWeigh(f, Nodes) == 1 && FrameWeigh(f, Text) == 0
    requires Opened(b, f, id).Ok?
    ensures Bounded(Opened(b, f, id).value, text)
  {
    hide KeptWeigh, FrameDepth, FrameWeigh, Depth, Weigh;
    var b2 := Opened(b, f, id).value;
    assert b2.stack[..|b.stack|] == b.stack;
  }

  lemma ClosedKeeps(loader: Loader, b: Build, text: nat)
    requires Bounded(b, text) && Closed(loader, b).Ok?
    ensures Bounded(Closed(loader, b).value, text)
  {
    hide KeptWeigh, FrameDepth, FrameWeigh, Depth, Weigh, FrameValue, Pushed;
    var below, top := b.stack[..|b.stack| - 1], b.stack[|b.stack| - 1];
    var v := FrameValue(loader, top.frame).value;
    FrameValueWeigh(loader, top.frame, Nodes);
    FrameValueWeigh(loader, top.frame, Text);
    FrameValueDepth(loader, top.frame);
    var popped := b.(stack := below);
    assert Roomy(popped, text, FrameWeigh(top.frame, Nodes), FrameWeigh(top.frame, Text));
    PushedKeeps(popped, text, FrameWeigh(top.frame, Nodes), FrameWeigh(top.frame, Text), top.anchor, ValueItem(v));
  }

  lemma ScalarWeighs(loader: Loader, text: string, implicit: bool, tag: Option<string>)
    requires Sound(loader) && ScalarItem(loader, text, implicit, tag).Ok?
    ensures var item := ScalarItem(loader, text, implicit, tag).value;
            ItemWeigh(item, Nodes) <= 1 && ItemWeigh(item, Text) <= Bytes(text) + 64 && ItemDepth(item) == 0
  {
    var r := loader.scalar(text, implicit, tag);
    assert r.Ok? ==> IsScalar(r.value) && Weigh(r.value, Text) <= Bytes(text) + 64;
  }

  lemma ScalarKeeps(loader: Loader, b: Build, text: nat, e: Event)
    requires Sound(loader) && Bounded(b, text) && e.Scalar? && Step(loader, b, e).Ok?
    ensures Bounded(Step(loader, b, e).value, text + EventText(e))
  {
    hide StackWeigh, KeptWeigh, FrameDepth, Depth, Weigh, EnvFits, OpenIds, Named, Sound, ScalarItem, Pushed, ItemWeigh, ItemDepth;
    NamedKeeps(b, text, e.anchor);
    var (id, env) := Named(b.env, e.anchor).value;
    ChargeKeeps(b.(env := env), text, 1);
    var env2 := Charge(env, 1).value;
    ScalarWeighs(loader, e.value, e.implicit, e.tag);
    var item := ScalarItem(loader, e.value, e.implicit, e.tag).value;
    assert FreshId(b.(env := env2), id);
    assert Roomy(b.(env := env2), text + Bytes(e.value), 1, Bytes(e.value) + 64);
    PushedKeeps(b.(env := env2), text + Bytes(e.value), 1, Bytes(e.value) + 64, id, item);
  }

  lemma AliasKeeps(loader: Loader, b: Build, text: nat, e: Event)
    requires Bounded(b, text) && e.Alias? && Step(loader, b, e).Ok?
    ensures Bounded(Step(loader, b, e).value, text)
  {
    hide StackWeigh, KeptWeigh, FrameDepth, Depth, Weigh, OpenIds, Pushed, StackFits;
    var (v, env) := Pasted(b.env, e.name, |b.stack|).value;
    ChargeKeeps(b, text, Weigh(v, Charged));
    ChargeCovers(v);
    PushedKeeps(b.(env := env), text, Weigh(v, Charged), 64 * Weigh(v, Charged), 0, ValueItem(v));
  }

  lemma EmptyFrames(shape: Shape, m: Measure)
    ensures FrameDepth(SeqFrame([], shape)) == 0 == FrameDepth(MapFrame([], None, shape))
    ensures FrameWeigh(SeqFrame([], shape), m) == Own(m) == FrameWeigh(MapFrame([], None, shape), m)
  {
  }

  lemma StepKeeps(loader: Loader, b: Build, text: nat, e: Event)
    requires Sound(loader) && Bounded(b, text) && Step(loader, b, e).Ok?
    ensures Bounded(Step(loader, b, e).value, text + EventText(e))
  {
    match e {
      case Scalar(_, _, _, _) => ScalarKeeps(loader, b, text, e);
      case Alias(_) => AliasKeeps(loader, b, text, e);
      case SequenceEnd => ClosedKeeps(loader, b, text);
      case MappingEnd => ClosedKeeps(loader, b, text);
      case SequenceStart(anchor, tag) => StartKeeps(loader, b, text, e);
      case MappingStart(anchor, tag) => StartKeeps(loader, b, text, e);
      case _ =>
    }
  }

  lemma StartKeeps(loader: Loader, b: Build, text: nat, e: Event)
    requires Bounded(b, text) && (e.SequenceStart? || e.MappingStart?) && Step(loader, b, e).Ok?
    ensures Bounded(Step(loader, b, e).value, text)
  {
    hide StackWeigh, KeptWeigh, Depth, Weigh, FrameDepth, FrameWeigh, Named, Opened, Bounded, FreshId, ShapeOf;
    NamedKeeps(b, text, e.anchor);
    var (id, env) := Named(b.env, e.anchor).value;
    var shape := ShapeOf(e.tag, e.MappingStart?).value;
    EmptyFrames(shape, Nodes);
    EmptyFrames(shape, Text);
    OpenedKeeps(b.(env := env), text, if e.SequenceStart? then SeqFrame([], shape) else MapFrame([], None, shape), id);
  }

  lemma {:induction false} RunKeeps(loader: Loader, b: Build, text: nat, es: seq<Event>)
    requires Sound(loader) && Bounded(b, text) && Run(loader, b, es).Ok?
    ensures Bounded(Run(loader, b, es).value, text + EventsText(es))
    decreases |es|
  {
    hide Step, Bounded, Sound;
    if es != [] {
      StepKeeps(loader, b, text, es[0]);
      RunKeeps(loader, Step(loader, b, es[0]).value, text + EventText(es[0]), es[1..]);
    }
  }

  /** At every point of every build that succeeds: the nodes of the open
      collections, the finished value and all kept copies together are at most
      the count, itself at most the budget; their text is at most the scalars'
      and 64 bytes for each node counted; and nothing nests past the bound. */
  lemma EveryBuildIsBounded(loader: Loader, es: seq<Event>, k: nat)
    requires Sound(loader) && k <= |es| && Run(loader, FRESH, es).Ok?
    ensures Run(loader, FRESH, es[..k]).Ok?
    ensures var b := Run(loader, FRESH, es[..k]).value;
            && Held(b, Nodes) <= b.env.nodes <= MAX_NODES
            && Held(b, Text) <= EventsText(es[..k]) + 64 * b.env.nodes
            && StackFits(b.stack)
            && (b.done.Some? ==> Depth(b.done.value) <= MAX_DEPTH)
            && forall id :: id in b.env.anchors ==> Depth(b.env.anchors[id].0) <= MAX_DEPTH
  {
    hide Run, Held, StackFits, Depth;
    assert es == es[..k] + es[k..];
    RunConcat(loader, FRESH, es[..k], es[k..]);
    FreshBounded();
    RunKeeps(loader, FRESH, 0, es[..k]);
  }

  lemma FreshBounded()
    ensures Bounded(FRESH, 0)
  {
  }

  /** No value contains itself: an alias, inside a collection still open, to the
      anchor of that collection is an error. */
  lemma NoValueContainsItself(loader: Loader, es: seq<Event>, name: string, i: nat)
    requires Sound(loader) && Run(loader, FRESH, es).Ok?
    ensures var b := Run(loader, FRESH, es).value;
            i < |b.stack| && name in b.env.names && b.stack[i].anchor == b.env.names[name]
            ==> Step(loader, b, Event.Alias(name)) == Err(AnchorFault)
  {
    hide Run, Held, Depth, FrameDepth;
    FreshBounded();
    RunKeeps(loader, FRESH, 0, es);
  }
}
