/** The values the tree builder makes, and what one weighs: in nodes, in bytes
    of text, and in what pasting a copy of it is charged. */
module YamlValue {
  import opened Results

  datatype Entry = Entry(key: Value, value: Value)

  /** A float or a timestamp is kept as written (`Other`). */
  datatype Value =
    | Null
    | Bool(b: bool)
    | Int(n: int)
    | Other(text: string)
    | Str(text: string)
    | Seq(items: seq<Value>)
    | Map(entries: seq<Entry>)

  predicate IsScalar(v: Value) {
    !v.Seq? && !v.Map?
  }

  /** The bytes of a text in UTF-8. */
  function Bytes(s: string): nat {
    if s == "" then 0
    else
      (if s[0] < '\U{0080}' then 1 else if s[0] < '\U{0800}' then 2 else if s[0] < '\U{10000}' then 3 else 4)
      + Bytes(s[1..])
  }

  datatype Measure =
    | Nodes    // one for each node
    | Text     // the bytes of every text
    | Charged  // one for each node, and one more for every 64 bytes of its text

  function Leaf(text: string, m: Measure): nat {
    match m
    case Nodes => 1
    case Text => Bytes(text)
    case Charged => 1 + Bytes(text) / 64
  }

  function Own(m: Measure): nat {
    if m == Text then 0 else 1
  }

  function Weigh(v: Value, m: Measure): nat
    decreases v, 1
  {
    match v
    case Seq(items) => Own(m) + WeighAll(items, m)
    case Map(entries) => Own(m) + WeighEntries(entries, m)
    case Str(text) => Leaf(text, m)
    case Other(text) => Leaf(text, m)
    case _ => Own(m)
  }

  function WeighAll(items: seq<Value>, m: Measure): nat
    decreases items, 0
  {
    if items == [] then 0 else Weigh(items[0], m) + WeighAll(items[1..], m)
  }

  function WeighEntries(entries: seq<Entry>, m: Measure): nat
    decreases entries, 0
  {
    if entries == [] then 0 else WeighEntry(entries[0], m) + WeighEntries(entries[1..], m)
  }

  function WeighEntry(e: Entry, m: Measure): nat
    decreases e, 0
  {
    Weigh(e.key, m) + Weigh(e.value, m)
  }

  lemma {:induction false} WeighAllConcat(a: seq<Value>, b: seq<Value>, m: Measure)
    ensures WeighAll(a + b, m) == WeighAll(a, m) + WeighAll(b, m)
  {
    if a == [] {
      assert a + b == b;
    } else {
      assert (a + b)[1..] == a[1..] + b;
      WeighAllConcat(a[1..], b, m);
    }
  }

  lemma {:induction false} WeighEntriesConcat(a: seq<Entry>, b: seq<Entry>, m: Measure)
    ensures WeighEntries(a + b, m) == WeighEntries(a, m) + WeighEntries(b, m)
  {
    if a == [] {
      assert a + b == b;
    } else {
      assert (a + b)[1..] == a[1..] + b;
      WeighEntriesConcat(a[1..], b, m);
    }
  }

  lemma WeighAllOne(v: Value, m: Measure)
    ensures WeighAll([v], m) == Weigh(v, m)
  {
    assert [v][1..] == [];
  }

  lemma WeighEntriesOne(e: Entry, m: Measure)
    ensures WeighEntries([e], m) == WeighEntry(e, m)
  {
    assert [e][1..] == [];
  }

  /** Every value is a node at least. */
  lemma WeighsNode(v: Value)
    ensures Weigh(v, Nodes) >= 1
  {
  }

  /** What a copy is charged covers its nodes, and its text at 64 bytes a node. */
  lemma {:induction false} ChargeCovers(v: Value)
    ensures Weigh(v, Nodes) <= Weigh(v, Charged)
    ensures Weigh(v, Text) <= 64 * Weigh(v, Charged)
    decreases v, 1
  {
    match v {
      case Seq(items) => ChargeCoversAll(items);
      case Map(entries) => ChargeCoversEntries(entries);
      case _ =>
    }
  }

  lemma {:induction false} ChargeCoversAll(items: seq<Value>)
    ensures WeighAll(items, Nodes) <= WeighAll(items, Charged)
    ensures WeighAll(items, Text) <= 64 * WeighAll(items, Charged)
    decreases items, 0
  {
    if items != [] {
      ChargeCovers(items[0]);
      ChargeCoversAll(items[1..]);
    }
  }

  lemma {:induction false} ChargeCoversEntries(entries: seq<Entry>)
    ensures WeighEntries(entries, Nodes) <= WeighEntries(entries, Charged)
    ensures WeighEntries(entries, Text) <= 64 * WeighEntries(entries, Charged)
    decreases entries, 0
  {
    if entries != [] {
      ChargeCoversEntry(entries[0]);
      ChargeCoversEntries(entries[1..]);
    }
  }

  lemma {:induction false} ChargeCoversEntry(e: Entry)
    ensures WeighEntry(e, Nodes) <= WeighEntry(e, Charged)
    ensures WeighEntry(e, Text) <= 64 * WeighEntry(e, Charged)
    decreases e, 0
  {
    ChargeCovers(e.key);
    ChargeCovers(e.value);
  }

  // --- depth

  function Max(a: nat, b: nat): nat {
    if a < b then b else a
  }

  function Depth(v: Value): nat
    decreases v, 1
  {
    match v
    case Seq(items) => 1 + DepthAll(items)
    case Map(entries) => 1 + DepthEntries(entries)
    case _ => 0
  }

  function DepthAll(items: seq<Value>): nat
    decreases items, 0
  {
    if items == [] then 0 else Max(Depth(items[0]), DepthAll(items[1..]))
  }

  function DepthEntries(entries: seq<Entry>): nat
    decreases entries, 0
  {
    if entries == [] then 0 else Max(DepthEntry(entries[0]), DepthEntries(entries[1..]))
  }

  function DepthEntry(e: Entry): nat
    decreases e, 0
  {
    Max(Depth(e.key), Depth(e.value))
  }

  lemma {:induction false} DepthAllConcat(a: seq<Value>, b: seq<Value>)
    ensures DepthAll(a + b) == Max(DepthAll(a), DepthAll(b))
  {
    if a == [] {
      assert a + b == b;
    } else {
      assert (a + b)[1..] == a[1..] + b;
      DepthAllConcat(a[1..], b);
    }
  }

  lemma {:induction false} DepthEntriesConcat(a: seq<Entry>, b: seq<Entry>)
    ensures DepthEntries(a + b) == Max(DepthEntries(a), DepthEntries(b))
  {
    if a == [] {
      assert a + b == b;
    } else {
      assert (a + b)[1..] == a[1..] + b;
      DepthEntriesConcat(a[1..], b);
    }
  }

  lemma DepthOnes(v: Value, e: Entry)
    ensures DepthAll([v]) == Depth(v) && DepthEntries([e]) == DepthEntry(e)
  {
    assert [v][1..] == [] && [e][1..] == [];
  }
}
