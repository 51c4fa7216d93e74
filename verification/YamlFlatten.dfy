/** Mappings as dictionaries: what `<<` merges in comes first, the pairs written
    out come after, and each is inserted in turn. */
module YamlFlatten {
  import opened Results
  import opened YamlValue

  /** What a key can be before its mapping is done: a value, or one of the two
      plain scalars `<<` and `=` that are more than their text. */
  datatype Item = ValueItem(value: Value) | Merge | Equals

  datatype Slot = Slot(key: Item, value: Value)

  /** A key as a dict compares it. */
  datatype Key = NullKey | IntKey(n: int) | FloatKey(bits: int) | NanKey | StrKey(s: string) | OtherKey(s: string)

  /** `number` is the key of a float or a timestamp, of which nothing is assumed;
      a sequence or a mapping has none. */
  function KeyOf(v: Value, number: string -> Key): Option<Key> {
    match v
    case Null => Some(NullKey)
    case Bool(b) => Some(IntKey(if b then 1 else 0))
    case Int(n) => Some(IntKey(n))
    case Str(s) => Some(StrKey(s))
    case Other(t) => Some(number(t))
    case Seq(_) => None
    case Map(_) => None
  }

  predicate Hashable(es: seq<Entry>, number: string -> Key) {
    forall i :: 0 <= i < |es| ==> KeyOf(es[i].key, number).Some?
  }

  predicate Holds(es: seq<Entry>, k: Key, number: string -> Key) {
    exists i :: 0 <= i < |es| && KeyOf(es[i].key, number) == Some(k)
  }

  /** The last value some pairs give a key. */
  function Last(es: seq<Entry>, k: Key, number: string -> Key): Option<Value> {
    if es == [] then None
    else
      var e := es[|es| - 1];
      if KeyOf(e.key, number) == Some(k) then Some(e.value) else Last(es[..|es| - 1], k, number)
  }

  predicate Distinct(es: seq<Entry>, number: string -> Key) {
    forall i, j :: 0 <= i < j < |es| ==> KeyOf(es[i].key, number) != KeyOf(es[j].key, number)
  }

  // --- inserting one by one

  function Place(d: seq<Entry>, k: Key, number: string -> Key): (i: nat)
    ensures i <= |d|
    ensures i < |d| ==> KeyOf(d[i].key, number) == Some(k)
    ensures forall j :: 0 <= j < i ==> KeyOf(d[j].key, number) != Some(k)
  {
    if d == [] then 0
    else
      var i := Place(d[..|d| - 1], k, number);
      if i < |d| - 1 then i else if KeyOf(d[|d| - 1].key, number) == Some(k) then |d| - 1 else |d|
  }

  /** A dict's `d[k] = v`: a key already there keeps its place and its own form. */
  function Insert(d: seq<Entry>, k: Key, e: Entry, number: string -> Key): seq<Entry> {
    var i := Place(d, k, number);
    if i < |d| then d[i := Entry(d[i].key, e.value)] else d + [e]
  }

  function Dict(es: seq<Entry>, number: string -> Key): Result<seq<Entry>> {
    if es == [] then Ok([])
    else
      var d :- Dict(es[..|es| - 1], number);
      match KeyOf(es[|es| - 1].key, number)
      case None => Err(ValueFault)
      case Some(k) => Ok(Insert(d, k, es[|es| - 1], number))
  }

  // --- what is merged in

  /** The pairs a list of mappings gives, later members first. */
  function ListSource(maps: seq<Value>): Result<seq<Entry>> {
    if maps == [] then Ok([])
    else
      var rest :- ListSource(maps[1..]);
      if maps[0].Map? then Ok(rest + maps[0].entries) else Err(ValueFault)
  }

  function Source(v: Value): Result<seq<Entry>> {
    match v
    case Map(m) => Ok(m)
    case Seq(maps) => ListSource(maps)
    case _ => Err(ValueFault)
  }

  function Merged(slots: seq<Slot>): Result<seq<Entry>> {
    if slots == [] then Ok([])
    else
      var before :- Merged(slots[..|slots| - 1]);
      var last := slots[|slots| - 1];
      match last.key
      case ValueItem(_) => Ok(before)
      case Equals => Err(UnreachableFault)
      case Merge =>
        var source :- Source(last.value);
        Ok(before + source)
  }

  function OwnPairs(slots: seq<Slot>): seq<Entry> {
    if slots == [] then []
    else
      var last := slots[|slots| - 1];
      OwnPairs(slots[..|slots| - 1]) + if last.key.ValueItem? then [Entry(last.key.value, last.value)] else []
  }

  function Flattened(slots: seq<Slot>, number: string -> Key): Result<seq<Entry>> {
    var merged :- Merged(slots);
    Dict(merged + OwnPairs(slots), number)
  }

  // --- what a dict holds

  lemma {:induction false} LastHolds(es: seq<Entry>, k: Key, number: string -> Key)
    ensures Last(es, k, number).Some? <==> Holds(es, k, number)
  {
    if es != [] {
      LastHolds(es[..|es| - 1], k, number);
      if Holds(es, k, number) && KeyOf(es[|es| - 1].key, number) != Some(k) {
        var i :| 0 <= i < |es| && KeyOf(es[i].key, number) == Some(k);
        assert es[..|es| - 1][i] == es[i];
      }
      if Last(es, k, number).Some? && KeyOf(es[|es| - 1].key, number) != Some(k) {
        var i :| 0 <= i < |es| - 1 && KeyOf(es[..|es| - 1][i].key, number) == Some(k);
        assert es[..|es| - 1][i] == es[i];
      }
    }
  }

  /** One insertion into a dict. */
  lemma InsertKeeps(d: seq<Entry>, k: Key, e: Entry, number: string -> Key)
    requires Distinct(d, number) && Hashable(d, number) && KeyOf(e.key, number) == Some(k)
    ensures Distinct(Insert(d, k, e, number), number) && Hashable(Insert(d, k, e, number), number)
    ensures |d| <= |Insert(d, k, e, number)|
    ensures forall i :: 0 <= i < |d| ==> Insert(d, k, e, number)[i].key == d[i].key
  {
  }

  lemma {:induction false} LastAt(es: seq<Entry>, i: nat, k: Key, number: string -> Key)
    requires Distinct(es, number) && i < |es| && KeyOf(es[i].key, number) == Some(k)
    ensures Last(es, k, number) == Some(es[i].value)
    decreases |es|
  {
    if i < |es| - 1 {
      assert KeyOf(es[|es| - 1].key, number) != Some(k);
      var init := es[..|es| - 1];
      assert forall j :: 0 <= j < |init| ==> init[j] == es[j];
      LastAt(init, i, k, number);
    }
  }

  lemma LastNone(es: seq<Entry>, k: Key, number: string -> Key)
    requires forall i :: 0 <= i < |es| ==> KeyOf(es[i].key, number) != Some(k)
    ensures Last(es, k, number).None?
  {
    LastHolds(es, k, number);
  }

  lemma InsertLast(d: seq<Entry>, k: Key, e: Entry, j: Key, number: string -> Key)
    requires Distinct(d, number) && Hashable(d, number) && KeyOf(e.key, number) == Some(k)
    ensures Last(Insert(d, k, e, number), j, number) == if j == k then Some(e.value) else Last(d, j, number)
  {
    hide KeyOf, Last, Distinct;
    InsertKeeps(d, k, e, number);
    if j == k {
      LastAt(Insert(d, k, e, number), Place(d, k, number), k, number);
    } else {
      OtherLast(d, Insert(d, k, e, number), Place(d, k, number), j, number);
    }
  }

  /** Pairs that differ from some others at one place, or by one more at the
      end, give any key not there the value those give it. */
  lemma OtherLast(d: seq<Entry>, d2: seq<Entry>, p: nat, j: Key, number: string -> Key)
    requires Distinct(d, number) && Distinct(d2, number)
    requires p < |d2| && |d| <= |d2| <= |d| + 1 && (|d2| == |d| + 1 ==> p == |d|)
    requires KeyOf(d2[p].key, number) != Some(j)
    requires forall i :: 0 <= i < |d| ==> d2[i].key == d[i].key && (i != p ==> d2[i].value == d[i].value)
    ensures Last(d2, j, number) == Last(d, j, number)
  {
    hide KeyOf, Last, Distinct;
    var q := Place(d2, j, number);
    if q < |d2| {
      LastAt(d2, q, j, number);
      LastAt(d, q, j, number);
    } else {
      LastNone(d2, j, number);
      forall i | 0 <= i < |d| ensures KeyOf(d[i].key, number) != Some(j) {
        assert d2[i].key == d[i].key;
      }
      LastNone(d, j, number);
    }
  }

  /** A dict made of pairs: no key twice; each key has the last value the pairs
      give it, and no key has one that the pairs do not. */
  lemma {:induction false} DictIs(es: seq<Entry>, number: string -> Key)
    ensures Dict(es, number).Ok? <==> Hashable(es, number)
    ensures Dict(es, number).Err? ==> Dict(es, number) == Err(ValueFault)
    ensures Dict(es, number).Ok? ==>
              var d := Dict(es, number).value;
              && Distinct(d, number) && Hashable(d, number)
              && forall k :: Last(d, k, number) == Last(es, k, number)
  {
    hide KeyOf, Insert;
    if es != [] {
      var init, e := es[..|es| - 1], es[|es| - 1];
      assert forall i :: 0 <= i < |init| ==> init[i] == es[i];
      DictIs(init, number);
      if Dict(es, number).Ok? {
        var d, k := Dict(init, number).value, KeyOf(e.key, number).value;
        InsertKeeps(d, k, e, number);
        forall j ensures Last(Insert(d, k, e, number), j, number) == Last(es, j, number) {
          InsertLast(d, k, e, j, number);
        }
      }
    }
  }

  /** The place and the form of the first pair with its key: `es[f[i]]` for an
      increasing choice of places. */
  ghost predicate FirstForms(d: seq<Entry>, es: seq<Entry>, f: seq<nat>, number: string -> Key) {
    && |f| == |d|
    && (forall i :: 0 <= i < |f| ==> f[i] < |es| && d[i].key == es[f[i]].key)
    && (forall i, j :: 0 <= i < j < |f| ==> f[i] < f[j])
    && (forall i, j :: 0 <= i < |f| && 0 <= j < f[i] ==> KeyOf(es[j].key, number) != KeyOf(es[f[i]].key, number))
  }

  lemma FormsExtend(d: seq<Entry>, init: seq<Entry>, f: seq<nat>, e: Entry, number: string -> Key)
    requires FirstForms(d, init, f, number)
    requires forall j :: 0 <= j < |init| ==> KeyOf(init[j].key, number) != KeyOf(e.key, number)
    ensures FirstForms(d + [e], init + [e], f + [|init|], number)
  {
    hide KeyOf;
    var es := init + [e];
    forall i, j | 0 <= i < |f| && 0 <= j < f[i] ensures KeyOf(es[j].key, number) != KeyOf(es[f[i]].key, number) {
      assert es[j] == init[j] && es[f[i]] == init[f[i]];
    }
  }

  lemma FormsReplace(d: seq<Entry>, d2: seq<Entry>, init: seq<Entry>, f: seq<nat>, e: Entry, number: string -> Key)
    requires FirstForms(d, init, f, number)
    requires |d2| == |d| && forall i :: 0 <= i < |d| ==> d2[i].key == d[i].key
    ensures FirstForms(d2, init + [e], f, number)
  {
    hide KeyOf;
    var es := init + [e];
    forall i, j | 0 <= i < |f| && 0 <= j < f[i] ensures KeyOf(es[j].key, number) != KeyOf(es[f[i]].key, number) {
      assert es[j] == init[j] && es[f[i]] == init[f[i]];
    }
  }

  lemma {:induction false} DictKeepsFirst(es: seq<Entry>, number: string -> Key) returns (f: seq<nat>)
    requires Hashable(es, number)
    ensures Dict(es, number).Ok? && FirstForms(Dict(es, number).value, es, f, number)
  {
    hide KeyOf;
    DictIs(es, number);
    if es == [] {
      f := [];
    } else {
      var init, e := es[..|es| - 1], es[|es| - 1];
      assert forall i :: 0 <= i < |init| ==> init[i] == es[i];
      f := DictKeepsFirst(init, number);
      DictIs(init, number);
      var d, k := Dict(init, number).value, KeyOf(e.key, number).value;
      if Place(d, k, number) == |d| {
        LastNone(d, k, number);
        LastHolds(init, k, number);
        FormsExtend(d, init, f, e, number);
        f := f + [|init|];
      } else {
        InsertKeeps(d, k, e, number);
        FormsReplace(d, Insert(d, k, e, number), init, f, e, number);
      }
      assert es == init + [e];
    }
  }

  // --- what is in a flattened mapping

  /** What the first of some mappings that holds a key gives it. */
  function FirstOf(maps: seq<Value>, k: Key, number: string -> Key): Option<Value> {
    if maps == [] then None
    else if maps[0].Map? && Last(maps[0].entries, k, number).Some? then Last(maps[0].entries, k, number)
    else FirstOf(maps[1..], k, number)
  }

  function SourceValue(v: Value, k: Key, number: string -> Key): Option<Value> {
    match v
    case Map(m) => Last(m, k, number)
    case Seq(maps) => FirstOf(maps, k, number)
    case _ => None
  }

  /** What the last `<<` that gives a key gives it. */
  function MergedValue(slots: seq<Slot>, k: Key, number: string -> Key): Option<Value> {
    if slots == [] then None
    else
      var last := slots[|slots| - 1];
      if last.key.Merge? && SourceValue(last.value, k, number).Some? then SourceValue(last.value, k, number)
      else MergedValue(slots[..|slots| - 1], k, number)
  }

  lemma {:induction false} LastConcat(a: seq<Entry>, b: seq<Entry>, k: Key, number: string -> Key)
    ensures Last(a + b, k, number) == if Last(b, k, number).Some? then Last(b, k, number) else Last(a, k, number)
    decreases |b|
  {
    if b == [] {
      assert a + b == a;
    } else {
      assert (a + b)[..|a + b| - 1] == a + b[..|b| - 1];
      LastConcat(a, b[..|b| - 1], k, number);
    }
  }

  lemma {:induction false} ListSourceIs(maps: seq<Value>, k: Key, number: string -> Key)
    ensures ListSource(maps).Ok? <==> forall i :: 0 <= i < |maps| ==> maps[i].Map?
    ensures ListSource(maps).Ok? ==> Last(ListSource(maps).value, k, number) == FirstOf(maps, k, number)
  {
    if maps != [] {
      ListSourceIs(maps[1..], k, number);
      assert forall i :: 1 <= i < |maps| ==> maps[i] == maps[1..][i - 1];
      if ListSource(maps).Ok? {
        LastConcat(ListSource(maps[1..]).value, maps[0].entries, k, number);
      }
    }
  }

  lemma SourceIs(v: Value, k: Key, number: string -> Key)
    ensures Source(v).Ok? ==> Last(Source(v).value, k, number) == SourceValue(v, k, number)
  {
    if v.Seq? {
      ListSourceIs(v.items, k, number);
    }
  }

  lemma {:induction false} MergedIs(slots: seq<Slot>, k: Key, number: string -> Key)
    ensures Merged(slots).Ok? ==> Last(Merged(slots).value, k, number) == MergedValue(slots, k, number)
  {
    if slots != [] {
      var init, last := slots[..|slots| - 1], slots[|slots| - 1];
      MergedIs(init, k, number);
      if Merged(slots).Ok? && last.key.Merge? {
        SourceIs(last.value, k, number);
        LastConcat(Merged(init).value, Source(last.value).value, k, number);
      }
    }
  }

  /** The Merge Key type for YAML 1.1, for every mapping that has one or many:
      no key of the result occurs twice; the mapping's own pairs beat merged
      ones, the last of them winning; a later `<<` beats an earlier one; of a
      list of mappings the earliest wins; and nothing else is in the result. */
  lemma FlattenIs(slots: seq<Slot>, number: string -> Key)
    ensures Flattened(slots, number).Ok? ==>
              var out := Flattened(slots, number).value;
              && Distinct(out, number) && Hashable(out, number)
              && forall k :: Last(out, k, number) ==
                   if Holds(OwnPairs(slots), k, number) then Last(OwnPairs(slots), k, number)
                   else MergedValue(slots, k, number)
  {
    if Flattened(slots, number).Ok? {
      var merged, own := Merged(slots).value, OwnPairs(slots);
      DictIs(merged + own, number);
      forall k ensures Last(Flattened(slots, number).value, k, number) ==
                       if Holds(own, k, number) then Last(own, k, number) else MergedValue(slots, k, number) {
        LastConcat(merged, own, k, number);
        MergedIs(slots, k, number);
        LastHolds(own, k, number);
      }
    }
  }

  /** The keys stand in the order, and the form, in which they first come:
      merged ones before the mapping's own. */
  lemma FlattenKeepsFirst(slots: seq<Slot>, number: string -> Key) returns (f: seq<nat>)
    ensures Flattened(slots, number).Ok? ==>
              FirstForms(Flattened(slots, number).value, Merged(slots).value + OwnPairs(slots), f, number)
  {
    f := [];
    if Flattened(slots, number).Ok? {
      DictIs(Merged(slots).value + OwnPairs(slots), number);
      f := DictKeepsFirst(Merged(slots).value + OwnPairs(slots), number);
    }
  }

  predicate NoEquals(slots: seq<Slot>) {
    forall i :: 0 <= i < |slots| ==> !slots[i].key.Equals?
  }

  predicate Mergeable(v: Value) {
    v.Map? || (v.Seq? && forall i :: 0 <= i < |v.items| ==> v.items[i].Map?)
  }

  /** It fails just where a `<<` names something other than a mapping or a list
      of them, or a key is a sequence or a mapping; a plain `=` never gets here. */
  lemma FlattenFails(slots: seq<Slot>, number: string -> Key)
    requires NoEquals(slots)
    ensures Flattened(slots, number) != Err(UnreachableFault)
    ensures Flattened(slots, number).Ok? <==>
              && (forall i :: 0 <= i < |slots| && slots[i].key.Merge? ==> Mergeable(slots[i].value))
              && (Merged(slots).Ok? ==> Hashable(Merged(slots).value, number))
              && Hashable(OwnPairs(slots), number)
  {
    MergedWorks(slots);
    if Merged(slots).Ok? {
      var merged, own := Merged(slots).value, OwnPairs(slots);
      DictIs(merged + own, number);
      HashableConcat(merged, own, number);
    }
  }

  lemma HashableConcat(a: seq<Entry>, b: seq<Entry>, number: string -> Key)
    ensures Hashable(a + b, number) <==> Hashable(a, number) && Hashable(b, number)
  {
    var all := a + b;
    if Hashable(all, number) {
      forall i | 0 <= i < |a| ensures KeyOf(a[i].key, number).Some? {
        assert all[i] == a[i];
      }
      forall i | 0 <= i < |b| ensures KeyOf(b[i].key, number).Some? {
        assert all[|a| + i] == b[i];
      }
    }
  }

  lemma {:induction false} MergedWorks(slots: seq<Slot>)
    requires NoEquals(slots)
    ensures Merged(slots) != Err(UnreachableFault)
    ensures Merged(slots).Ok? <==> forall i :: 0 <= i < |slots| && slots[i].key.Merge? ==> Mergeable(slots[i].value)
  {
    if slots != [] {
      var init, last := slots[..|slots| - 1], slots[|slots| - 1];
      assert forall i :: 0 <= i < |init| ==> init[i] == slots[i];
      MergedWorks(init);
      SourceWorks(last.value);
    }
  }

  lemma SourceWorks(v: Value)
    ensures Source(v).Ok? <==> Mergeable(v)
    ensures Source(v).Err? ==> Source(v) == Err(ValueFault)
  {
    if v.Seq? {
      ListSourceIs(v.items, NullKey, (s: string) => StrKey(s));
      ListSourceFault(v.items);
    }
  }

  lemma {:induction false} ListSourceFault(maps: seq<Value>)
    ensures ListSource(maps).Err? ==> ListSource(maps) == Err(ValueFault)
  {
    if maps != [] {
      ListSourceFault(maps[1..]);
    }
  }

  // --- the loops

  /** Merged pairs and own pairs in two lists, then both through an index of
      the places of the keys so far. */
  method Flatten(slots: seq<Slot>, number: string -> Key) returns (r: Result<seq<Entry>>)
    ensures r == Flattened(slots, number)
  {
    var merged, own := [], [];
    var n := 0;
    while n < |slots|
      invariant n <= |slots| && Merged(slots[..n]) == Ok(merged) && own == OwnPairs(slots[..n])
    {
      var slot := slots[n];
      assert slots[..n + 1][..n] == slots[..n];
      match slot.key {
        case Equals =>
          MergedFails(slots, n + 1);
          return Err(UnreachableFault);
        case ValueItem(k) =>
          own := own + [Entry(k, slot.value)];
        case Merge =>
          var source := SourcePairs(slot.value);
          if source.Err? {
            MergedFails(slots, n + 1);
            return Err(source.fault);
          }
          merged := merged + source.value;
      }
      n := n + 1;
    }
    assert slots[..n] == slots;
    r := Insertions(merged + own, number);
  }

  method SourcePairs(v: Value) returns (r: Result<seq<Entry>>)
    ensures r == Source(v)
  {
    match v {
      case Map(m) => return Ok(m);
      case Seq(maps) =>
        var out: seq<Entry> := [];
        var n: nat := |maps|;
        while n > 0
          invariant n <= |maps| && ListSource(maps[n..]) == Ok(out)
        {
          n := n - 1;
          assert maps[n..][1..] == maps[n + 1..];
          if !maps[n].Map? {
            ListFails(maps, n);
            return Err(ValueFault);
          }
          out := out + maps[n].entries;
        }
        assert maps[0..] == maps;
        return Ok(out);
      case _ => return Err(ValueFault);
    }
  }

  method Insertions(es: seq<Entry>, number: string -> Key) returns (r: Result<seq<Entry>>)
    ensures r == Dict(es, number)
  {
    var out: seq<Entry> := [];
    var index: map<Key, nat> := map[];
    var n := 0;
    while n < |es|
      invariant n <= |es| && Dict(es[..n], number) == Ok(out)
      invariant forall k :: k in index <==> Place(out, k, number) < |out|
      invariant forall k :: k in index ==> index[k] == Place(out, k, number)
    {
      assert es[..n + 1][..n] == es[..n];
      match KeyOf(es[n].key, number) {
        case None =>
          DictFails(es, n + 1, number);
          return Err(ValueFault);
        case Some(k) =>
          ghost var was := out;
          if k in index {
            out := out[index[k] := Entry(out[index[k]].key, es[n].value)];
          } else {
            index := index[k := |out|];
            out := out + [es[n]];
          }
          forall j ensures Place(out, j, number) == if j == k then Place(was, k, number) else if Place(was, j, number) < |was| then Place(was, j, number) else |out| {
            InsertPlace(was, k, es[n], j, number);
          }
      }
      n := n + 1;
    }
    assert es[..n] == es;
    return Ok(out);
  }

  lemma InsertPlace(d: seq<Entry>, k: Key, e: Entry, j: Key, number: string -> Key)
    requires KeyOf(e.key, number) == Some(k)
    ensures var d2 := Insert(d, k, e, number);
            Place(d2, j, number) == if j == k then Place(d, k, number) else if Place(d, j, number) < |d| then Place(d, j, number) else |d2|
  {
    var d2 := Insert(d, k, e, number);
    assert forall i :: 0 <= i < |d| ==> d2[i].key == d[i].key;
  }

  lemma {:induction false} MergedFails(slots: seq<Slot>, n: nat)
    requires n <= |slots| && Merged(slots[..n]).Err?
    ensures Merged(slots) == Merged(slots[..n])
    decreases |slots| - n
  {
    if n < |slots| {
      assert slots[..n + 1][..n] == slots[..n];
      MergedFails(slots, n + 1);
    } else {
      assert slots[..n] == slots;
    }
  }

  lemma {:induction false} ListFails(maps: seq<Value>, n: nat)
    requires n <= |maps| && ListSource(maps[n..]).Err?
    ensures ListSource(maps) == ListSource(maps[n..]) == Err(ValueFault)
    decreases n
  {
    ListSourceFault(maps[n..]);
    if n > 0 {
      assert maps[n - 1..][1..] == maps[n..];
      ListFails(maps, n - 1);
    } else {
      assert maps[n..] == maps;
    }
  }

  lemma {:induction false} DictFails(es: seq<Entry>, n: nat, number: string -> Key)
    requires n <= |es| && Dict(es[..n], number).Err?
    ensures Dict(es, number) == Err(ValueFault)
  {
    DictIs(es[..n], number);
    DictIs(es, number);
    assert forall i :: 0 <= i < n ==> es[..n][i] == es[i];
  }
}
