/** Distinct ids: an entry whose id is taken gets its name with a number after
    it, and the id of that name. */
module Dedup {
  import opened Framing

  datatype Named = Named(kind: string, source: string, name: string, id: string)

  ghost predicate Injective(hash: string -> string) {
    forall a, b :: hash(a) == hash(b) ==> a == b
  }

  function EntryId(hash: string -> string, kind: string, source: string, name: string): string {
    hash(Frame([kind, source, name]))
  }

  function Suffixed(name: string, counter: nat): string {
    name + "#" + Decimal(counter)
  }

  function Renamed(hash: string -> string, e: Named, counter: nat): Named {
    Named(e.kind, e.source, Suffixed(e.name, counter), EntryId(hash, e.kind, e.source, Suffixed(e.name, counter)))
  }

  /** One entry's suffixes make ids that differ, if the hash is injective. */
  lemma SuffixesDiffer(hash: string -> string, e: Named, c: nat, d: nat)
    requires Injective(hash) && Renamed(hash, e, c).id == Renamed(hash, e, d).id
    ensures c == d
  {
    var m, n := Suffixed(e.name, c), Suffixed(e.name, d);
    var a, b := Frame([e.kind, e.source, m]), Frame([e.kind, e.source, n]);
    assert hash(a) == hash(b);
    FrameThree(e.kind, e.source, m);
    FrameThree(e.kind, e.source, n);
    hide Frame, Framed, Decimal;
    var front := Framed(e.kind) + Framed(e.source);
    assert a[|front|..] == Framed(m) && b[|front|..] == Framed(n);
    FramedName(m, n);
    assert m[|e.name| + 1..] == Decimal(c) && n[|e.name| + 1..] == Decimal(d);
    DecimalInjective(c, d);
  }

  lemma FrameThree(a: string, b: string, c: string)
    ensures Frame([a, b, c]) == Framed(a) + Framed(b) + Framed(c)
  {
    hide Framed;
    assert [a, b, c][1..] == [b, c] && [b, c][1..] == [c] && [c][1..] == [];
    var x, y, z := Framed(a), Framed(b), Framed(c);
    assert Frame([c]) == z + Frame([]) == z;
    assert Frame([b, c]) == y + Frame([c]);
    assert Frame([a, b, c]) == x + Frame([b, c]) == x + (y + z);
    assert x + (y + z) == x + y + z;
  }

  lemma FramedName(m: string, n: string)
    requires Framed(m) == Framed(n)
    ensures m == n
  {
    assert Framed(m)[WIDTH..] == m && Framed(n)[WIDTH..] == n;
  }

  /** The ids seen that a suffix from `counter` on could still run into. */
  ghost function Taken(hash: string -> string, e: Named, counter: nat, seen: set<string>): set<string> {
    set id | id in seen && exists c: nat :: c >= counter && Renamed(hash, e, c).id == id
  }

  lemma TakenShrinks(hash: string -> string, e: Named, counter: nat, seen: set<string>)
    requires Injective(hash) && Renamed(hash, e, counter).id in seen
    ensures Taken(hash, e, counter + 1, seen) < Taken(hash, e, counter, seen)
  {
    hide Renamed;
    var id := Renamed(hash, e, counter).id;
    assert id in Taken(hash, e, counter, seen);
    forall c: nat | c >= counter + 1 ensures Renamed(hash, e, c).id != id {
      if Renamed(hash, e, c).id == id {
        SuffixesDiffer(hash, e, c, counter);
      }
    }
    assert id !in Taken(hash, e, counter + 1, seen);
    forall x | x in Taken(hash, e, counter + 1, seen) ensures x in Taken(hash, e, counter, seen) {
      var c: nat :| c >= counter + 1 && Renamed(hash, e, c).id == x;
      assert c >= counter && Renamed(hash, e, c).id == x;
    }
    assert Taken(hash, e, counter + 1, seen) <= Taken(hash, e, counter, seen);
    assert Taken(hash, e, counter + 1, seen) != Taken(hash, e, counter, seen);
  }

  /** The first suffix from `counter` on whose id is new. */
  ghost function Fresh(hash: string -> string, e: Named, counter: nat, seen: set<string>): (c: nat)
    requires Injective(hash)
    ensures c >= counter && Renamed(hash, e, c).id !in seen
    ensures forall d: nat :: counter <= d < c ==> Renamed(hash, e, d).id in seen
    decreases Taken(hash, e, counter, seen)
  {
    if Renamed(hash, e, counter).id !in seen then counter
    else
      TakenShrinks(hash, e, counter, seen);
      Fresh(hash, e, counter + 1, seen)
  }

  function Counted(e: Named): string {
    e.source + "\U{0001}" + e.name
  }

  function CounterOf(next: map<string, nat>, e: Named): nat {
    if Counted(e) in next then next[Counted(e)] else 2
  }

  /** One entry, given the ids before it and the counters its likes have reached. */
  ghost function Settled(hash: string -> string, e: Named, seen: set<string>, next: map<string, nat>): Named
    requires Injective(hash)
  {
    if e.id !in seen then e else Renamed(hash, e, Fresh(hash, e, CounterOf(next, e), seen))
  }

  ghost function NextAfter(hash: string -> string, e: Named, seen: set<string>, next: map<string, nat>): map<string, nat>
    requires Injective(hash)
  {
    if e.id !in seen then next else next[Counted(e) := Fresh(hash, e, CounterOf(next, e), seen) + 1]
  }

  ghost function DedupFrom(hash: string -> string, es: seq<Named>, seen: set<string>, next: map<string, nat>): seq<Named>
    requires Injective(hash)
  {
    if es == [] then []
    else
      var e := Settled(hash, es[0], seen, next);
      [e] + DedupFrom(hash, es[1..], seen + {e.id}, NextAfter(hash, es[0], seen, next))
  }

  lemma DedupHead(hash: string -> string, es: seq<Named>, seen: set<string>, next: map<string, nat>)
    requires Injective(hash) && es != []
    ensures var e := Settled(hash, es[0], seen, next);
            DedupFrom(hash, es, seen, next) == [e] + DedupFrom(hash, es[1..], seen + {e.id}, NextAfter(hash, es[0], seen, next))
    ensures DedupFrom(hash, [], seen, next) == []
  {
    hide Injective, Settled, NextAfter;
  }

  ghost function Deduped(hash: string -> string, es: seq<Named>): seq<Named>
    requires Injective(hash)
  {
    DedupFrom(hash, es, {}, map[])
  }

  /** One entry: as it is, or with the first suffix whose id is new. */
  method Settle(hash: string -> string, e: Named, seen: set<string>, next: map<string, nat>) returns (d: Named, after: map<string, nat>)
    requires Injective(hash)
    ensures d == Settled(hash, e, seen, next) && after == NextAfter(hash, e, seen, next)
  {
    hide Injective, Renamed;
    if e.id !in seen {
      return e, next;
    }
    var counter := CounterOf(next, e);
    ghost var first := Fresh(hash, e, counter, seen);
    while Renamed(hash, e, counter).id in seen
      invariant Fresh(hash, e, counter, seen) == first
      decreases Taken(hash, e, counter, seen)
    {
      TakenShrinks(hash, e, counter, seen);
      counter := counter + 1;
    }
    return Renamed(hash, e, counter), next[Counted(e) := counter + 1];
  }

  /** As the program runs, over the entries in place. */
  method DedupIds(hash: string -> string, entries: array<Named>)
    requires Injective(hash)
    modifies entries
    ensures entries[..] == Deduped(hash, old(entries[..]))
  {
    hide Injective, Renamed, DedupFrom, Settled, NextAfter;
    ghost var es := entries[..];
    var seen: set<string> := {};
    var next: map<string, nat> := map[];
    var i := 0;
    assert es[0..] == es && entries[..0] == [];
    assert [] + DedupFrom(hash, es, seen, next) == Deduped(hash, es);
    while i < entries.Length
      invariant i <= entries.Length
      invariant entries[i..] == es[i..]
      invariant entries[..i] + DedupFrom(hash, es[i..], seen, next) == Deduped(hash, es)
    {
      ghost var done, rest := entries[..i], es[i..];
      assert rest[0] == entries[i] && rest[1..] == es[i + 1..];
      DedupHead(hash, rest, seen, next);
      var e;
      e, next := Settle(hash, entries[i], seen, next);
      entries[i] := e;
      seen := seen + {e.id};
      assert entries[..i + 1] == done + [e];
      ghost var more := DedupFrom(hash, es[i + 1..], seen, next);
      assert done + ([e] + more) == done + [e] + more;
      assert entries[i + 1..] == es[i + 1..];
      i := i + 1;
    }
    DedupHead(hash, [Named("", "", "", "")], seen, next);
    assert entries[..i] == entries[..] && es[i..] == [];
    assert entries[..] + [] == entries[..];
  }

  // --- what it leaves

  predicate DistinctIds(es: seq<Named>) {
    forall i, j :: 0 <= i < j < |es| ==> es[i].id != es[j].id
  }

  /** An entry as it was, or with a suffix and the id made of it. */
  ghost predicate FromEntry(hash: string -> string, e: Named, d: Named) {
    d == e || exists c: nat :: c >= 2 && d == Renamed(hash, e, c)
  }

  ghost predicate CountersOk(next: map<string, nat>) {
    forall k :: k in next ==> next[k] >= 2
  }

  lemma {:induction false} DedupIs(hash: string -> string, es: seq<Named>, seen: set<string>, next: map<string, nat>)
    requires Injective(hash) && CountersOk(next)
    ensures var out := DedupFrom(hash, es, seen, next);
            && |out| == |es| && DistinctIds(out)
            && (forall i :: 0 <= i < |out| ==> out[i].id !in seen && FromEntry(hash, es[i], out[i]))
            && (forall i :: 0 <= i < |out| ==>
                  (out[i] == es[i] <==> es[i].id !in seen && forall j :: 0 <= j < i ==> out[j].id != es[i].id))
  {
    hide Injective, Renamed, DedupFrom, Settled, NextAfter, FromEntry;
    if es == [] {
      DedupHead(hash, [Named("", "", "", "")], seen, next);
    } else {
      var e := Settled(hash, es[0], seen, next);
      SettledIs(hash, es[0], seen, next);
      DedupHead(hash, es, seen, next);
      var seen2 := seen + {e.id};
      var rest := DedupFrom(hash, es[1..], seen2, NextAfter(hash, es[0], seen, next));
      DedupIs(hash, es[1..], seen2, NextAfter(hash, es[0], seen, next));
      var out := DedupFrom(hash, es, seen, next);
      assert out == [e] + rest;
      forall i | 0 <= i < |out| ensures out[i].id !in seen && FromEntry(hash, es[i], out[i]) {
        if i > 0 {
          assert out[i] == rest[i - 1] && es[i] == es[1..][i - 1];
        }
      }
      forall i | 0 <= i < |out|
        ensures out[i] == es[i] <==> es[i].id !in seen && forall j :: 0 <= j < i ==> out[j].id != es[i].id {
        if i > 0 {
          assert out[i] == rest[i - 1] && es[i] == es[1..][i - 1] && out[0] == e;
          KeptShift(out, rest, e, i, es[i].id);
        }
      }
    }
  }

  lemma SettledIs(hash: string -> string, e: Named, seen: set<string>, next: map<string, nat>)
    requires Injective(hash) && CountersOk(next)
    ensures var d := Settled(hash, e, seen, next);
            && d.id !in seen && FromEntry(hash, e, d) && CountersOk(NextAfter(hash, e, seen, next))
            && (d == e <==> e.id !in seen)
  {
    hide Injective, Renamed;
  }

  lemma KeptShift(out: seq<Named>, rest: seq<Named>, e: Named, i: nat, id: string)
    requires out == [e] + rest && 0 < i < |out|
    ensures (forall j :: 0 <= j < i ==> out[j].id != id) <==> e.id != id && forall j :: 0 <= j < i - 1 ==> rest[j].id != id
  {
    assert out[0] == e;
    assert forall j :: 0 <= j < |rest| ==> rest[j] == out[j + 1];
  }

  /** All ids are distinct afterwards and the order is kept; an entry keeps its
      name and id if and only if no entry before it has come to hold that id;
      any other has a suffix, and the id made of it. */
  lemma DedupLeavesDistinct(hash: string -> string, es: seq<Named>)
    requires Injective(hash)
    ensures var out := Deduped(hash, es);
            && |out| == |es| && DistinctIds(out)
            && (forall i :: 0 <= i < |out| ==> FromEntry(hash, es[i], out[i]))
            && (forall i :: 0 <= i < |out| ==> (out[i] == es[i] <==> forall j :: 0 <= j < i ==> out[j].id != es[i].id))
  {
    hide Injective;
    DedupIs(hash, es, {}, map[]);
  }

  lemma {:induction false} DistinctKept(hash: string -> string, es: seq<Named>, seen: set<string>, next: map<string, nat>)
    requires Injective(hash) && DistinctIds(es) && forall i :: 0 <= i < |es| ==> es[i].id !in seen
    ensures DedupFrom(hash, es, seen, next) == es
  {
    hide Injective;
    if es != [] {
      assert forall i :: 0 <= i < |es[1..]| ==> es[1..][i] == es[i + 1];
      DistinctKept(hash, es[1..], seen + {es[0].id}, next);
    }
  }

  /** A second run changes nothing. */
  lemma DedupTwice(hash: string -> string, es: seq<Named>)
    requires Injective(hash)
    ensures Deduped(hash, Deduped(hash, es)) == Deduped(hash, es)
  {
    hide Injective;
    DedupLeavesDistinct(hash, es);
    DistinctKept(hash, Deduped(hash, es), {}, map[]);
  }

  // --- who keeps an id, told from the entries alone

  /** An entry's suffix can come to the id of another, or its own. */
  ghost predicate Clash(hash: string -> string, x: Named, y: Named) {
    exists c: nat :: c >= 2 && Renamed(hash, x, c).id == y.id
  }

  lemma {:induction false} FirstHolder(es: seq<Named>, i: nat) returns (j: nat)
    requires i < |es|
    ensures j <= i && es[j].id == es[i].id && forall k :: 0 <= k < j ==> es[k].id != es[i].id
    decreases i
  {
    if k :| 0 <= k < i && es[k].id == es[i].id {
      j := FirstHolder(es, k);
    } else {
      j := i;
    }
  }

  /** Where no entry's suffixes come to another's id, first holders keep name and
      id, and no other entry does. */
  lemma FirstHoldersKept(hash: string -> string, es: seq<Named>)
    requires Injective(hash)
    requires forall i, j :: 0 <= i < |es| && 0 <= j < |es| ==> !Clash(hash, es[j], es[i])
    ensures var out := Deduped(hash, es);
            |out| == |es| && forall i :: 0 <= i < |es| ==> (out[i] == es[i] <==> forall j :: 0 <= j < i ==> es[j].id != es[i].id)
  {
    hide Injective, Renamed, Deduped;
    DedupLeavesDistinct(hash, es);
    var out := Deduped(hash, es);
    forall i | 0 <= i < |es| ensures out[i] == es[i] <==> forall j :: 0 <= j < i ==> es[j].id != es[i].id {
      var first := FirstHolder(es, i);
      forall j | 0 <= j < first ensures out[j].id != es[i].id {
        NoClashNoLoss(hash, es[j], out[j], es[i]);
      }
      assert out[first].id == es[i].id;
    }
  }

  lemma NoClashNoLoss(hash: string -> string, e: Named, d: Named, y: Named)
    requires FromEntry(hash, e, d) && !Clash(hash, e, y) && e.id != y.id
    ensures d.id != y.id
  {
    hide Renamed;
  }

  function Copies(x: Named, n: nat): (es: seq<Named>)
    ensures |es| == n && forall i :: 0 <= i < n ==> es[i] == x
  {
    if n == 0 then [] else [x] + Copies(x, n - 1)
  }

  /** With enough copies of an entry before it, another whose id a suffix comes to is renamed. */
  lemma {:induction false} CopiesTake(hash: string -> string, x: Named, y: Named, c: nat, n: nat, seen: set<string>, next: map<string, nat>)
    requires Injective(hash) && c >= 2 && Renamed(hash, x, c).id == y.id
    requires x.id in seen && CounterOf(next, x) >= 2 && CounterOf(next, x) + n > c
    requires forall d: nat :: 2 <= d < CounterOf(next, x) ==> Renamed(hash, x, d).id in seen
    ensures var out := DedupFrom(hash, Copies(x, n) + [y], seen, next);
            |out| == n + 1 && out[n].id != y.id
    decreases n
  {
    hide Injective, Renamed, DedupFrom;
    var es := Copies(x, n) + [y];
    DedupHead(hash, es, seen, next);
    if n == 0 {
      assert es == [y] && es[1..] == [];
      var d := Settled(hash, y, seen, next);
      DedupHead(hash, [y], seen + {d.id}, NextAfter(hash, y, seen, next));
    } else {
      assert es[0] == x && es[1..] == Copies(x, n - 1) + [y];
      var d, next2 := Settled(hash, x, seen, next), NextAfter(hash, x, seen, next);
      assert CounterOf(next2, x) == Fresh(hash, x, CounterOf(next, x), seen) + 1;
      CopiesTake(hash, x, y, c, n - 1, seen + {d.id}, next2);
    }
  }

  /** An entry is renamed after so many copies of another. */
  ghost predicate Displaced(hash: string -> string, x: Named, y: Named, n: nat)
    requires Injective(hash)
  {
    var out := Deduped(hash, Copies(x, n) + [y]);
    |out| == n + 1 && out[n] != y
  }

  lemma ClashDisplaces(hash: string -> string, x: Named, y: Named, c: nat)
    requires Injective(hash) && c >= 2 && Renamed(hash, x, c).id == y.id
    ensures Displaced(hash, x, y, c)
  {
    var es := Copies(x, c) + [y];
    assert es[0] == x && es[1..] == Copies(x, c - 1) + [y];
    FreshFirst(hash, x);
    hide Injective, Renamed, DedupFrom;
    DedupHead(hash, es, {}, map[]);
    CopiesTake(hash, x, y, c, c - 1, {} + {x.id}, map[]);
    assert Deduped(hash, es) == [x] + DedupFrom(hash, es[1..], {} + {x.id}, map[]);
  }

  /** A first holder is renamed after some number of copies of another entry just
      where a suffix of that entry comes to its id. */
  lemma DisplacedIffClash(hash: string -> string, x: Named, y: Named)
    requires Injective(hash) && x.id != y.id
    ensures Clash(hash, x, y) <==> exists n: nat :: Displaced(hash, x, y, n)
  {
    hide Injective, Renamed;
    if Clash(hash, x, y) {
      var c: nat :| c >= 2 && Renamed(hash, x, c).id == y.id;
      ClashDisplaces(hash, x, y, c);
    }
    if n: nat :| Displaced(hash, x, y, n) {
      var es := Copies(x, n) + [y];
      DedupLeavesDistinct(hash, es);
      var out := Deduped(hash, es);
      var j :| 0 <= j < n && out[j].id == es[n].id;
      assert es[j] == x && es[n] == y;
      assert FromEntry(hash, es[j], out[j]);
    }
  }

  /** Of an id made from kind, path and name, whatever the path: a suffix comes to
      it just where the path is the source another entry reports, and the name is
      that entry's, in its kind, with `#` and a number of two or more after it. */
  lemma ClashIsName(hash: string -> string, x: Named, y: Named, path: string)
    requires Injective(hash) && y.id == EntryId(hash, y.kind, path, y.name)
    requires Sayable([x.kind, x.source, y.kind, path])
    ensures Clash(hash, x, y) <==> y.kind == x.kind && path == x.source && exists c: nat :: c >= 2 && y.name == Suffixed(x.name, c)
    ensures path != x.source ==> !Clash(hash, x, y)
  {
    hide Frame, Suffixed;
    forall c: nat | Renamed(hash, x, c).id == y.id
      ensures y.kind == x.kind && path == x.source && y.name == Suffixed(x.name, c) {
      assert hash(Frame([x.kind, x.source, Suffixed(x.name, c)])) == hash(Frame([y.kind, path, y.name]));
      SameThree(x.kind, x.source, Suffixed(x.name, c), y.kind, path, y.name);
    }
    if y.kind == x.kind && path == x.source && exists c: nat :: c >= 2 && y.name == Suffixed(x.name, c) {
      var c: nat :| c >= 2 && y.name == Suffixed(x.name, c);
      assert Renamed(hash, x, c).id == y.id;
    }
  }

  /** Nor does any suffix come to the id of an entry declared by another. */
  lemma DeclaredApart(hash: string -> string, x: Named, c: nat, kind: string, path: string, name: string, by_: string)
    requires Injective(hash)
    requires Sayable([x.kind, x.source, Suffixed(x.name, c)]) && Sayable([kind, path, name, by_])
    ensures Renamed(hash, x, c).id != hash(Frame([kind, path, name, by_]))
  {
    hide Frame, Suffixed;
    var parts, more := [x.kind, x.source, Suffixed(x.name, c)], [kind, path, name, by_];
    if hash(Frame(parts)) == hash(Frame(more)) {
      AsMany(parts, more);
    }
  }

  lemma AsMany(parts: seq<string>, more: seq<string>)
    requires Sayable(parts) && Sayable(more) && Frame(parts) == Frame(more)
    ensures |parts| == |more|
  {
    FrameInjective(parts, more);
  }

  /** The last part may be as long as it likes. */
  lemma SameThree(a: string, b: string, c: string, d: string, e: string, f: string)
    requires Sayable([a, b, d, e]) && Frame([a, b, c]) == Frame([d, e, f])
    ensures a == d && b == e && c == f
  {
    FrameThree(a, b, c);
    FrameThree(d, e, f);
    hide Frame, Framed;
    assert [a, b, d, e][0] == a && [a, b, d, e][1] == b && [a, b, d, e][2] == d && [a, b, d, e][3] == e;
    var u, v, w, x, y, z := Framed(a), Framed(b), Framed(c), Framed(d), Framed(e), Framed(f);
    assert u + v + w == u + (v + w) && x + y + z == x + (y + z);
    FramedFirst(a, d, Framed(b) + Framed(c), Framed(e) + Framed(f));
    FramedFirst(b, e, Framed(c), Framed(f));
    FramedName(c, f);
  }

  /** The first holder of an id does lose it where an earlier entry's suffix
      comes to the same: of an entry, its like and an entry named as the second
      will be, the third is renamed, whatever path the first two are keyed on. */
  lemma FirstHolderRenamed(hash: string -> string, x: Named)
    requires Injective(hash)
    ensures Renamed(hash, x, 2).name == x.name + "#2" && EntryId(hash, x.kind, x.source, x.name) != Renamed(hash, x, 2).id
    ensures x.id != Renamed(hash, x, 2).id ==>
              var x2 := Renamed(hash, x, 2);
              var out := Deduped(hash, [x, x, x2]);
              |out| == 3 && out[0] == x && out[1] == x2 && |out[2].name| > |x2.name|
  {
    TwoNamesDiffer(hash, x.kind, x.source, x.name);
    assert Decimal(2) == "2" && x.name + "#" + "2" == x.name + "#2";
    hide Injective, Renamed, DedupFrom;
    var x2 := Renamed(hash, x, 2);
    if x.id != x2.id {
      var es := [x, x, x2];
      assert es[1..] == [x, x2] && [x, x2][1..] == [x2] && [x2][1..] == [];
      assert Fresh(hash, x, 2, {x.id}) == 2;
      assert Settled(hash, x, {x.id}, map[]) == x2;
      var seen := {x.id} + {x2.id};
      var next := NextAfter(hash, x, {x.id}, map[]);
      var e := Settled(hash, x2, seen, next);
      LongerName(hash, x2, Fresh(hash, x2, CounterOf(next, x2), seen));
      assert |e.name| > |x2.name|;
      hide Settled, NextAfter;
      assert {} + {x.id} == {x.id};
      DedupHead(hash, [x2], seen, next);
      DedupHead(hash, [x, x2], {x.id}, map[]);
      DedupHead(hash, es, {}, map[]);
      FreshFirst(hash, x);
      assert DedupFrom(hash, [x2], seen, next) == [e] + [];
      assert DedupFrom(hash, [x, x2], {x.id}, map[]) == [x2] + ([e] + []);
      assert Deduped(hash, es) == [x] + ([x2] + ([e] + []));
    }
  }

  lemma LongerName(hash: string -> string, e: Named, c: nat)
    ensures |Renamed(hash, e, c).name| > |e.name|
  {
  }

  lemma FreshFirst(hash: string -> string, e: Named)
    requires Injective(hash)
    ensures Settled(hash, e, {}, map[]) == e && NextAfter(hash, e, {}, map[]) == map[]
  {
    hide Injective;
  }

  lemma TwoNamesDiffer(hash: string -> string, kind: string, source: string, name: string)
    requires Injective(hash)
    ensures EntryId(hash, kind, source, name) != EntryId(hash, kind, source, Suffixed(name, 2))
  {
    FrameThree(kind, source, name);
    FrameThree(kind, source, Suffixed(name, 2));
    hide Frame;
    assert |Frame([kind, source, name])| != |Frame([kind, source, Suffixed(name, 2)])|;
  }
}
