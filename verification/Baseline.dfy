/** Baseline comparison: two scans, what became of each entry, and which
    differences may be asserted where coverage differed. */
module Baseline {
  import opened Results

  // --- scans

  datatype Status = Complete | Partial(unreadable: seq<string>) | Skipped | Failed

  datatype CollectorStatus = CollectorStatus(name: string, status: Status)

  datatype Header = Header(deep: bool, privileged: bool, enablement: string, enrichmentFailures: seq<string>,
                           collectors: seq<CollectorStatus>, root: string)

  datatype Entry = Entry(id: string, collector: Option<string>, command: Option<string>, targetPath: Option<string>,
                         targetSha256: Option<string>, enabled: string, trigger: string, principal: Option<string>,
                         ownerUid: nat, mode: nat, mtime: Option<nat>, provenance: string,
                         flags: seq<string>, raw: map<string, string>)

  datatype Scan = Scan(header: Header, entries: seq<Entry>)

  // --- coverage

  /** How much of the host a collector reached: all of it, all but certain paths,
      none of it. */
  datatype Coverage = All | AllBut(missed: set<string>) | Nothing

  function Elements(s: seq<string>): set<string> {
    set x | x in s
  }

  function CoverageOf(s: Option<CollectorStatus>): Coverage {
    if s.None? then Nothing
    else match s.value.status
      case Complete => All
      case Partial(unreadable) => AllBut(Elements(unreadable))
      case _ => Nothing
  }

  /** Whether `a` saw at least everything `b` saw. */
  predicate Covers(a: Coverage, b: Coverage) {
    if a.All? || b.Nothing? then true
    else if a.AllBut? && b.AllBut? then a.missed <= b.missed
    else false
  }

  /** Whether an entry that depends on some paths is seen. */
  predicate Sees(c: Coverage, deps: set<string>) {
    match c
    case All => true
    case AllBut(missed) => deps !! missed
    case Nothing => false
  }

  lemma CoversPreorder(a: Coverage, b: Coverage, c: Coverage)
    ensures Covers(a, a)
    ensures Covers(a, b) && Covers(b, c) ==> Covers(a, c)
    ensures Covers(a, b) && Covers(b, a) ==> a == b
  {
  }

  /** The order is that of what is seen, but for one pair: a partial collector
      with nothing unreadable sees all, and is not held to cover all. */
  lemma CoversIsSeeing(a: Coverage, b: Coverage)
    ensures Covers(a, b) <==>
              (forall deps :: Sees(b, deps) ==> Sees(a, deps)) && !(a == AllBut({}) && b == All)
  {
    if !Covers(a, b) && a != AllBut({}) {
      var none: set<string> := {};
      assert Sees(b, none);
      if a.AllBut? {
        if b.All? {
          var x :| x in a.missed;
          assert Sees(b, {x}) && !Sees(a, {x});
        } else {
          var x :| x in a.missed && x !in b.missed;
          assert Sees(b, {x}) && !Sees(a, {x});
        }
      } else {
        assert !Sees(a, none);
      }
    }
  }

  // --- trust

  datatype Trust = Trust(added: bool, removed: bool)

  /** The last status a collector has in a header. */
  function StatusOf(collectors: seq<CollectorStatus>, name: string): Option<CollectorStatus> {
    if collectors == [] then None
    else
      var last := collectors[|collectors| - 1];
      if last.name == name then Some(last) else StatusOf(collectors[..|collectors| - 1], name)
  }

  function SeenBy(scan: Scan, name: string): Coverage {
    CoverageOf(StatusOf(scan.header.collectors, name))
  }

  function NamesOf(collectors: seq<CollectorStatus>): set<string> {
    set c | c in collectors :: c.name
  }

  /** For each collector that saw other things in one scan than in the other,
      which differences can be believed. */
  function TrustOf(baseline: Scan, current: Scan): map<string, Trust> {
    map name | name in NamesOf(baseline.header.collectors) + NamesOf(current.header.collectors)
             && !(Covers(SeenBy(baseline, name), SeenBy(current, name)) && Covers(SeenBy(current, name), SeenBy(baseline, name)))
      :: Trust(Covers(SeenBy(baseline, name), SeenBy(current, name)), Covers(SeenBy(current, name), SeenBy(baseline, name)))
  }

  lemma {:induction false} StatusNone(collectors: seq<CollectorStatus>, name: string)
    ensures StatusOf(collectors, name).None? <==> name !in NamesOf(collectors)
    ensures StatusOf(collectors, name).Some? ==> StatusOf(collectors, name).value.name == name
  {
    if collectors != [] {
      var init, last := collectors[..|collectors| - 1], collectors[|collectors| - 1];
      assert collectors == init + [last];
      assert NamesOf(collectors) == NamesOf(init) + {last.name};
      StatusNone(init, name);
    }
  }

  /** Collectors not in the map had the same coverage both times. */
  lemma TrustIs(baseline: Scan, current: Scan, name: string)
    ensures name in TrustOf(baseline, current) <==> SeenBy(baseline, name) != SeenBy(current, name)
    ensures name in TrustOf(baseline, current) ==>
              && TrustOf(baseline, current)[name].added == Covers(SeenBy(baseline, name), SeenBy(current, name))
              && TrustOf(baseline, current)[name].removed == Covers(SeenBy(current, name), SeenBy(baseline, name))
  {
    StatusNone(baseline.header.collectors, name);
    StatusNone(current.header.collectors, name);
    CoversPreorder(SeenBy(baseline, name), SeenBy(current, name), Nothing);
  }

  method ByName(collectors: seq<CollectorStatus>) returns (m: map<string, CollectorStatus>)
    ensures m.Keys == NamesOf(collectors)
    ensures forall name :: name in m ==> StatusOf(collectors, name) == Some(m[name])
  {
    m := map[];
    var i := 0;
    while i < |collectors|
      invariant i <= |collectors| && m.Keys == NamesOf(collectors[..i])
      invariant forall name :: name in m ==> StatusOf(collectors[..i], name) == Some(m[name])
    {
      assert collectors[..i + 1] == collectors[..i] + [collectors[i]];
      assert NamesOf(collectors[..i + 1]) == NamesOf(collectors[..i]) + {collectors[i].name};
      m := m[collectors[i].name := collectors[i]];
      i := i + 1;
    }
    assert collectors[..i] == collectors;
  }

  method TrustBetween(baseline: Scan, current: Scan) returns (out: map<string, Trust>)
    ensures out == TrustOf(baseline, current)
  {
    var old_ := ByName(baseline.header.collectors);
    var new_ := ByName(current.header.collectors);
    out := map[];
    var names := old_.Keys + new_.Keys;
    ghost var spec := TrustOf(baseline, current);
    while names != {}
      invariant names <= old_.Keys + new_.Keys
      invariant out.Keys == spec.Keys - names
      invariant forall name :: name in out ==> out[name] == spec[name]
      decreases names
    {
      var name :| name in names;
      names := names - {name};
      StatusNone(baseline.header.collectors, name);
      StatusNone(current.header.collectors, name);
      var then_ := CoverageOf(if name in old_ then Some(old_[name]) else None);
      var now := CoverageOf(if name in new_ then Some(new_[name]) else None);
      var narrowed, widened := Covers(then_, now), Covers(now, then_);
      if !(narrowed && widened) {
        out := out[name := Trust(narrowed, widened)];
      }
    }
  }

  // --- what changed

  function TrimSlashes(s: string): string {
    if s != "" && s[|s| - 1] == '/' then TrimSlashes(s[..|s| - 1]) else s
  }

  function Replaced(s: string, pattern: string, put: string): string
    requires pattern != ""
  {
    if |s| < |pattern| then s
    else if pattern <= s then put + Replaced(s[|pattern|..], pattern, put)
    else [s[0]] + Replaced(s[1..], pattern, put)
  }

  /** A path relative to a root it lies under. */
  function Within(root: string, text: string): string {
    var prefix := TrimSlashes(root);
    if prefix == "" then text else Replaced(text, prefix + "/", "/")
  }

  predicate Live(key: string) {
    "live." <= key
  }

  function Settled(e: Entry, root: string): map<string, string> {
    map k | k in e.raw && !Live(k) :: Within(root, e.raw[k])
  }

  function TargetIn(e: Entry, root: string): Option<string> {
    if e.targetPath.None? then None else Some(Within(root, e.targetPath.value))
  }

  datatype Field = Command | TargetPath | TargetSha256 | Enabled | Trigger | Principal | OwnerUid | Mode | Mtime | Provenance | Flags | Raw

  const FIELDS := [Command, TargetPath, TargetSha256, Enabled, Trigger, Principal, OwnerUid, Mode, Mtime, Provenance, Flags, Raw]

  predicate Differs(f: Field, before: Entry, after: Entry, was: string, is_: string) {
    match f
    case Command => before.command != after.command
    case TargetPath => TargetIn(before, was) != TargetIn(after, is_)
    case TargetSha256 => before.targetSha256 != after.targetSha256
    case Enabled => before.enabled != after.enabled
    case Trigger => before.trigger != after.trigger
    case Principal => before.principal != after.principal
    case OwnerUid => before.ownerUid != after.ownerUid
    case Mode => before.mode != after.mode
    case Mtime => before.mtime != after.mtime
    case Provenance => before.provenance != after.provenance
    case Flags => multiset(before.flags) != multiset(after.flags)
    case Raw => Settled(before, was) != Settled(after, is_)
  }

  function ChangedAmong(fields: seq<Field>, before: Entry, after: Entry, was: string, is_: string): (out: seq<Field>)
    ensures forall f :: f in out <==> f in fields && Differs(f, before, after, was, is_)
  {
    if fields == [] then []
    else
      var init := ChangedAmong(fields[..|fields| - 1], before, after, was, is_);
      var f := fields[|fields| - 1];
      if Differs(f, before, after, was, is_) then init + [f] else init
  }

  function Changed(before: Entry, after: Entry, was: string, is_: string): seq<Field> {
    ChangedAmong(FIELDS, before, after, was, is_)
  }

  lemma {:induction false} ChangedMirrors(fields: seq<Field>, before: Entry, after: Entry, was: string, is_: string)
    ensures ChangedAmong(fields, before, after, was, is_) == ChangedAmong(fields, after, before, is_, was)
  {
    if fields != [] {
      ChangedMirrors(fields[..|fields| - 1], before, after, was, is_);
    }
  }

  // --- deltas

  datatype Delta =
    | AddedDelta
    | RemovedDelta
    | ChangedDelta(fields: seq<Field>)
    | Unchanged
    | Uncertain(wouldBe: Delta)

  datatype Diffed = Diffed(entry: Entry, delta: Delta)

  /** A delta as it is reported: doubted, if the difference in what the entry's
      collector saw may be all there is to it. */
  function Judged(trust: map<string, Trust>, e: Entry, d: Delta): Delta {
    if e.collector.None? || e.collector.value !in trust then d
    else
      var t := trust[e.collector.value];
      match d
      case AddedDelta => if t.added then d else Uncertain(d)
      case RemovedDelta => if t.removed then d else Uncertain(d)
      case ChangedDelta(_) => Uncertain(d)
      case _ => d
  }

  predicate OnlyTimes(fields: seq<Field>) {
    forall f :: f in fields ==> f == Mtime
  }

  /** What becomes of an id, by the records the two scans have of it. */
  function DeltaOf(trust: map<string, Trust>, before: Option<Entry>, after: Option<Entry>, was: string, is_: string): Delta
    requires before.Some? || after.Some?
  {
    if before.None? then Judged(trust, after.value, AddedDelta)
    else if after.None? then Judged(trust, before.value, RemovedDelta)
    else
      var fields := Changed(before.value, after.value, was, is_);
      if OnlyTimes(fields) then Unchanged else Judged(trust, after.value, ChangedDelta(fields))
  }

  // --- comparing

  predicate DistinctIds(es: seq<Entry>) {
    forall i, j :: 0 <= i < j < |es| ==> es[i].id != es[j].id
  }

  function Ids(es: seq<Entry>): set<string> {
    set e | e in es :: e.id
  }

  function Record(es: seq<Entry>, id: string): Option<Entry> {
    if es == [] then None
    else
      var last := es[|es| - 1];
      if last.id == id then Some(last) else Record(es[..|es| - 1], id)
  }

  /** Entries by id, or an error where two share one. */
  method Index(es: seq<Entry>) returns (r: Result<map<string, Entry>>)
    ensures r.Ok? <==> DistinctIds(es)
    ensures r.Ok? ==> r.value.Keys == Ids(es) && forall id :: id in r.value ==> Record(es, id) == Some(r.value[id])
  {
    var out: map<string, Entry> := map[];
    var i := 0;
    while i < |es|
      invariant i <= |es| && DistinctIds(es[..i]) && out.Keys == Ids(es[..i])
      invariant forall id :: id in out ==> Record(es[..i], id) == Some(out[id])
    {
      var e := es[i];
      assert es[..i + 1] == es[..i] + [e];
      assert Ids(es[..i + 1]) == Ids(es[..i]) + {e.id};
      if e.id in out {
        var j :| 0 <= j < i && es[..i][j].id == e.id;
        assert es[j].id == es[i].id;
        return Err(ValueFault);
      }
      forall j | 0 <= j < i ensures es[j].id != e.id {
        assert es[..i][j] in es[..i];
      }
      out := out[e.id := e];
      i := i + 1;
    }
    assert es[..i] == es;
    return Ok(out);
  }

  predicate Comparable(baseline: Scan, current: Scan) {
    && baseline.header.deep == current.header.deep
    && baseline.header.privileged == current.header.privileged
    && baseline.header.enablement == current.header.enablement
    && baseline.header.enrichmentFailures == [] && current.header.enrichmentFailures == []
  }

  /** Whether the comparison is made at all. */
  predicate Compares(baseline: Scan, current: Scan) {
    && Comparable(baseline, current)
    && (TrustOf(baseline, current) != map[] ==> forall e :: e in baseline.entries ==> e.collector.Some?)
    && DistinctIds(baseline.entries) && DistinctIds(current.entries)
  }

  /** What the comparison says of an id of either scan. */
  function Verdict(baseline: Scan, current: Scan, id: string): Diffed
    requires id in Ids(baseline.entries) + Ids(current.entries)
  {
    RecordSome(baseline.entries, id);
    RecordSome(current.entries, id);
    var before, after := Record(baseline.entries, id), Record(current.entries, id);
    Diffed(if after.Some? then after.value else before.value,
           DeltaOf(TrustOf(baseline, current), before, after, baseline.header.root, current.header.root))
  }

  lemma {:induction false} RecordSome(es: seq<Entry>, id: string)
    ensures Record(es, id).Some? <==> id in Ids(es)
    ensures Record(es, id).Some? ==> Record(es, id).value in es && Record(es, id).value.id == id
  {
    if es != [] {
      assert es == es[..|es| - 1] + [es[|es| - 1]];
      assert Ids(es) == Ids(es[..|es| - 1]) + {es[|es| - 1].id};
      RecordSome(es[..|es| - 1], id);
    }
  }

  /** Every id of either scan, once, with the delta its two records define;
      the order of the output is left open. */
  predicate Conserves(baseline: Scan, current: Scan, out: seq<Diffed>) {
    && (forall i :: 0 <= i < |out| ==>
          out[i].entry.id in Ids(baseline.entries) + Ids(current.entries) && out[i] == Verdict(baseline, current, out[i].entry.id))
    && (forall i, j :: 0 <= i < j < |out| ==> out[i].entry.id != out[j].entry.id)
    && (forall id :: id in Ids(baseline.entries) + Ids(current.entries) ==> exists i :: 0 <= i < |out| && out[i].entry.id == id)
  }

  /** Compares the entries of two scans: each of the current one against the
      baseline's of the same id, and then whatever the baseline has left. */
  method DiffWith(baseline: Scan, current: Scan, trust: map<string, Trust>) returns (r: Result<seq<Diffed>>)
    requires trust == TrustOf(baseline, current)
    ensures r.Ok? <==> && (trust != map[] ==> forall e :: e in baseline.entries ==> e.collector.Some?)
                       && DistinctIds(baseline.entries) && DistinctIds(current.entries)
    ensures r.Ok? ==> Conserves(baseline, current, r.value)
  {
    hide Judged, Changed, TrustOf, Done, Verdict, DeltaOf;
    if trust != map[] && exists e :: e in baseline.entries && e.collector.None? {
      return Err(ValueFault);
    }
    var old_ :- Index(baseline.entries);
    var new_ :- Index(current.entries);
    var out, rest := AgainstBaseline(baseline, current, trust, old_, new_);
    out := LeftOver(baseline, current, trust, rest, out, old_.Keys + new_.Keys);
    return Ok(out);
  }

  /** The current scan's entries, each taking its id from what is left of the baseline. */
  method AgainstBaseline(baseline: Scan, current: Scan, trust: map<string, Trust>, old_: map<string, Entry>, new_: map<string, Entry>)
    returns (out: seq<Diffed>, rest: map<string, Entry>)
    requires trust == TrustOf(baseline, current)
    requires old_.Keys == Ids(baseline.entries) && forall id :: id in old_ ==> Record(baseline.entries, id) == Some(old_[id])
    requires new_.Keys == Ids(current.entries) && forall id :: id in new_ ==> Record(current.entries, id) == Some(new_[id])
    ensures rest.Keys == old_.Keys - new_.Keys && forall id :: id in rest ==> rest[id] == old_[id]
    ensures Done(baseline, current, out, old_.Keys + new_.Keys, new_.Keys)
  {
    hide Judged, Changed, TrustOf, Done, Verdict, DeltaOf, Record, Ids;
    out, rest := [], old_;
    var ids := new_.Keys;
    ghost var all := old_.Keys + new_.Keys;
    NoneDone(baseline, current, all);
    assert new_.Keys - ids == {};
    while ids != {}
      invariant ids <= new_.Keys && rest.Keys == old_.Keys - (new_.Keys - ids)
      invariant forall id :: id in rest ==> rest[id] == old_[id]
      invariant Done(baseline, current, out, all, new_.Keys - ids)
      decreases ids
    {
      var id :| id in ids;
      ghost var was := ids;
      ids := ids - {id};
      var entry := new_[id];
      var before: Option<Entry> := None;
      if id in rest {
        before := Some(rest[id]);
        rest := rest - {id};
      }
      var delta := SeenNow(trust, before, entry, baseline.header.root, current.header.root);
      VerdictIs(baseline, current, id, before, Some(entry));
      assert new_.Keys - ids == new_.Keys - was + {id};
      DoneOne(baseline, current, out, all, new_.Keys - was, Diffed(entry, delta));
      out := out + [Diffed(entry, delta)];
    }
    assert new_.Keys - ids == new_.Keys;
  }

  /** The ids that are left are the baseline's alone. */
  method LeftOver(baseline: Scan, current: Scan, trust: map<string, Trust>, rest: map<string, Entry>, before: seq<Diffed>, ghost all: set<string>)
    returns (out: seq<Diffed>)
    requires trust == TrustOf(baseline, current) && all == Ids(baseline.entries) + Ids(current.entries)
    requires rest.Keys == Ids(baseline.entries) - Ids(current.entries)
    requires forall id :: id in rest ==> Record(baseline.entries, id) == Some(rest[id])
    requires Done(baseline, current, before, all, Ids(current.entries))
    ensures Conserves(baseline, current, out)
  {
    hide Judged, Changed, TrustOf, Done, Verdict, DeltaOf, Record, Ids;
    out := before;
    var left := rest.Keys;
    assert all - left == Ids(current.entries);
    while left != {}
      invariant left <= rest.Keys
      invariant Done(baseline, current, out, all, all - left)
      decreases left
    {
      var id :| id in left;
      ghost var was := left;
      left := left - {id};
      var entry := rest[id];
      var delta := SeenThen(trust, entry, baseline.header.root, current.header.root);
      VerdictIs(baseline, current, id, Some(entry), None);
      assert all - left == all - was + {id};
      DoneOne(baseline, current, out, all, all - was, Diffed(entry, delta));
      out := out + [Diffed(entry, delta)];
    }
    assert all - left == all;
    AllDone(baseline, current, out, all);
  }

  /** What becomes of an entry the current scan has. */
  method SeenNow(trust: map<string, Trust>, before: Option<Entry>, entry: Entry, was: string, is_: string) returns (delta: Delta)
    ensures delta == DeltaOf(trust, before, Some(entry), was, is_)
  {
    if before.None? {
      return Judged(trust, entry, AddedDelta);
    }
    var fields := Changed(before.value, entry, was, is_);
    return if OnlyTimes(fields) then Unchanged else Judged(trust, entry, ChangedDelta(fields));
  }

  /** What became of one that only the baseline has. */
  method SeenThen(trust: map<string, Trust>, entry: Entry, ghost was: string, ghost is_: string) returns (delta: Delta)
    ensures delta == DeltaOf(trust, Some(entry), None, was, is_)
  {
    return Judged(trust, entry, RemovedDelta);
  }

  lemma VerdictIs(baseline: Scan, current: Scan, id: string, before: Option<Entry>, after: Option<Entry>)
    requires before.Some? || after.Some?
    requires if id in Ids(baseline.entries) then before == Record(baseline.entries, id) else before.None?
    requires if id in Ids(current.entries) then after == Record(current.entries, id) else after.None?
    ensures id in Ids(baseline.entries) + Ids(current.entries)
    ensures var e := if after.Some? then after.value else before.value;
            && e.id == id
            && Verdict(baseline, current, id)
            == Diffed(e, DeltaOf(TrustOf(baseline, current), before, after, baseline.header.root, current.header.root))
  {
    RecordSome(baseline.entries, id);
    RecordSome(current.entries, id);
  }

  lemma NoneDone(baseline: Scan, current: Scan, all: set<string>)
    requires all == Ids(baseline.entries) + Ids(current.entries)
    ensures Done(baseline, current, [], all, {})
  {
  }

  lemma AllDone(baseline: Scan, current: Scan, out: seq<Diffed>, all: set<string>)
    requires Done(baseline, current, out, all, all)
    ensures Conserves(baseline, current, out)
  {
    hide Verdict;
  }

  /** Exactly the ids in `done` are in `out`, each once and with its verdict. */
  predicate Done(baseline: Scan, current: Scan, out: seq<Diffed>, all: set<string>, done: set<string>) {
    && all == Ids(baseline.entries) + Ids(current.entries) && done <= all
    && (forall i :: 0 <= i < |out| ==> out[i].entry.id in done && out[i] == Verdict(baseline, current, out[i].entry.id))
    && (forall i, j :: 0 <= i < j < |out| ==> out[i].entry.id != out[j].entry.id)
    && (forall id :: id in done ==> exists i :: 0 <= i < |out| && out[i].entry.id == id)
  }

  lemma DoneOne(baseline: Scan, current: Scan, out: seq<Diffed>, all: set<string>, done: set<string>, d: Diffed)
    requires Done(baseline, current, out, all, done) && d.entry.id in all - done
    requires d == Verdict(baseline, current, d.entry.id)
    ensures Done(baseline, current, out + [d], all, done + {d.entry.id})
  {
    hide Verdict;
    var more := out + [d];
    assert more[|out|] == d;
    forall id | id in done + {d.entry.id} ensures exists i :: 0 <= i < |more| && more[i].entry.id == id {
      if id in done {
        var i :| 0 <= i < |out| && out[i].entry.id == id;
        assert more[i].entry.id == id;
      }
    }
  }

  method Compare(baseline: Scan, current: Scan) returns (r: Result<seq<Diffed>>)
    ensures r.Ok? <==> Compares(baseline, current)
    ensures r.Ok? ==> Conserves(baseline, current, r.value)
  {
    if !Comparable(baseline, current) {
      return Err(ValueFault);
    }
    var trust := TrustBetween(baseline, current);
    r := DiffWith(baseline, current, trust);
  }

  // --- the mirror

  function Mirrored(d: Delta): Delta {
    match d
    case AddedDelta => RemovedDelta
    case RemovedDelta => AddedDelta
    case Uncertain(w) => Uncertain(Mirrored(w))
    case _ => d
  }

  lemma TrustMirrors(baseline: Scan, current: Scan, name: string)
    ensures var t, u := TrustOf(baseline, current), TrustOf(current, baseline);
            && (name in t <==> name in u)
            && (name in t ==> u[name] == Trust(t[name].removed, t[name].added))
  {
    TrustIs(baseline, current, name);
    TrustIs(current, baseline, name);
  }

  /** Whether a collector's coverage differs between the scans. */
  predicate Moved(baseline: Scan, current: Scan, collector: Option<string>) {
    collector.Some? && SeenBy(baseline, collector.value) != SeenBy(current, collector.value)
  }

  /** A change to an entry that went from one collector to another, the coverage
      of just one of which moved. */
  predicate SplitChange(baseline: Scan, current: Scan, before: Option<Entry>, after: Option<Entry>) {
    && before.Some? && after.Some?
    && !OnlyTimes(Changed(before.value, after.value, baseline.header.root, current.header.root))
    && Moved(baseline, current, before.value.collector) != Moved(baseline, current, after.value.collector)
  }

  /** Swapping the scans swaps added with removed, certain or uncertain, and
      leaves changed fields and unchanged alone, but for such a change and for
      nothing else; so always where entries of one id name one collector. */
  lemma SwapMirrors(baseline: Scan, current: Scan, id: string)
    requires id in Ids(baseline.entries) + Ids(current.entries)
    ensures var before, after := Record(baseline.entries, id), Record(current.entries, id);
            && (Verdict(current, baseline, id).delta == Mirrored(Verdict(baseline, current, id).delta)
                <==> !SplitChange(baseline, current, before, after))
            && (before.Some? && after.Some? && before.value.collector == after.value.collector
                ==> !SplitChange(baseline, current, before, after))
  {
    hide TrustOf, Changed, SeenBy, OnlyTimes;
    RecordSome(baseline.entries, id);
    RecordSome(current.entries, id);
    var before, after := Record(baseline.entries, id), Record(current.entries, id);
    if before.Some? {
      TrustMoves(baseline, current, before.value.collector);
    }
    if after.Some? {
      TrustMoves(baseline, current, after.value.collector);
    }
    if before.Some? && after.Some? {
      FieldsMirror(before.value, after.value, baseline.header.root, current.header.root);
    }
  }

  lemma TrustMoves(baseline: Scan, current: Scan, collector: Option<string>)
    ensures Moved(baseline, current, collector) <==> collector.Some? && collector.value in TrustOf(baseline, current)
    ensures Moved(baseline, current, collector) ==>
              var t := TrustOf(baseline, current)[collector.value];
              collector.value in TrustOf(current, baseline) && TrustOf(current, baseline)[collector.value] == Trust(t.removed, t.added)
    ensures collector.Some? && !Moved(baseline, current, collector) ==> collector.value !in TrustOf(current, baseline)
  {
    hide TrustOf, SeenBy;
    if collector.Some? {
      TrustIs(baseline, current, collector.value);
      TrustMirrors(baseline, current, collector.value);
    }
  }

  lemma FieldsMirror(before: Entry, after: Entry, was: string, is_: string)
    ensures Changed(before, after, was, is_) == Changed(after, before, is_, was)
  {
    ChangedMirrors(FIELDS, before, after, was, is_);
  }

  const P_STATUS := CollectorStatus("p", Complete)
  const Q_STATUS := CollectorStatus("q", Complete)
  const AS_P := Entry("x", Some("p"), Some("a"), None, None, "", "", None, 0, 0, None, "", [], map[])
  const AS_Q := Entry("x", Some("q"), Some("b"), None, None, "", "", None, 0, 0, None, "", [], map[])
  const WITH_P := Scan(Header(false, false, "", [], [P_STATUS, Q_STATUS], ""), [AS_P])
  const WITHOUT_P := Scan(Header(false, false, "", [], [Q_STATUS], ""), [AS_Q])

  lemma ExampleTrust()
    ensures "p" in TrustOf(WITH_P, WITHOUT_P) && "q" !in TrustOf(WITH_P, WITHOUT_P)
    ensures "p" in TrustOf(WITHOUT_P, WITH_P) && "q" !in TrustOf(WITHOUT_P, WITH_P)
  {
    TrustIs(WITH_P, WITHOUT_P, "p");
    TrustIs(WITH_P, WITHOUT_P, "q");
    TrustMirrors(WITH_P, WITHOUT_P, "p");
    TrustMirrors(WITH_P, WITHOUT_P, "q");
    hide TrustOf;
    var both := [P_STATUS, Q_STATUS];
    assert both[..1] == [P_STATUS] && [P_STATUS][..0] == [] && [Q_STATUS][..0] == [];
    assert StatusOf([P_STATUS], "p") == Some(P_STATUS) && StatusOf(both, "p") == Some(P_STATUS);
    assert StatusOf([Q_STATUS], "p") == None && StatusOf([Q_STATUS], "q") == Some(Q_STATUS) == StatusOf(both, "q");
  }

  lemma ExampleRecords(e: Entry)
    ensures DistinctIds([e]) && e.id in Ids([e]) && Record([e], e.id) == Some(e)
  {
    assert e in [e];
  }

  lemma ExampleFields()
    ensures !OnlyTimes(Changed(AS_P, AS_Q, "", "")) && !OnlyTimes(Changed(AS_Q, AS_P, "", ""))
  {
    assert FIELDS[0] == Command;
    assert Command in Changed(AS_P, AS_Q, "", "") && Command in Changed(AS_Q, AS_P, "", "");
  }

  /** A split change: asserted one way and uncertain the other. */
  lemma MirrorNeedsOneCollector()
    ensures Compares(WITH_P, WITHOUT_P) && Compares(WITHOUT_P, WITH_P)
    ensures "x" in Ids(WITH_P.entries) && "x" in Ids(WITHOUT_P.entries)
    ensures Verdict(WITH_P, WITHOUT_P, "x").delta.ChangedDelta?
    ensures Verdict(WITHOUT_P, WITH_P, "x").delta.Uncertain?
  {
    hide TrustOf, Changed, OnlyTimes;
    ExampleTrust();
    ExampleFields();
    ExampleRecords(AS_P);
    ExampleRecords(AS_Q);
  }

  // --- soundness

  /** What is on a host: for each id there, its collector and the paths that
      must be readable for it to be seen. */
  datatype Fact = Fact(collector: string, deps: set<string>)

  type Host = map<string, Fact>

  /** A scan of a host: an entry is there just when its collector's coverage
      misses none of the paths it depends on. */
  ghost predicate Shows(scan: Scan, host: Host) {
    && (forall id :: id in Ids(scan.entries) <==>
          id in host && Sees(SeenBy(scan, host[id].collector), host[id].deps))
    && (forall e :: e in scan.entries && e.id in host ==> e.collector == Some(host[e.id].collector))
  }

  /** What is asserted is so: an asserted addition was not on the host, as it is
      now, at the baseline; an asserted removal is not on it, as it was then;
      and a change is asserted only where both scans saw the same. */
  lemma TrustIsSound(baseline: Scan, current: Scan, before: Host, after: Host, id: string)
    requires Shows(baseline, before) && Shows(current, after)
    requires id in Ids(baseline.entries) + Ids(current.entries)
    ensures var d := Verdict(baseline, current, id).delta;
            && (d.AddedDelta? ==> id in after && !(id in before && before[id] == after[id]))
            && (d.RemovedDelta? ==> id in before && !(id in after && after[id] == before[id]))
            && (d.ChangedDelta? ==> id in after && SeenBy(baseline, after[id].collector) == SeenBy(current, after[id].collector))
  {
    hide TrustOf, Changed, SeenBy;
    RecordSome(baseline.entries, id);
    RecordSome(current.entries, id);
    var then_, now := Record(baseline.entries, id), Record(current.entries, id);
    if now.Some? {
      var c := after[id].collector;
      assert now.value.collector == Some(c);
      TrustIs(baseline, current, c);
      if then_.None? && id in before && before[id] == after[id] {
        CoversSees(SeenBy(baseline, c), SeenBy(current, c), after[id].deps);
      }
    } else {
      var c := before[id].collector;
      assert then_.value.collector == Some(c);
      TrustIs(baseline, current, c);
      if id in after && after[id] == before[id] {
        CoversSees(SeenBy(current, c), SeenBy(baseline, c), before[id].deps);
      }
    }
  }

  /** So, of an id that keeps its collector and what it depends on, an asserted
      addition was absent and an asserted removal is. */
  lemma TrustIsAbsence(baseline: Scan, current: Scan, before: Host, after: Host, id: string)
    requires Shows(baseline, before) && Shows(current, after)
    requires id in Ids(baseline.entries) + Ids(current.entries)
    requires id in before && id in after ==> before[id] == after[id]
    ensures var d := Verdict(baseline, current, id).delta;
            && (d.AddedDelta? ==> id !in before && id in after)
            && (d.RemovedDelta? ==> id in before && id !in after)
  {
    hide Shows, Verdict;
    TrustIsSound(baseline, current, before, after, id);
  }

  const HALF := Header(false, false, "", [], [CollectorStatus("p", Partial(["d"]))], "")
  const HIDDEN := Scan(HALF, [])
  const SHOWN := Scan(HALF, [AS_P])

  lemma HalfSeen(scan: Scan)
    requires scan.header == HALF
    ensures SeenBy(scan, "p") == AllBut({"d"})
  {
    assert HALF.collectors[..0] == [] && Elements(["d"]) == {"d"};
  }

  /** It must keep them: an id on both hosts is asserted added when it no longer
      depends on the path its collector cannot read, then or now. */
  lemma MovedDepsAdded()
    ensures Shows(HIDDEN, map["x" := Fact("p", {"d"})]) && Shows(SHOWN, map["x" := Fact("p", {})])
    ensures "x" in Ids(SHOWN.entries) && Verdict(HIDDEN, SHOWN, "x").delta.AddedDelta?
  {
    HalfSeen(HIDDEN);
    HalfSeen(SHOWN);
    TrustIs(HIDDEN, SHOWN, "p");
    ExampleRecords(AS_P);
    hide SeenBy, TrustOf;
  }

  lemma CoversSees(a: Coverage, b: Coverage, deps: set<string>)
    ensures Covers(a, b) && Sees(b, deps) ==> Sees(a, deps)
    ensures Covers(a, a)
  {
    CoversPreorder(a, b, b);
  }
}
