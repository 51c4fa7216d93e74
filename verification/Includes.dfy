/** The include walk of the agents' configuration readers: a depth-first walk
    with a set of files seen and a bound on depth, on any graph of includes. */
module Includes {
  import opened Results

  const MAX_INCLUDES: nat := 10

  /** The `name=value` lines of each file that can be read, and which of them
      include what. */
  datatype World = World(files: map<string, seq<(string, string)>>, include_: (string, string, string) -> Option<seq<string>>)

  datatype Setting = Setting(from: string, key: string, value: string)

  /** What a walk has seen, read, put out, and left for being too deep. */
  datatype Walk = Walk(seen: set<string>, log: seq<string>, out: seq<Setting>, cut: set<string>)

  const UNREAD := Walk({}, [], [], {})

  // --- the walk

  function Visit(w: World, rel: string, depth: nat, s: Walk): Walk
    requires depth <= MAX_INCLUDES + 1
    decreases MAX_INCLUDES + 1 - depth, 3, 0
  {
    if depth > MAX_INCLUDES then s.(cut := s.cut + {rel})
    else if rel in s.seen then s
    else
      var s1 := s.(seen := s.seen + {rel});
      if rel !in w.files then s1
      else VisitLines(w, rel, w.files[rel], depth, s1.(log := s1.log + [rel]))
  }

  function VisitLines(w: World, rel: string, lines: seq<(string, string)>, depth: nat, s: Walk): Walk
    requires depth <= MAX_INCLUDES
    decreases MAX_INCLUDES + 1 - depth, 2, |lines|
  {
    if lines == [] then s
    else
      var (k, v) := lines[0];
      var s1 := match w.include_(rel, k, v)
        case None => s.(out := s.out + [Setting(rel, k, v)])
        case Some(targets) => VisitAll(w, targets, depth, s);
      VisitLines(w, rel, lines[1..], depth, s1)
  }

  function VisitAll(w: World, targets: seq<string>, depth: nat, s: Walk): Walk
    requires depth <= MAX_INCLUDES
    decreases MAX_INCLUDES + 1 - depth, 1, |targets|
  {
    if targets == [] then s
    else VisitAll(w, targets[1..], depth, Visit(w, targets[0], depth + 1, s))
  }

  /** As the reader walks: files in turn, and each include in its place. */
  method EqLines(w: World, rel: string, depth: nat, s: Walk) returns (r: Walk)
    requires depth <= MAX_INCLUDES + 1
    ensures r == Visit(w, rel, depth, s)
    decreases MAX_INCLUDES + 1 - depth
  {
    r := s;
    if depth > MAX_INCLUDES {
      r := r.(cut := r.cut + {rel});
      return;
    }
    if rel in r.seen {
      return;
    }
    r := r.(seen := r.seen + {rel});
    if rel !in w.files {
      return;
    }
    r := r.(log := r.log + [rel]);
    var lines := w.files[rel];
    var i := 0;
    while i < |lines|
      invariant i <= |lines| && VisitLines(w, rel, lines[i..], depth, r) == Visit(w, rel, depth, s)
    {
      assert lines[i..][1..] == lines[i + 1..];
      var (k, v) := lines[i];
      match w.include_(rel, k, v) {
        case None => r := r.(out := r.out + [Setting(rel, k, v)]);
        case Some(targets) =>
          ghost var before := r;
          var j := 0;
          while j < |targets|
            invariant j <= |targets| && VisitAll(w, targets[j..], depth, r) == VisitAll(w, targets, depth, before)
          {
            assert targets[j..][1..] == targets[j + 1..];
            r := EqLines(w, targets[j], depth + 1, r);
            j := j + 1;
          }
      }
      i := i + 1;
    }
  }

  // --- what includes reach

  predicate HasTarget(w: World, from: string, lines: seq<(string, string)>, to: string) {
    exists i :: 0 <= i < |lines| && var t := w.include_(from, lines[i].0, lines[i].1); t.Some? && to in t.value
  }

  predicate Includes(w: World, from: string, to: string) {
    from in w.files && HasTarget(w, from, w.files[from], to)
  }

  predicate Chain(w: World, p: seq<string>) {
    p != [] && forall i :: 0 <= i < |p| - 1 ==> Includes(w, p[i], p[i + 1])
  }

  ghost predicate Reachable(w: World, root: string, f: string) {
    exists p :: Chain(w, p) && p[0] == root && p[|p| - 1] == f
  }

  lemma ReachesItself(w: World, root: string)
    ensures Reachable(w, root, root)
  {
    assert Chain(w, [root]) && [root][0] == root;
  }

  lemma ReachesNext(w: World, root: string, f: string, g: string)
    requires Reachable(w, root, f) && Includes(w, f, g)
    ensures Reachable(w, root, g)
  {
    var p :| Chain(w, p) && p[0] == root && p[|p| - 1] == f;
    var q := p + [g];
    forall i | 0 <= i < |q| - 1 ensures Includes(w, q[i], q[i + 1]) {
      if i < |p| - 1 {
        assert Includes(w, p[i], p[i + 1]);
      }
    }
    assert Chain(w, q) && q[0] == root && q[|q| - 1] == g;
  }

  /** A set with the root in it and closed under includes holds all that is reachable. */
  lemma {:induction false} ClosedHolds(w: World, s: set<string>, p: seq<string>)
    requires Chain(w, p) && p[0] in s
    requires forall f, g :: f in s && Includes(w, f, g) ==> g in s
    ensures p[|p| - 1] in s
    decreases |p|
  {
    if |p| > 1 {
      var q := p[..|p| - 1];
      assert forall i :: 0 <= i < |q| ==> q[i] == p[i];
      ClosedHolds(w, s, q);
      assert Includes(w, p[|p| - 2], p[|p| - 1]);
    }
  }

  // --- what a walk keeps

  function SettingsOf(w: World, rel: string, lines: seq<(string, string)>): seq<Setting> {
    if lines == [] then []
    else
      var rest := SettingsOf(w, rel, lines[1..]);
      if w.include_(rel, lines[0].0, lines[0].1).None? then [Setting(rel, lines[0].0, lines[0].1)] + rest else rest
  }

  /** The settings some output has from one file. */
  function From(out: seq<Setting>, f: string): seq<Setting> {
    if out == [] then []
    else From(out[..|out| - 1], f) + if out[|out| - 1].from == f then [out[|out| - 1]] else []
  }

  /** All a file's settings, once, if it was read. */
  function Share(w: World, s: Walk, f: string): seq<Setting> {
    if f in s.seen && f in w.files then SettingsOf(w, f, w.files[f]) else []
  }

  predicate Grows(s: Walk, t: Walk) {
    s.seen <= t.seen && s.cut <= t.cut && |s.log| <= |t.log|
  }

  /** Files are read once each, and just those seen that can be read. */
  ghost predicate ReadsOk(w: World, s: Walk) {
    && (forall i, j :: 0 <= i < j < |s.log| ==> s.log[i] != s.log[j])
    && (forall f :: f in s.log <==> f in s.seen && f in w.files)
  }

  ghost predicate Followed(w: World, s: Walk, f: string) {
    forall g :: Includes(w, f, g) ==> g in s.seen || g in s.cut
  }

  /** Any state a walk can be in: but for the files half read, every file seen
      has all its settings out, once, and all its includes seen or cut. */
  ghost predicate Whole(w: World, s: Walk, open_: set<string>) {
    && open_ <= s.seen && ReadsOk(w, s)
    && (forall f :: f !in open_ ==> From(s.out, f) == Share(w, s, f))
    && (forall f :: f in s.seen - open_ ==> Followed(w, s, f))
  }

  predicate SameFor(s: Walk, t: Walk, open_: set<string>) {
    forall f :: f in open_ ==> From(t.out, f) == From(s.out, f)
  }

  lemma FromSnoc(out: seq<Setting>, x: Setting, f: string)
    ensures From(out + [x], f) == From(out, f) + if x.from == f then [x] else []
  {
    assert (out + [x])[..|out|] == out;
  }

  lemma {:induction false} VisitKeeps(w: World, rel: string, depth: nat, s: Walk, open_: set<string>)
    requires depth <= MAX_INCLUDES + 1 && Whole(w, s, open_)
    ensures var t := Visit(w, rel, depth, s);
            && Grows(s, t) && Whole(w, t, open_) && SameFor(s, t, open_)
            && (rel in t.seen || rel in t.cut)
    decreases MAX_INCLUDES + 1 - depth, 3, 0
  {
    hide From, SettingsOf, Whole;
    if depth > MAX_INCLUDES {
      CutKeeps(w, rel, s, open_);
    } else if rel !in s.seen {
      if rel in w.files {
        var s2 := s.(seen := s.seen + {rel}, log := s.log + [rel]);
        BeginKeeps(w, rel, s, open_);
        LinesKeep(w, rel, w.files[rel], depth, s2, open_ + {rel});
        EndKeeps(w, rel, s2, VisitLines(w, rel, w.files[rel], depth, s2), open_);
      } else {
        MissingKeeps(w, rel, s, open_);
      }
    }
  }

  lemma CutKeeps(w: World, rel: string, s: Walk, open_: set<string>)
    requires Whole(w, s, open_)
    ensures Whole(w, s.(cut := s.cut + {rel}), open_)
  {
    hide From, SettingsOf;
  }

  /** A file that cannot be read. */
  lemma MissingKeeps(w: World, rel: string, s: Walk, open_: set<string>)
    requires Whole(w, s, open_) && rel !in s.seen && rel !in w.files
    ensures Whole(w, s.(seen := s.seen + {rel}), open_)
  {
    hide From, SettingsOf;
    var t := s.(seen := s.seen + {rel});
    forall f | f !in open_ ensures From(t.out, f) == Share(w, t, f) {
      assert Share(w, t, f) == Share(w, s, f);
    }
    forall f | f in t.seen - open_ ensures Followed(w, t, f) {
      assert f == rel || f in s.seen - open_;
    }
  }

  /** A file about to be read. */
  lemma BeginKeeps(w: World, rel: string, s: Walk, open_: set<string>)
    requires Whole(w, s, open_) && rel !in s.seen && rel in w.files
    ensures Whole(w, s.(seen := s.seen + {rel}, log := s.log + [rel]), open_ + {rel})
    ensures From(s.out, rel) == [] && rel !in open_
  {
    hide From, SettingsOf;
    assert From(s.out, rel) == Share(w, s, rel);
    var t := s.(seen := s.seen + {rel}, log := s.log + [rel]);
    forall f | f !in open_ + {rel} ensures From(t.out, f) == Share(w, t, f) {
      assert From(s.out, f) == Share(w, s, f);
    }
    forall f | f in t.seen - (open_ + {rel}) ensures Followed(w, t, f) {
      assert f in s.seen - open_;
    }
  }

  /** A file read to its end. */
  lemma EndKeeps(w: World, rel: string, s: Walk, t: Walk, open_: set<string>)
    requires rel in w.files && rel in s.seen && s.seen <= t.seen && Whole(w, t, open_ + {rel}) && rel !in open_
    requires From(s.out, rel) == [] && From(t.out, rel) == From(s.out, rel) + SettingsOf(w, rel, w.files[rel])
    requires forall g :: HasTarget(w, rel, w.files[rel], g) ==> g in t.seen || g in t.cut
    ensures Whole(w, t, open_)
  {
    hide From, SettingsOf;
    assert Followed(w, t, rel);
    forall f | f !in open_ ensures From(t.out, f) == Share(w, t, f) {
      if f == rel {
        assert [] + SettingsOf(w, rel, w.files[rel]) == SettingsOf(w, rel, w.files[rel]);
      } else {
        assert f !in open_ + {rel};
      }
    }
    forall f | f in t.seen - open_ ensures Followed(w, t, f) {
      if f != rel {
        assert f in t.seen - (open_ + {rel});
      }
    }
  }

  lemma {:induction false} LinesKeep(w: World, rel: string, lines: seq<(string, string)>, depth: nat, s: Walk, open_: set<string>)
    requires depth <= MAX_INCLUDES && Whole(w, s, open_) && rel in open_
    ensures var t := VisitLines(w, rel, lines, depth, s);
            && Grows(s, t) && Whole(w, t, open_) && SameFor(s, t, open_ - {rel})
            && From(t.out, rel) == From(s.out, rel) + SettingsOf(w, rel, lines)
            && (forall g :: HasTarget(w, rel, lines, g) ==> g in t.seen || g in t.cut)
    decreases MAX_INCLUDES + 1 - depth, 2, |lines|
  {
    hide From, Whole;
    if lines != [] {
      var (k, v) := lines[0];
      var s1;
      match w.include_(rel, k, v) {
        case None =>
          s1 := s.(out := s.out + [Setting(rel, k, v)]);
          SettingKeeps(w, rel, k, v, s, open_);
        case Some(targets) =>
          s1 := VisitAll(w, targets, depth, s);
          AllKeep(w, targets, depth, s, open_);
      }
      LinesKeep(w, rel, lines[1..], depth, s1, open_);
      var t := VisitLines(w, rel, lines, depth, s);
      forall g | HasTarget(w, rel, lines, g) ensures g in t.seen || g in t.cut {
        TargetSplit(w, rel, lines, g);
      }
      SettingsSplit(w, rel, lines, From(s.out, rel));
    }
  }

  lemma TargetSplit(w: World, rel: string, lines: seq<(string, string)>, g: string)
    requires lines != [] && HasTarget(w, rel, lines, g)
    ensures (var t := w.include_(rel, lines[0].0, lines[0].1); t.Some? && g in t.value) || HasTarget(w, rel, lines[1..], g)
  {
    var i :| 0 <= i < |lines| && var t := w.include_(rel, lines[i].0, lines[i].1); t.Some? && g in t.value;
    if i > 0 {
      assert lines[1..][i - 1] == lines[i];
    }
  }

  lemma SettingsSplit(w: World, rel: string, lines: seq<(string, string)>, before: seq<Setting>)
    requires lines != []
    ensures var x := Setting(rel, lines[0].0, lines[0].1);
            before + SettingsOf(w, rel, lines) ==
            (if w.include_(rel, x.key, x.value).None? then before + [x] else before) + SettingsOf(w, rel, lines[1..])
  {
  }

  lemma SettingKeeps(w: World, rel: string, k: string, v: string, s: Walk, open_: set<string>)
    requires Whole(w, s, open_) && rel in open_
    ensures var x := Setting(rel, k, v);
            var t := s.(out := s.out + [x]);
            && Grows(s, t) && Whole(w, t, open_) && SameFor(s, t, open_ - {rel})
            && From(t.out, rel) == From(s.out, rel) + [x]
  {
    hide SettingsOf;
    var x := Setting(rel, k, v);
    forall f ensures From(s.out + [x], f) == From(s.out, f) + if rel == f then [x] else [] {
      FromSnoc(s.out, x, f);
    }
    forall f | f !in open_ ensures From(s.out + [x], f) == From(s.out, f) {
      assert From(s.out, f) + [] == From(s.out, f);
    }
    forall f | f in open_ - {rel} ensures From(s.out + [x], f) == From(s.out, f) {
      assert From(s.out, f) + [] == From(s.out, f);
    }
  }

  lemma {:induction false} AllKeep(w: World, targets: seq<string>, depth: nat, s: Walk, open_: set<string>)
    requires depth <= MAX_INCLUDES && Whole(w, s, open_)
    ensures var t := VisitAll(w, targets, depth, s);
            && Grows(s, t) && Whole(w, t, open_) && SameFor(s, t, open_)
            && (forall g :: g in targets ==> g in t.seen || g in t.cut)
    decreases MAX_INCLUDES + 1 - depth, 1, |targets|
  {
    hide From, Whole;
    if targets != [] {
      var s1 := Visit(w, targets[0], depth + 1, s);
      VisitKeeps(w, targets[0], depth + 1, s, open_);
      AllKeep(w, targets[1..], depth, s1, open_);
    }
  }

  // --- everything seen is reachable

  ghost predicate AllReachable(w: World, root: string, s: Walk) {
    forall f :: f in s.seen || f in s.cut ==> Reachable(w, root, f)
  }

  lemma {:induction false} VisitReaches(w: World, root: string, rel: string, depth: nat, s: Walk)
    requires depth <= MAX_INCLUDES + 1 && Reachable(w, root, rel) && AllReachable(w, root, s)
    ensures AllReachable(w, root, Visit(w, rel, depth, s))
    decreases MAX_INCLUDES + 1 - depth, 3, 0
  {
    hide Reachable;
    if depth <= MAX_INCLUDES && rel !in s.seen && rel in w.files {
      var s2 := s.(seen := s.seen + {rel}, log := s.log + [rel]);
      LinesReach(w, root, rel, w.files[rel], 0, depth, s2);
    }
  }

  lemma {:induction false} LinesReach(w: World, root: string, rel: string, all: seq<(string, string)>, i: nat, depth: nat, s: Walk)
    requires depth <= MAX_INCLUDES && Reachable(w, root, rel) && AllReachable(w, root, s)
    requires rel in w.files && all == w.files[rel] && i <= |all|
    ensures AllReachable(w, root, VisitLines(w, rel, all[i..], depth, s))
    decreases MAX_INCLUDES + 1 - depth, 2, |all| - i
  {
    hide Reachable;
    if i < |all| {
      assert all[i..][1..] == all[i + 1..];
      var (k, v) := all[i];
      match w.include_(rel, k, v) {
        case None => LinesReach(w, root, rel, all, i + 1, depth, s.(out := s.out + [Setting(rel, k, v)]));
        case Some(targets) =>
          forall g | g in targets ensures Reachable(w, root, g) {
            assert Includes(w, rel, g);
            ReachesNext(w, root, rel, g);
          }
          AllReach(w, root, targets, depth, s);
          LinesReach(w, root, rel, all, i + 1, depth, VisitAll(w, targets, depth, s));
      }
    } else {
      assert all[i..] == [];
    }
  }

  lemma {:induction false} AllReach(w: World, root: string, targets: seq<string>, depth: nat, s: Walk)
    requires depth <= MAX_INCLUDES && AllReachable(w, root, s) && forall g :: g in targets ==> Reachable(w, root, g)
    ensures AllReachable(w, root, VisitAll(w, targets, depth, s))
    decreases MAX_INCLUDES + 1 - depth, 1, |targets|
  {
    hide Reachable;
    if targets != [] {
      VisitReaches(w, root, targets[0], depth + 1, s);
      AllReach(w, root, targets[1..], depth, Visit(w, targets[0], depth + 1, s));
    }
  }

  // --- what a whole walk comes to

  /** From any file, on any graph of includes, however cyclic: each file is read
      at most once; each file read has all its settings out, once and in order,
      and no other file has any; and all seen is reachable. The walk sees all
      that is reachable if and only if everything it cut it saw another way. */
  lemma WalkSeesReachable(w: World, root: string)
    ensures var s := Visit(w, root, 0, UNREAD);
            && ReadsOk(w, s)
            && (forall f :: From(s.out, f) == Share(w, s, f))
            && (forall f :: f in s.seen ==> Reachable(w, root, f))
            && ((forall f :: Reachable(w, root, f) ==> f in s.seen) <==> s.cut <= s.seen)
  {
    hide From, SettingsOf, Visit, Reachable;
    var s := Visit(w, root, 0, UNREAD);
    NothingYet(w);
    VisitKeeps(w, root, 0, UNREAD, {});
    RootSeen(w, root);
    ReachesItself(w, root);
    VisitReaches(w, root, root, 0, UNREAD);
    if s.cut <= s.seen {
      forall f, g | f in s.seen && Includes(w, f, g) ensures g in s.seen {
        assert f in s.seen - {};
        assert Followed(w, s, f);
      }
      forall f | Reachable(w, root, f) ensures f in s.seen {
        SeenWhole(w, root, s.seen, f);
      }
    }
  }

  lemma SeenWhole(w: World, root: string, s: set<string>, f: string)
    requires root in s && Reachable(w, root, f)
    requires forall f, g :: f in s && Includes(w, f, g) ==> g in s
    ensures f in s
  {
    var p :| Chain(w, p) && p[0] == root && p[|p| - 1] == f;
    ClosedHolds(w, s, p);
  }

  lemma NothingYet(w: World)
    ensures Whole(w, UNREAD, {})
  {
  }

  lemma RootSeen(w: World, root: string)
    ensures root in Visit(w, root, 0, UNREAD).seen
  {
    NothingYet(w);
    if root in w.files {
      BeginKeeps(w, root, UNREAD, {});
      LinesKeep(w, root, w.files[root], 0, UNREAD.(seen := {root}, log := [root]), {root});
      assert UNREAD.seen + {root} == {root} && UNREAD.log + [root] == [root] && {} + {root} == {root};
    }
  }

  // --- when the bound on depth bites

  lemma {:induction false} DistinctFits(a: seq<string>, b: set<string>)
    requires forall i, j :: 0 <= i < j < |a| ==> a[i] != a[j]
    requires forall i :: 0 <= i < |a| ==> a[i] in b
    ensures |a| <= |b|
    decreases |a|
  {
    if a != [] {
      var init, last := a[..|a| - 1], a[|a| - 1];
      assert forall i :: 0 <= i < |init| ==> init[i] == a[i];
      DistinctFits(init, b - {last});
      assert |b - {last}| == |b| - 1;
    }
  }

  predicate NoRepeats(p: seq<string>) {
    forall i, j :: 0 <= i < j < |p| ==> p[i] != p[j]
  }

  /** A chain of includes from the root to a file, no other file on it twice. */
  predicate Trail(w: World, root: string, p: seq<string>, f: string) {
    Chain(w, p + [f]) && (p + [f])[0] == root && NoRepeats(p)
  }

  predicate OnTrail(p: seq<string>, s: Walk) {
    forall i :: 0 <= i < |p| ==> p[i] in s.seen
  }

  /** What was cut is at the end of a trail too long, all of it seen before. */
  ghost predicate CutOk(w: World, root: string, s: Walk) {
    forall f :: f in s.cut ==> exists p :: |p| == MAX_INCLUDES + 1 && Trail(w, root, p, f) && OnTrail(p, s)
  }

  lemma TrailGrows(w: World, root: string, p: seq<string>, f: string, g: string, s: Walk)
    requires Trail(w, root, p, f) && OnTrail(p, s) && f !in s.seen && Includes(w, f, g)
    ensures Trail(w, root, p + [f], g)
  {
    var q := p + [f];
    forall i | 0 <= i < |q + [g]| - 1 ensures Includes(w, (q + [g])[i], (q + [g])[i + 1]) {
      if i < |q| - 1 {
        assert Includes(w, q[i], q[i + 1]);
      }
    }
    assert (q + [g])[0] == q[0];
  }

  /** More seen, and nothing more cut. */
  lemma CutStill(w: World, root: string, s: Walk, t: Walk)
    requires CutOk(w, root, s) && s.seen <= t.seen && t.cut == s.cut
    ensures CutOk(w, root, t)
  {
    hide Trail;
    forall f | f in t.cut ensures exists p :: |p| == MAX_INCLUDES + 1 && Trail(w, root, p, f) && OnTrail(p, t) {
      var p :| |p| == MAX_INCLUDES + 1 && Trail(w, root, p, f) && OnTrail(p, s);
      assert OnTrail(p, t);
    }
  }

  lemma CutMore(w: World, root: string, p: seq<string>, f: string, s: Walk)
    requires CutOk(w, root, s) && |p| == MAX_INCLUDES + 1 && Trail(w, root, p, f) && OnTrail(p, s)
    ensures CutOk(w, root, s.(cut := s.cut + {f}))
  {
    hide Trail;
    var t := s.(cut := s.cut + {f});
    forall g | g in t.cut ensures exists q :: |q| == MAX_INCLUDES + 1 && Trail(w, root, q, g) && OnTrail(q, t) {
      if g == f {
        assert OnTrail(p, t);
      } else {
        var q :| |q| == MAX_INCLUDES + 1 && Trail(w, root, q, g) && OnTrail(q, s);
        assert OnTrail(q, t);
      }
    }
  }

  lemma {:induction false} VisitCuts(w: World, root: string, rel: string, p: seq<string>, s: Walk)
    requires |p| <= MAX_INCLUDES + 1 && Trail(w, root, p, rel) && OnTrail(p, s) && CutOk(w, root, s)
    ensures var t := Visit(w, rel, |p|, s); s.seen <= t.seen && CutOk(w, root, t)
    decreases MAX_INCLUDES + 1 - |p|, 3, 0
  {
    hide CutOk, Trail, Includes;
    if |p| > MAX_INCLUDES {
      CutMore(w, root, p, rel, s);
    } else if rel !in s.seen {
      var s1 := s.(seen := s.seen + {rel});
      var s2 := s1.(log := s1.log + [rel]);
      CutStill(w, root, s, s1);
      CutStill(w, root, s, s2);
      if rel in w.files {
        forall g | Includes(w, rel, g) ensures Trail(w, root, p + [rel], g) {
          TrailGrows(w, root, p, rel, g, s);
        }
        LinesCut(w, root, rel, w.files[rel], 0, p + [rel], s2);
      }
    }
  }

  lemma {:induction false} LinesCut(w: World, root: string, rel: string, all: seq<(string, string)>, i: nat, p: seq<string>, s: Walk)
    requires 1 <= |p| <= MAX_INCLUDES + 1 && OnTrail(p, s) && CutOk(w, root, s)
    requires rel in w.files && all == w.files[rel] && i <= |all|
    requires forall g :: Includes(w, rel, g) ==> Trail(w, root, p, g)
    ensures var t := VisitLines(w, rel, all[i..], |p| - 1, s); s.seen <= t.seen && CutOk(w, root, t)
    decreases MAX_INCLUDES + 2 - |p|, 2, |all| - i
  {
    hide CutOk, Trail;
    if i < |all| {
      assert all[i..][1..] == all[i + 1..];
      var (k, v) := all[i];
      match w.include_(rel, k, v) {
        case None =>
          var s1 := s.(out := s.out + [Setting(rel, k, v)]);
          CutStill(w, root, s, s1);
          LinesCut(w, root, rel, all, i + 1, p, s1);
        case Some(targets) =>
          forall g | g in targets ensures Trail(w, root, p, g) {
            assert Includes(w, rel, g);
          }
          AllCut(w, root, targets, p, s);
          LinesCut(w, root, rel, all, i + 1, p, VisitAll(w, targets, |p| - 1, s));
      }
    } else {
      assert all[i..] == [];
    }
  }

  lemma {:induction false} AllCut(w: World, root: string, targets: seq<string>, p: seq<string>, s: Walk)
    requires 1 <= |p| <= MAX_INCLUDES + 1 && OnTrail(p, s) && CutOk(w, root, s)
    requires forall g :: g in targets ==> Trail(w, root, p, g)
    ensures var t := VisitAll(w, targets, |p| - 1, s); s.seen <= t.seen && CutOk(w, root, t)
    decreases MAX_INCLUDES + 2 - |p|, 1, |targets|
  {
    hide CutOk, Trail;
    if targets != [] {
      VisitCuts(w, root, targets[0], p, s);
      AllCut(w, root, targets[1..], p, Visit(w, targets[0], |p|, s));
    }
  }

  lemma WalkCuts(w: World, root: string)
    ensures CutOk(w, root, Visit(w, root, 0, UNREAD))
  {
    assert [] + [root] == [root];
    VisitCuts(w, root, root, [], UNREAD);
  }

  lemma TrailEnds(w: World, root: string, p: seq<string>, f: string)
    requires Trail(w, root, p, f)
    ensures f in p || NoRepeats(p + [f])
  {
  }

  /** Where no chain of includes from the root goes through more different files
      than the bound allows levels and one, the walk sees all that is reachable. */
  lemma ShortChainsSeen(w: World, root: string)
    requires forall p :: Chain(w, p) && p[0] == root && NoRepeats(p) ==> |p| <= MAX_INCLUDES + 1
    ensures forall f :: Reachable(w, root, f) ==> f in Visit(w, root, 0, UNREAD).seen
  {
    hide Visit, Reachable, From, Chain;
    var s := Visit(w, root, 0, UNREAD);
    WalkCuts(w, root);
    forall f | f in s.cut ensures f in s.seen {
      var p :| |p| == MAX_INCLUDES + 1 && Trail(w, root, p, f) && OnTrail(p, s);
      TrailEnds(w, root, p, f);
    }
    WalkSeesReachable(w, root);
  }

  /** Where no more files can be read than the bound allows levels, nothing is cut. */
  lemma FewFilesUncut(w: World, root: string)
    requires |w.files| <= MAX_INCLUDES
    ensures Visit(w, root, 0, UNREAD).cut == {}
    ensures forall f :: Reachable(w, root, f) ==> f in Visit(w, root, 0, UNREAD).seen
  {
    hide Visit, Reachable, From;
    var s := Visit(w, root, 0, UNREAD);
    WalkCuts(w, root);
    forall f | f in s.cut ensures false {
      var p :| |p| == MAX_INCLUDES + 1 && Trail(w, root, p, f) && OnTrail(p, s);
      TrailRead(w, root, p, f);
      DistinctFits(p, w.files.Keys);
    }
    WalkSeesReachable(w, root);
  }

  lemma TrailRead(w: World, root: string, p: seq<string>, f: string)
    requires Trail(w, root, p, f)
    ensures forall i :: 0 <= i < |p| ==> p[i] in w.files.Keys
  {
    forall i | 0 <= i < |p| ensures p[i] in w.files.Keys {
      assert Includes(w, (p + [f])[i], (p + [f])[i + 1]);
    }
  }

  /** Twelve files in a row, each including the next. */
  predicate InARow(w: World, names: seq<string>) {
    && |names| == MAX_INCLUDES + 2
    && (forall i, j :: 0 <= i < j < |names| ==> names[i] != names[j])
    && (forall i :: 0 <= i < |names| - 1 ==>
          && names[i] in w.files && |w.files[names[i]]| == 1
          && w.include_(names[i], w.files[names[i]][0].0, w.files[names[i]][0].1) == Some([names[i + 1]]))
  }

  lemma {:induction false} RowCut(w: World, names: seq<string>, d: nat, s: Walk)
    requires InARow(w, names) && d <= MAX_INCLUDES + 1 && forall i :: d <= i < |names| ==> names[i] !in s.seen
    ensures names[MAX_INCLUDES + 1] !in Visit(w, names[d], d, s).seen
    decreases MAX_INCLUDES + 1 - d
  {
    if d <= MAX_INCLUDES {
      var lines := w.files[names[d]];
      var s2 := s.(seen := s.seen + {names[d]}, log := s.log + [names[d]]);
      RowCut(w, names, d + 1, s2);
      var t := Visit(w, names[d + 1], d + 1, s2);
      assert [names[d + 1]][1..] == [] && lines[1..] == [];
      assert VisitAll(w, [], d, t) == t;
      assert VisitAll(w, [names[d + 1]], d, s2) == t;
      assert VisitLines(w, names[d], [], d, t) == t;
      assert VisitLines(w, names[d], lines, d, s2) == t;
    }
  }

  /** The last of twelve files in a row is reachable and never seen. */
  lemma TwelfthUnread(w: World, names: seq<string>)
    requires InARow(w, names)
    ensures Reachable(w, names[0], names[MAX_INCLUDES + 1])
    ensures names[MAX_INCLUDES + 1] !in Visit(w, names[0], 0, UNREAD).seen
  {
    RowCut(w, names, 0, UNREAD);
    forall i | 0 <= i < |names| - 1 ensures Includes(w, names[i], names[i + 1]) {
      assert HasTarget(w, names[i], w.files[names[i]], names[i + 1]);
    }
    assert Chain(w, names);
  }
}
