/** In-root path resolution by hand: a loop over a worklist that follows links,
    against the recursive walk it stands for (section 4.13 of POSIX.1-2017, XBD,
    with absolute targets restarting at the root and `..` stopping there). */
module Resolution {
  import opened Results
  import opened Paths

  const MAX_LINKS: nat := 40
  const MAX_RESOLVED_DEPTH: nat := 256

  datatype Inode = Directory | File | Link(target: string, uid: nat)

  type Tree = map<Place, Inode>

  datatype Refused = NoEntry | NotDirectory | TooManyLinks | NameTooLong

  datatype Walked<+T> = At(value: T) | Fails(why: Refused) {
    predicate IsFailure() { Fails? }
    function PropagateFailure<U>(): Walked<U> requires Fails? { Fails(why) }
    function Extract(): T requires At? { value }
  }

  /** The root is a directory, and everything else is in one. */
  predicate WellFormed(t: Tree) {
    && [] in t && t[[]].Directory?
    && (forall p :: p in t && p != [] ==> Parent(p) in t && t[Parent(p)].Directory? && Proper(p[|p| - 1]))
  }

  /** An answer: a place, the number of links on the way to it, and whether one
      of those was not root's. */
  datatype Resolved = Resolved(path: Place, links: nat, planted: bool)

  // --- the loop

  function ResolveFrom(t: Tree, done: Place, todo: seq<Comp>, links: nat, planted: bool): Walked<Resolved>
    decreases MAX_LINKS - links, |todo|
  {
    if todo == [] then At(Resolved(done, links, planted))
    else match todo[0]
      case Up => ResolveFrom(t, Parent(done), todo[1..], links, planted)
      case Into(n) =>
        var here := done + [n];
        if |here| > MAX_RESOLVED_DEPTH then Fails(NameTooLong)
        else if here !in t then Fails(NoEntry)
        else match t[here]
          case Link(target, uid) =>
            if links + 1 > MAX_LINKS then Fails(TooManyLinks)
            else ResolveFrom(t, if Absolute(target) then [] else done, Components(target) + todo[1..], links + 1, planted || uid != 0)
          case _ => ResolveFrom(t, here, todo[1..], links, planted)
  }

  function Resolve(t: Tree, comps: seq<Comp>): Walked<Resolved> {
    ResolveFrom(t, [], comps, 0, false)
  }

  /** The worklist loop. */
  method ResolveNotingLinks(t: Tree, comps: seq<Comp>) returns (r: Walked<Resolved>)
    ensures r == Resolve(t, comps)
  {
    var done: Place := [];
    var links, planted := 0, false;
    var todo := comps;
    var hops := 0;
    while todo != []
      invariant hops == links <= MAX_LINKS
      invariant ResolveFrom(t, done, todo, links, planted) == Resolve(t, comps)
      decreases MAX_LINKS - links, |todo|
    {
      var c := todo[0];
      todo := todo[1..];
      if c == Up {
        done := Parent(done);
        continue;
      }
      done := done + [c.name];
      if |done| > MAX_RESOLVED_DEPTH {
        return Fails(NameTooLong);
      }
      if done !in t {
        return Fails(NoEntry);
      }
      if !t[done].Link? {
        continue;
      }
      var target, uid := t[done].target, t[done].uid;
      if hops + 1 > MAX_LINKS {
        return Fails(TooManyLinks);
      }
      links, planted, hops := links + 1, planted || uid != 0, hops + 1;
      done := Parent(done);
      if Absolute(target) {
        done := [];
      }
      todo := Components(target) + todo;
    }
    return At(Resolved(done, links, planted));
  }

  // --- the recursive walk

  /** Walks `comps` from `at`, a link's target first and then what follows the
      link; `lenient` lets a `..` leave a file. */
  function Walk(t: Tree, at: Place, comps: seq<Comp>, links: nat, planted: bool, lenient: bool): (r: Walked<Resolved>)
    ensures r.At? ==> r.value.links >= links && (links <= MAX_LINKS ==> r.value.links <= MAX_LINKS)
    decreases MAX_LINKS - links, |comps|
  {
    if comps == [] then At(Resolved(at, links, planted))
    else match comps[0]
      case Up =>
        if !lenient && !(at in t && t[at].Directory?) then Fails(NotDirectory)
        else Walk(t, Parent(at), comps[1..], links, planted, lenient)
      case Into(n) =>
        var here := at + [n];
        if |here| > MAX_RESOLVED_DEPTH then Fails(NameTooLong)
        else if here !in t then Fails(NoEntry)
        else match t[here]
          case Link(target, uid) =>
            if links + 1 > MAX_LINKS then Fails(TooManyLinks)
            else
              var there :- Walk(t, if Absolute(target) then [] else at, Components(target), links + 1, planted || uid != 0, lenient);
              Walk(t, there.path, comps[1..], there.links, there.planted, lenient)
          case _ => Walk(t, here, comps[1..], links, planted, lenient)
  }

  lemma {:induction false} WalkConcat(t: Tree, at: Place, a: seq<Comp>, b: seq<Comp>, links: nat, planted: bool, lenient: bool)
    ensures Walk(t, at, a + b, links, planted, lenient) ==
            (var there :- Walk(t, at, a, links, planted, lenient);
             Walk(t, there.path, b, there.links, there.planted, lenient))
    decreases MAX_LINKS - links, |a|
  {
    if a == [] {
      assert a + b == b;
    } else {
      assert (a + b)[1..] == a[1..] + b;
      match a[0] {
        case Up => WalkConcat(t, Parent(at), a[1..], b, links, planted, lenient);
        case Into(n) =>
          var here := at + [n];
          if |here| <= MAX_RESOLVED_DEPTH && here in t {
            if t[here].Link? && links + 1 <= MAX_LINKS {
              var target, uid := t[here].target, t[here].uid;
              var there := Walk(t, if Absolute(target) then [] else at, Components(target), links + 1, planted || uid != 0, lenient);
              if there.At? {
                WalkConcat(t, there.value.path, a[1..], b, there.value.links, there.value.planted, lenient);
              }
            } else if !t[here].Link? {
              WalkConcat(t, here, a[1..], b, links, planted, lenient);
            }
          }
      }
    }
  }

  /** The loop is the lenient walk, on every tree, path and error. */
  lemma {:induction false} ResolveIsWalk(t: Tree, done: Place, todo: seq<Comp>, links: nat, planted: bool)
    ensures ResolveFrom(t, done, todo, links, planted) == Walk(t, done, todo, links, planted, true)
    decreases MAX_LINKS - links, |todo|
  {
    if todo != [] {
      match todo[0] {
        case Up => ResolveIsWalk(t, Parent(done), todo[1..], links, planted);
        case Into(n) =>
          var here := done + [n];
          if |here| <= MAX_RESOLVED_DEPTH && here in t {
            if t[here].Link? && links + 1 <= MAX_LINKS {
              var target, uid := t[here].target, t[here].uid;
              var base := if Absolute(target) then [] else done;
              ResolveIsWalk(t, base, Components(target) + todo[1..], links + 1, planted || uid != 0);
              WalkConcat(t, base, Components(target), todo[1..], links + 1, planted || uid != 0, true);
            } else if !t[here].Link? {
              ResolveIsWalk(t, here, todo[1..], links, planted);
            }
          }
      }
    }
  }

  // --- where the loop and a kernel's walk part

  /** Whether the resolution comes to a `..` standing on a file. */
  predicate LeavesFile(t: Tree, done: Place, todo: seq<Comp>, links: nat)
    decreases MAX_LINKS - links, |todo|
  {
    todo != [] &&
    match todo[0]
    case Up => !(done in t && t[done].Directory?) || LeavesFile(t, Parent(done), todo[1..], links)
    case Into(n) =>
      var here := done + [n];
      && |here| <= MAX_RESOLVED_DEPTH && here in t
      && match t[here]
         case Link(target, _) =>
           links + 1 <= MAX_LINKS && LeavesFile(t, if Absolute(target) then [] else done, Components(target) + todo[1..], links + 1)
         case _ => LeavesFile(t, here, todo[1..], links)
  }

  /** Wherever a kernel's walk in the root gets to, the loop gets to as well,
      having followed the same links; and the walk fails where the loop does
      not just when a `..` comes to stand on a file. */
  lemma {:induction false} StrictWalk(t: Tree, done: Place, todo: seq<Comp>, links: nat, planted: bool)
    ensures Walk(t, done, todo, links, planted, false).At? ==>
              ResolveFrom(t, done, todo, links, planted) == Walk(t, done, todo, links, planted, false)
    ensures ResolveFrom(t, done, todo, links, planted).At? ==>
              (Walk(t, done, todo, links, planted, false).At? <==> !LeavesFile(t, done, todo, links))
    decreases MAX_LINKS - links, |todo|
  {
    if todo != [] {
      match todo[0] {
        case Up => StrictWalk(t, Parent(done), todo[1..], links, planted);
        case Into(n) =>
          var here := done + [n];
          if |here| <= MAX_RESOLVED_DEPTH && here in t {
            if t[here].Link? && links + 1 <= MAX_LINKS {
              var target, uid := t[here].target, t[here].uid;
              var base := if Absolute(target) then [] else done;
              StrictWalk(t, base, Components(target) + todo[1..], links + 1, planted || uid != 0);
              WalkConcat(t, base, Components(target), todo[1..], links + 1, planted || uid != 0, false);
            } else if !t[here].Link? {
              StrictWalk(t, here, todo[1..], links, planted);
            }
          }
      }
    }
  }

  const FILE_TREE: Tree := map[[] := Directory, ["file"] := File]

  lemma FileTreeHolds()
    ensures WellFormed(FILE_TREE)
  {
    assert Parent(["file"]) == [];
    forall p | p in FILE_TREE && p != [] ensures Parent(p) in FILE_TREE && FILE_TREE[Parent(p)].Directory? && Proper(p[|p| - 1]) {
      assert p == ["file"];
    }
  }

  lemma FileResolves()
    ensures Resolve(FILE_TREE, [Into("file"), Up]) == At(Resolved([], 0, false))
  {
    hide WellFormed;
    assert [] + ["file"] == ["file"] && Parent(["file"]) == [];
    assert [Into("file"), Up][1..] == [Up] && [Up][1..] == [];
    assert ResolveFrom(FILE_TREE, [], [], 0, false) == At(Resolved([], 0, false));
    assert ResolveFrom(FILE_TREE, ["file"], [Up], 0, false) == At(Resolved([], 0, false));
  }

  lemma FileStopsWalk()
    ensures Walk(FILE_TREE, [], [Into("file"), Up], 0, false, false) == Fails(NotDirectory)
  {
    hide WellFormed;
    assert [] + ["file"] == ["file"];
    assert [Into("file"), Up][1..] == [Up];
    assert Walk(FILE_TREE, ["file"], [Up], 0, false, false) == Fails(NotDirectory);
  }

  /** The loop lets `file/..` through, where the walk fails. */
  lemma FileDotDot()
    ensures WellFormed(FILE_TREE)
    ensures Resolve(FILE_TREE, [Into("file"), Up]) == At(Resolved([], 0, false))
    ensures Walk(FILE_TREE, [], [Into("file"), Up], 0, false, false) == Fails(NotDirectory)
  {
    hide WellFormed, Resolve, Walk;
    FileTreeHolds();
    FileResolves();
    FileStopsWalk();
  }

  // --- what a resolved place is

  /** Every prefix but the root itself is there, and is no link. */
  predicate Plain(t: Tree, p: Place) {
    forall i :: 0 < i <= |p| ==> p[..i] in t && !t[p[..i]].Link?
  }

  lemma PlainStep(t: Tree, p: Place, n: string)
    requires Plain(t, p) && p + [n] in t && !t[p + [n]].Link?
    ensures Plain(t, p + [n])
  {
    forall i | 0 < i <= |p| + 1 ensures (p + [n])[..i] in t && !t[(p + [n])[..i]].Link? {
      if i <= |p| {
        assert (p + [n])[..i] == p[..i];
      } else {
        assert (p + [n])[..i] == p + [n];
      }
    }
  }

  lemma PlainParent(t: Tree, p: Place)
    requires Plain(t, p)
    ensures Plain(t, Parent(p))
  {
    forall i | 0 < i <= |Parent(p)| ensures Parent(p)[..i] in t && !t[Parent(p)[..i]].Link? {
      assert Parent(p)[..i] == p[..i];
    }
  }

  /** The result's prefixes exist and are not links, its names are proper, and
      it is no deeper than the bound. */
  lemma {:induction false} ResolvedIsPlain(t: Tree, done: Place, todo: seq<Comp>, links: nat, planted: bool)
    requires Plain(t, done) && AllProper(done) && ProperComps(todo) && |done| <= MAX_RESOLVED_DEPTH
    ensures var r := ResolveFrom(t, done, todo, links, planted);
            r.At? ==> Plain(t, r.value.path) && AllProper(r.value.path) && |r.value.path| <= MAX_RESOLVED_DEPTH
    decreases MAX_LINKS - links, |todo|
  {
    hide Plain, Proper;
    if todo != [] {
      match todo[0] {
        case Up =>
          PlainParent(t, done);
          ResolvedIsPlain(t, Parent(done), todo[1..], links, planted);
        case Into(n) =>
          var here := done + [n];
          if |here| <= MAX_RESOLVED_DEPTH && here in t {
            if t[here].Link? && links + 1 <= MAX_LINKS {
              PlainRoot(t);
              var target, uid := t[here].target, t[here].uid;
              ResolvedIsPlain(t, if Absolute(target) then [] else done, Components(target) + todo[1..], links + 1, planted || uid != 0);
            } else if !t[here].Link? {
              PlainStep(t, done, n);
              ResolvedIsPlain(t, here, todo[1..], links, planted);
            }
          }
      }
    }
  }

  lemma PlainRoot(t: Tree)
    ensures Plain(t, [])
  {
  }

  /** Through no link, names lead where they say. */
  lemma {:induction false} PlainResolves(t: Tree, done: Place, names: Place, links: nat, planted: bool)
    requires Plain(t, done + names) && |done + names| <= MAX_RESOLVED_DEPTH
    ensures ResolveFrom(t, done, Names(names), links, planted) == At(Resolved(done + names, links, planted))
    decreases |names|
  {
    if names == [] {
      assert done + names == done;
    } else {
      var here := done + [names[0]];
      assert done + names == here + names[1..];
      assert (done + names)[..|done| + 1] == here;
      assert Names(names)[1..] == Names(names[1..]);
      PlainResolves(t, here, names[1..], links, planted);
    }
  }

  /** What a resolution answers, on any tree and any path: every prefix exists
      and is not a link, no `..` is left, and it resolves to itself with no
      link followed. */
  lemma ResolvedStands(t: Tree, comps: seq<Comp>)
    requires ProperComps(comps)
    ensures var r := Resolve(t, comps);
            r.At? ==>
              && Plain(t, r.value.path) && AllProper(r.value.path)
              && Resolve(t, Names(r.value.path)) == At(Resolved(r.value.path, 0, false))
  {
    PlainRoot(t);
    ResolvedIsPlain(t, [], comps, 0, false);
    var r := Resolve(t, comps);
    if r.At? {
      assert [] + r.value.path == r.value.path;
      PlainResolves(t, [], r.value.path, 0, false);
    }
  }

  /** Where no link is followed the text alone says where a path leads; so it
      does on a tree with no links, wherever it leads anywhere. */
  lemma {:induction false} NoLinksIsNormal(t: Tree, done: Place, todo: seq<Comp>, links: nat, planted: bool)
    ensures var r := ResolveFrom(t, done, todo, links, planted);
            r.At? ==> r.value.links >= links && (r.value.links == links ==> r.value.path == NormalFrom(done, todo))
    ensures (forall p :: p in t ==> !t[p].Link?) ==>
              var r := ResolveFrom(t, done, todo, links, planted);
              r.At? ==> r.value == Resolved(NormalFrom(done, todo), links, planted)
    decreases MAX_LINKS - links, |todo|
  {
    if todo != [] {
      match todo[0] {
        case Up => NoLinksIsNormal(t, Parent(done), todo[1..], links, planted);
        case Into(n) =>
          var here := done + [n];
          if |here| <= MAX_RESOLVED_DEPTH && here in t {
            if t[here].Link? && links + 1 <= MAX_LINKS {
              var target, uid := t[here].target, t[here].uid;
              NoLinksIsNormal(t, if Absolute(target) then [] else done, Components(target) + todo[1..], links + 1, planted || uid != 0);
            } else if !t[here].Link? {
              NoLinksIsNormal(t, here, todo[1..], links, planted);
            }
          }
      }
    }
  }
}
