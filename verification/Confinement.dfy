/** The home rule: of what is in somebody's home, the place judged is the place
    opened, with no link followed, or nothing is. */
module Confinement {
  import opened Results
  import opened Paths
  import opened Resolution

  datatype Standing =
    | NoHome
    | Inside(path: Place)
    | Escapes(target: Place)
    | Unresolvable(why: Refused)

  /** The home the path lies under, the longest where there are many. */
  function HomeOf(homes: seq<seq<Comp>>, here: seq<Comp>): Option<seq<Comp>> {
    if homes == [] then None
    else
      var rest := HomeOf(homes[1..], here);
      if homes[0] <= here && (rest.None? || |homes[0]| > |rest.value|) then Some(homes[0]) else rest
  }

  lemma {:induction false} HomeIsLongest(homes: seq<seq<Comp>>, here: seq<Comp>)
    ensures var home := HomeOf(homes, here);
            && (home.None? <==> forall h :: h in homes ==> !(h <= here))
            && (home.Some? ==> home.value in homes && home.value <= here
                               && forall h :: h in homes && h <= here ==> h <= home.value)
  {
    if homes != [] {
      HomeIsLongest(homes[1..], here);
      var home, rest := HomeOf(homes, here), HomeOf(homes[1..], here);
      assert homes == [homes[0]] + homes[1..];
      forall h | h in homes && h <= here ensures home.Some? && h <= home.value {
        if h != homes[0] {
          var i :| 0 <= i < |homes| && homes[i] == h;
          assert homes[1..][i - 1] == h;
          assert h in homes[1..] && rest.Some? && h <= rest.value;
        }
        assert home.Some? && |h| <= |home.value|;
        assert h == here[..|h|] && home.value == here[..|home.value|];
      }
      assert homes[0] in homes;
      assert forall h :: h in homes[1..] ==> h in homes;
      if home.None? {
        forall h | h in homes ensures !(h <= here) {
          assert h <= here ==> home.Some?;
        }
      } else {
        assert home.value in homes;
        assert home.value <= here;
      }
    }
  }

  /** Whether the text of a path that leaves its home stays under it, and every
      link that leads out, of which there is one, is root's. */
  predicate RootLed(r: Resolved, home: seq<Comp>, here: seq<Comp>) {
    r.links > 0 && !r.planted && Normal(home) <= Normal(here)
  }

  function Judge(t: Tree, homes: seq<seq<Comp>>, here: seq<Comp>): Standing {
    match HomeOf(homes, here)
    case None => NoHome
    case Some(home) =>
      match Resolve(t, home)
      case Fails(why) => Unresolvable(why)
      case At(base) =>
        match Resolve(t, here)
        case Fails(why) => Unresolvable(why)
        case At(r) =>
          if base.path <= r.path || RootLed(r, home, here) then Inside(r.path) else Escapes(r.path)
  }

  /** As the program judges: the longest home by a loop, then the two resolutions. */
  method ConfinementOf(t: Tree, homes: seq<seq<Comp>>, here: seq<Comp>) returns (s: Standing)
    ensures s == Judge(t, homes, here)
  {
    var home: Option<seq<Comp>> := None;
    var i := |homes|;
    while i > 0
      invariant 0 <= i <= |homes| && home == HomeOf(homes[i..], here)
    {
      i := i - 1;
      assert homes[i..][1..] == homes[i + 1..];
      if homes[i] <= here && (home.None? || |homes[i]| > |home.value|) {
        home := Some(homes[i]);
      }
    }
    assert homes[0..] == homes;
    if home.None? {
      return NoHome;
    }
    var base := ResolveNotingLinks(t, home.value);
    if base.Fails? {
      return Unresolvable(base.why);
    }
    var r := ResolveNotingLinks(t, here);
    if r.Fails? {
      return Unresolvable(r.why);
    }
    if base.value.path <= r.value.path {
      return Inside(r.value.path);
    }
    var climbs := Normalize(here);
    var declared := Normalize(home.value);
    if r.value.links > 0 && !r.value.planted && declared <= climbs {
      return Inside(r.value.path);
    }
    return Escapes(r.value.path);
  }

  // --- opening a resolved place

  datatype Open = Opened(path: Place) | Refuses(why: Refused) | LeavesHome(target: Place)

  /** Every component but the last a directory, the last there and no link:
      what descending one name at a time and refusing links comes to. */
  predicate Reached(t: Tree, p: Place) {
    && p in t && !t[p].Link?
    && forall i :: 0 <= i < |p| ==> p[..i] in t && t[p[..i]].Directory?
  }

  /** Opens a place component by component, following no link. */
  method OpenResolved(t: Tree, path: Place) returns (r: Open)
    requires WellFormed(t)
    ensures Reached(t, path) ==> r == Opened(path)
    ensures !Reached(t, path) ==> r.Refuses?
  {
    hide Reached, WellFormed;
    RootReached(t);
    var dir: Place := [];
    if path == [] {
      return Opened([]);
    }
    var i := 0;
    while i < |path| - 1
      invariant i <= |path| - 1 && dir == path[..i] && DirectoriesTo(t, path, i)
    {
      var next := dir + [path[i]];
      assert next == path[..i + 1];
      if next !in t || !t[next].Directory? {
        NotReached(t, path, i + 1);
      }
      if next !in t {
        return Refuses(NoEntry);
      }
      if t[next].Link? {
        return Refuses(TooManyLinks);
      }
      if !t[next].Directory? {
        return Refuses(NotDirectory);
      }
      dir := next;
      i := i + 1;
    }
    var last := dir + [path[i]];
    assert last == path;
    AllReached(t, path);
    if last !in t {
      return Refuses(NoEntry);
    }
    if t[last].Link? {
      return Refuses(TooManyLinks);
    }
    return Opened(path);
  }

  predicate DirectoriesTo(t: Tree, path: Place, n: nat)
    requires n <= |path|
  {
    forall i :: 0 <= i <= n ==> path[..i] in t && t[path[..i]].Directory?
  }

  lemma RootReached(t: Tree)
    requires WellFormed(t)
    ensures Reached(t, [])
    ensures forall path: Place :: DirectoriesTo(t, path, 0)
  {
    forall path: Place ensures DirectoriesTo(t, path, 0) {
      assert path[..0] == [];
    }
  }

  lemma NotReached(t: Tree, path: Place, n: nat)
    requires n < |path| && !(path[..n] in t && t[path[..n]].Directory?)
    ensures !Reached(t, path)
  {
  }

  lemma AllReached(t: Tree, path: Place)
    requires path != [] && DirectoriesTo(t, path, |path| - 1)
    ensures Reached(t, path) <==> path in t && !t[path].Link?
  {
  }

  /** Opens `here` as it was judged on one tree, on the tree as it is later. */
  method OpenUnder(judged: Tree, later: Tree, homes: seq<seq<Comp>>, here: seq<Comp>) returns (r: Open)
    requires WellFormed(later)
    ensures match Judge(judged, homes, here)
            case Unresolvable(why) => r == Refuses(why)
            case Escapes(target) => r == LeavesHome(target)
            case Inside(path) => if Reached(later, path) then r == Opened(path) else r.Refuses?
            case NoHome => r == OpenedRaw(later, here)
  {
    var standing := ConfinementOf(judged, homes, here);
    match standing {
      case Unresolvable(why) => return Refuses(why);
      case Escapes(target) => return LeavesHome(target);
      case Inside(path) => r := OpenResolved(later, path);
      case NoHome => r := OpenRaw(later, here);
    }
  }

  /** A path under no home, opened where it leads. */
  method OpenRaw(t: Tree, here: seq<Comp>) returns (r: Open)
    requires WellFormed(t)
    ensures r == OpenedRaw(t, here)
  {
    var place := ResolveNotingLinks(t, here);
    if place.Fails? {
      return Refuses(place.why);
    }
    ResolvedReached(t, here);
    r := OpenResolved(t, place.value.path);
  }

  function OpenedRaw(t: Tree, here: seq<Comp>): Open {
    match Resolve(t, here)
    case Fails(why) => Refuses(why)
    case At(r) => Opened(r.path)
  }

  /** In a tree that holds together, what resolves can be opened with no link. */
  lemma PlainReached(t: Tree, p: Place)
    requires WellFormed(t) && Plain(t, p)
    ensures Reached(t, p)
  {
    forall i | 0 <= i < |p| ensures p[..i] in t && t[p[..i]].Directory? {
      assert p[..i + 1] in t;
      assert Parent(p[..i + 1]) == p[..i];
    }
    assert p[..|p|] == p;
  }

  lemma {:induction false} PlainAlways(t: Tree, done: Place, todo: seq<Comp>, links: nat, planted: bool)
    requires Plain(t, done)
    ensures var r := ResolveFrom(t, done, todo, links, planted); r.At? ==> Plain(t, r.value.path)
    decreases MAX_LINKS - links, |todo|
  {
    hide Plain;
    if todo != [] {
      match todo[0] {
        case Up =>
          PlainParent(t, done);
          PlainAlways(t, Parent(done), todo[1..], links, planted);
        case Into(n) =>
          var here := done + [n];
          if |here| <= MAX_RESOLVED_DEPTH && here in t {
            if t[here].Link? && links + 1 <= MAX_LINKS {
              PlainRoot(t);
              var target, uid := t[here].target, t[here].uid;
              PlainAlways(t, if Absolute(target) then [] else done, Components(target) + todo[1..], links + 1, planted || uid != 0);
            } else if !t[here].Link? {
              PlainStep(t, done, n);
              PlainAlways(t, here, todo[1..], links, planted);
            }
          }
      }
    }
  }

  lemma ResolvedReached(t: Tree, comps: seq<Comp>)
    requires WellFormed(t)
    ensures Resolve(t, comps).At? ==> Reached(t, Resolve(t, comps).value.path)
  {
    PlainRoot(t);
    PlainAlways(t, [], comps, 0, false);
    if Resolve(t, comps).At? {
      PlainReached(t, Resolve(t, comps).value.path);
    }
  }

  // --- what the rule comes to

  /** The file an open of `here` gets, if it gets one. */
  function Got(judged: Tree, later: Tree, homes: seq<seq<Comp>>, here: seq<Comp>): Option<Place> {
    match Judge(judged, homes, here)
    case Inside(path) => if Reached(later, path) then Some(path) else None
    case NoHome => if Resolve(later, here).At? then Some(Resolve(later, here).value.path) else None
    case _ => None
  }

  /** Whatever became of the tree after the judgement: an open that succeeds gets
      the very place judged, which names itself with no link on either tree; and
      that place is inside the home as it resolves, or the links that led out of
      it, one at least, are root's alone and the text never climbs out. */
  lemma HomeRule(judged: Tree, later: Tree, homes: seq<seq<Comp>>, here: seq<Comp>)
    requires ProperComps(here)
    ensures var home := HomeOf(homes, here);
            var got := Got(judged, later, homes, here);
            home.Some? && got.Some? ==>
              && Resolve(judged, home.value).At? && Resolve(judged, here).At?
              && got.value == Resolve(judged, here).value.path
              && Resolve(judged, Names(got.value)) == At(Resolved(got.value, 0, false))
              && Resolve(later, Names(got.value)) == At(Resolved(got.value, 0, false))
              && (Resolve(judged, home.value).value.path <= got.value
                  || RootLed(Resolve(judged, here).value, home.value, here))
  {
    var got := Got(judged, later, homes, here);
    if HomeOf(homes, here).Some? && got.Some? {
      ResolvedStands(judged, here);
      PlainRoot(judged);
      ResolvedIsPlain(judged, [], here, 0, false);
      ReachedPlain(later, got.value);
      assert [] + got.value == got.value;
      PlainResolves(later, [], got.value, 0, false);
    }
  }

  lemma ReachedPlain(t: Tree, p: Place)
    requires Reached(t, p)
    ensures Plain(t, p)
  {
    assert p[..|p|] == p;
  }

  /** On a tree left alone nothing is refused that does not leave its home or
      fail to resolve. */
  lemma NothingElseRefused(t: Tree, homes: seq<seq<Comp>>, here: seq<Comp>)
    requires WellFormed(t)
    ensures Got(t, t, homes, here).None? <==>
              Judge(t, homes, here).Escapes? || Judge(t, homes, here).Unresolvable? || Resolve(t, here).Fails?
  {
    ResolvedReached(t, here);
  }

  // --- which links count as planted

  /** The uids of the links a resolution follows, in order. */
  function Followed(t: Tree, done: Place, todo: seq<Comp>, links: nat): seq<nat>
    decreases MAX_LINKS - links, |todo|
  {
    if todo == [] then []
    else match todo[0]
      case Up => Followed(t, Parent(done), todo[1..], links)
      case Into(n) =>
        var here := done + [n];
        if |here| > MAX_RESOLVED_DEPTH || here !in t then []
        else match t[here]
          case Link(target, uid) =>
            if links + 1 > MAX_LINKS then []
            else [uid] + Followed(t, if Absolute(target) then [] else done, Components(target) + todo[1..], links + 1)
          case _ => Followed(t, here, todo[1..], links)
  }

  /** One link by anyone but root spoils the whole path. */
  lemma {:induction false} OneLinkSpoils(t: Tree, done: Place, todo: seq<Comp>, links: nat, planted: bool)
    ensures var r := ResolveFrom(t, done, todo, links, planted);
            var uids := Followed(t, done, todo, links);
            r.At? ==>
              && r.value.links == links + |uids|
              && (r.value.planted <==> planted || exists i :: 0 <= i < |uids| && uids[i] != 0)
    decreases MAX_LINKS - links, |todo|
  {
    if todo != [] {
      match todo[0] {
        case Up => OneLinkSpoils(t, Parent(done), todo[1..], links, planted);
        case Into(n) =>
          var here := done + [n];
          if |here| <= MAX_RESOLVED_DEPTH && here in t {
            if t[here].Link? && links + 1 <= MAX_LINKS {
              var target, uid := t[here].target, t[here].uid;
              var base := if Absolute(target) then [] else done;
              OneLinkSpoils(t, base, Components(target) + todo[1..], links + 1, planted || uid != 0);
              SpoiltFirst(uid, Followed(t, base, Components(target) + todo[1..], links + 1));
            } else if !t[here].Link? {
              OneLinkSpoils(t, here, todo[1..], links, planted);
            }
          }
      }
    }
  }

  lemma SpoiltFirst(uid: nat, uids: seq<nat>)
    ensures (exists i :: 0 <= i < |[uid] + uids| && ([uid] + uids)[i] != 0) <==>
            uid != 0 || exists i :: 0 <= i < |uids| && uids[i] != 0
  {
    var all := [uid] + uids;
    assert all[0] == uid;
    assert forall i :: 0 <= i < |uids| ==> uids[i] == all[i + 1];
  }
}
