/** Pathnames (section 4.13 of POSIX.1-2017, XBD): their components, and the
    component-wise normal form shown to an operator. */
module Paths {
  import opened Results

  /** A step of a path: `..`, or a name. */
  datatype Comp = Up | Into(name: string)

  type Place = seq<string>

  /** A name a directory can hold an entry under. */
  predicate Proper(name: string) {
    name != "" && name != "." && name != ".." && '/' !in name
  }

  predicate AllProper(names: seq<string>) {
    forall i :: 0 <= i < |names| ==> Proper(names[i])
  }

  predicate ProperComps(comps: seq<Comp>) {
    forall i :: 0 <= i < |comps| && comps[i].Into? ==> Proper(comps[i].name)
  }

  /** The length of the text before the first `/`. */
  function PieceLength(text: string): (n: nat)
    ensures n <= |text| && '/' !in text[..n] && (n < |text| ==> text[n] == '/')
  {
    if text == "" || text[0] == '/' then 0
    else
      var n := PieceLength(text[1..]);
      assert text[..n + 1] == [text[0]] + text[1..][..n];
      n + 1
  }

  function CompsOf(piece: string): seq<Comp> {
    if piece == "" || piece == "." then [] else if piece == ".." then [Up] else [Into(piece)]
  }

  /** The steps a path spells: down by a name or up by `..`; empty pieces and `.`
      are none. */
  function Components(text: string): (comps: seq<Comp>)
    ensures ProperComps(comps)
    decreases |text|
  {
    var n := PieceLength(text);
    if n < |text| then CompsOf(text[..n]) + Components(text[n + 1..]) else CompsOf(text[..n])
  }

  predicate Absolute(text: string) {
    text != "" && text[0] == '/'
  }

  function Names(place: Place): (comps: seq<Comp>)
    ensures |comps| == |place| && forall i :: 0 <= i < |comps| ==> comps[i] == Into(place[i])
  {
    if place == [] then [] else [Into(place[0])] + Names(place[1..])
  }

  function Parent(place: Place): Place {
    if place == [] then [] else place[..|place| - 1]
  }

  /** A path with its `..`s taken away one name each, as the text alone says. */
  function NormalFrom(place: Place, comps: seq<Comp>): Place
    decreases |comps|
  {
    if comps == [] then place
    else match comps[0]
      case Up => NormalFrom(Parent(place), comps[1..])
      case Into(n) => NormalFrom(place + [n], comps[1..])
  }

  function Normal(comps: seq<Comp>): Place {
    NormalFrom([], comps)
  }

  method Normalize(comps: seq<Comp>) returns (out: Place)
    ensures out == Normal(comps)
  {
    out := [];
    var i := 0;
    while i < |comps|
      invariant i <= |comps| && NormalFrom(out, comps[i..]) == Normal(comps)
    {
      assert comps[i..][1..] == comps[i + 1..];
      match comps[i] {
        case Up => out := Parent(out);
        case Into(n) => out := out + [n];
      }
      i := i + 1;
    }
  }

  /** A normal form has no `..` to take away: it is its own. */
  lemma {:induction false} NormalOfNames(place: Place, names: Place)
    ensures NormalFrom(place, Names(names)) == place + names
    decreases |names|
  {
    if names == [] {
      assert place + names == place;
    } else {
      NormalOfNames(place + [names[0]], names[1..]);
      assert Names(names)[1..] == Names(names[1..]);
      assert place + [names[0]] + names[1..] == place + names;
    }
  }

  lemma NormalIsNormal(comps: seq<Comp>)
    ensures Normal(Names(Normal(comps))) == Normal(comps)
  {
    NormalOfNames([], Normal(comps));
  }
}
