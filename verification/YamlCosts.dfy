/** How many nodes a text can hold: one more than its characters at the most,
    and one for each `?` in it. */
module YamlCosts {
  import opened Results
  import opened YamlTree
  import opened YamlTokens
  import opened YamlSyntax
  import opened YamlGrammar
  import opened YamlCounts
  import opened ScanCosts
  import C = Scanning
  import K = YamlCompleteness

  // --- tokens at a place

  predicate At(ts: seq<Tok>, p: nat, xs: seq<Tok>) {
    p + |xs| <= |ts| && ts[p..p + |xs|] == xs
  }

  lemma AtSplit(ts: seq<Tok>, p: nat, a: seq<Tok>, b: seq<Tok>)
    requires At(ts, p, a + b)
    ensures At(ts, p, a) && At(ts, p + |a|, b)
  {
    var all := ts[p..p + |a| + |b|];
    assert all[..|a|] == a && all[|a|..] == b;
    assert ts[p..p + |a|] == all[..|a|] && ts[p + |a|..p + |a| + |b|] == all[|a|..];
  }

  lemma AtFirst(ts: seq<Tok>, p: nat, t: Tok, xs: seq<Tok>)
    requires At(ts, p, [t] + xs)
    ensures p < |ts| && ts[p] == t && At(ts, p + 1, xs)
  {
    AtSplit(ts, p, [t], xs);
    assert ts[p..p + 1][0] == t;
  }

  /** What the tokens from one place to another cost. */
  function Spent(cs: seq<Cost>, p: nat, q: nat): nat
    requires p <= q <= |cs|
  {
    Sum(cs[p..q])
  }

  lemma SpentSplit(cs: seq<Cost>, p: nat, q: nat, r: nat)
    requires p <= q <= r <= |cs|
    ensures Spent(cs, p, r) == Spent(cs, p, q) + Spent(cs, q, r)
  {
    SumConcat(cs[p..q], cs[q..r]);
    assert cs[p..q] + cs[q..r] == cs[p..r];
  }

  lemma SpentOne(ts: seq<Tok>, cs: seq<Cost>, p: nat)
    requires Priced(ts, cs) && p < |ts|
    ensures Spent(cs, p, p + 1) == Width(cs[p])
    ensures !ts[p].Key? ==> Spent(cs, p, p + 1) >= Least(ts[p])
    ensures ts[p].Key? && cs[p].Paid? ==> Spent(cs, p, p + 1) >= 2
  {
    assert CostOk(ts, p, cs[p]);
    SumOne([], cs[p]);
    assert [] + [cs[p]] == [cs[p]] == cs[p..p + 1];
  }

  // --- what a key that paid nothing must be

  /** A node that may be a key before a `:` on one line. */
  predicate Simple(s: Syntax) {
    s.Coll? ==> Flow(s.style)
  }

  lemma SpanNext(a: seq<Tok>, t: Tok, d: nat)
    requires Span(a, d).Some?
    ensures Span(a + [t], d) == SpanStep(t, Span(a, d).value)
  {
    SpanConcat(a, [t], d);
    SpanOne(t, Span(a, d).value);
  }

  lemma SpanBoth(a: seq<Tok>, b: seq<Tok>, d: nat)
    requires Span(a, d) == Some(d) && Span(b, d) == Some(d)
    ensures Span(a + b, d) == Some(d)
  {
    SpanConcat(a, b, d);
  }

  lemma PropsSpan(props: Props, d: nat)
    ensures Span(PropTokens(props), d) == Some(d)
  {
    match props
    case Bare =>
    case Anchored(a) => SpanOne(Tok.Anchor(a), d);
    case Tagged(h, s) => SpanOne(Tok.Tag(h, s), d);
    case AnchoredTagged(a, h, s) =>
      SpanOne(Tok.Anchor(a), d);
      SpanNext([Tok.Anchor(a)], Tok.Tag(h, s), d);
      assert [Tok.Anchor(a)] + [Tok.Tag(h, s)] == PropTokens(props);
    case TaggedAnchored(a, h, s) =>
      SpanOne(Tok.Tag(h, s), d);
      SpanNext([Tok.Tag(h, s)], Tok.Anchor(a), d);
      assert [Tok.Tag(h, s)] + [Tok.Anchor(a)] == PropTokens(props);
  }

  /** A node ends as deep in flow collections as it began. */
  lemma {:induction false} NodeSpan(s: Syntax, d: nat)
    requires d > 0 || Simple(s)
    ensures Span(Tokens(s), d) == Some(d)
    decreases s, 1
  {
    hide Span;
    match s
    case Ref(name) => SpanOne(Tok.Alias(name), d);
    case Empty(props) => PropsSpan(props, d);
    case Text(props, value, plain) =>
      PropsSpan(props, d);
      SpanNext(PropTokens(props), Tok.Scalar(value, plain), d);
    case Coll(style, props, parts, comma) =>
      PropsSpan(props, d);
      if Flow(style) {
        PartsSpan(style, parts, true, d + 1);
        FlowSpan(style, PartsTokens(style, parts, true), comma, d);
      } else {
        PartsSpan(style, parts, true, d);
        BlockSpan(style, PartsTokens(style, parts, true), comma, d);
      }
      hide PropTokens, OpenTokens, CloseTokens, PartsTokens, CommaTokens;
      var body := OpenTokens(style) + PartsTokens(style, parts, true) + CommaTokens(comma) + CloseTokens(style);
      SpanBoth(PropTokens(props), body, d);
      assert Tokens(s) == PropTokens(props) + body;
  }

  lemma PlainSpan(ts: seq<Tok>, d: nat)
    requires d > 0 && (ts == [] || (|ts| == 1 && Plain(ts[0])))
    ensures Span(ts, d) == Some(d)
  {
    SpanInside(ts, d);
  }

  lemma FlowSpan(style: Style, parts: seq<Tok>, comma: bool, d: nat)
    requires Flow(style) && Span(parts, d + 1) == Some(d + 1)
    ensures Span(OpenTokens(style) + parts + CommaTokens(comma) + CloseTokens(style), d) == Some(d)
  {
    var open, close := OpenTokens(style)[0], CloseTokens(style)[0];
    hide Span;
    SpanOne(open, d);
    SpanConcat([open], parts, d);
    PlainSpan(CommaTokens(comma), d + 1);
    SpanConcat([open] + parts, CommaTokens(comma), d);
    SpanNext([open] + parts + CommaTokens(comma), close, d);
  }

  lemma BlockSpan(style: Style, parts: seq<Tok>, comma: bool, d: nat)
    requires !Flow(style) && d > 0 && Span(parts, d) == Some(d)
    ensures Span(OpenTokens(style) + parts + CommaTokens(comma) + CloseTokens(style), d) == Some(d)
  {
    PlainSpan(OpenTokens(style), d);
    PlainSpan(CommaTokens(comma), d);
    PlainSpan(CloseTokens(style), d);
    hide Span;
    SpanBoth(OpenTokens(style), parts, d);
    SpanBoth(OpenTokens(style) + parts, CommaTokens(comma), d);
    SpanBoth(OpenTokens(style) + parts + CommaTokens(comma), CloseTokens(style), d);
  }

  lemma {:induction false} PartsSpan(style: Style, parts: seq<Part>, first: bool, d: nat)
    requires d > 0
    ensures Span(PartsTokens(style, parts, first), d) == Some(d)
    decreases parts, 0
  {
    if parts != [] {
      PartSpan(style, parts[0], d);
      PartsSpan(style, parts[1..], false, d);
      PlainSpan(CommaTokens(Flow(style) && !first), d);
      hide Span;
      SpanBoth(CommaTokens(Flow(style) && !first), PartTokens(style, parts[0]), d);
      SpanBoth(CommaTokens(Flow(style) && !first) + PartTokens(style, parts[0]), PartsTokens(style, parts[1..], false), d);
    }
  }

  lemma {:induction false} PartSpan(style: Style, p: Part, d: nat)
    requires d > 0
    ensures Span(PartTokens(style, p), d) == Some(d)
    decreases p, 0
  {
    match p
    case Item(node) =>
      NodeSpan(node, d);
      PlainSpan(Dash(style), d);
      SpanBoth(Dash(style), Tokens(node), d);
    case Couple(key, value) =>
      NodeSpan(key, d);
      PlainSpan([Tok.Key], d);
      PlainSpan([Tok.Value], d);
      hide Span;
      SpanBoth([Tok.Key], Tokens(key), d);
      match value {
        case None => assert [Tok.Key] + Tokens(key) + [] == [Tok.Key] + Tokens(key);
        case Some(v) =>
          NodeSpan(v, d);
          SpanBoth([Tok.Value], Tokens(v), d);
          SpanBoth([Tok.Key] + Tokens(key), [Tok.Value] + Tokens(v), d);
      }
  }

  lemma {:induction false} SpanPrefix(ts: seq<Tok>, d: nat, n: nat)
    requires Span(ts, d).Some? && n <= |ts|
    ensures Span(ts[..n], d).Some?
    decreases |ts|
  {
    if n == |ts| {
      assert ts[..n] == ts;
    } else {
      SpanPrefix(ts[..|ts| - 1], d, n);
      assert ts[..|ts| - 1][..n] == ts[..n];
    }
  }

  /** After tokens that end outside flow collections, only a node goes on. */
  lemma SpanGoesOn(ts: seq<Tok>, n: nat)
    requires n < |ts| && Span(ts, 0).Some? && Span(ts[..n], 0) == Some(0)
    ensures SpanStep(ts[n], 0).Some?
  {
    SpanPrefix(ts, 0, n + 1);
    assert ts[..n + 1] == ts[..n] + [ts[n]];
    SpanNext(ts[..n], ts[n], 0);
  }

  /** A node that is no simple key shows it before any `:`. */
  lemma BlockShows(s: Syntax, handles: map<string, string>, indentless: bool) returns (n: nat)
    requires !Simple(s) && SyntaxOk(s, true, indentless, handles)
    ensures n < |Tokens(s)| && Span(Tokens(s)[..n], 0) == Some(0)
    ensures SpanStep(Tokens(s)[n], 0).None? && !Tokens(s)[n].Value?
  {
    n := |PropTokens(s.props)|;
    PropsSpan(s.props, 0);
    if s.style.DashSeq? {
      K.PartsBegin(s.style, s.parts, true, handles);
    }
    hide Span, PropTokens, PartsTokens;
    var body := OpenTokens(s.style) + PartsTokens(s.style, s.parts, true) + CommaTokens(s.comma) + CloseTokens(s.style);
    assert Tokens(s) == PropTokens(s.props) + body;
    assert Tokens(s)[..n] == PropTokens(s.props) && Tokens(s)[n] == body[0];
  }

  /** Two stretches from one place, each ending outside flow collections at a
      token that is no node: they are the same. */
  lemma SpansMeet(ts: seq<Tok>, m: nat, n: nat)
    requires m < |ts| && n < |ts| && Span(ts[..m], 0) == Some(0) && Span(ts[..n], 0) == Some(0)
    requires SpanStep(ts[m], 0).None? && SpanStep(ts[n], 0).None?
    ensures m == n
  {
    if m < n {
      assert ts[..n][..m] == ts[..m];
      SpanGoesOn(ts[..n], m);
    } else if n < m {
      assert ts[..m][..n] == ts[..n];
      SpanGoesOn(ts[..m], n);
    }
  }

  /** A key that is free is a simple node, not nothing, and a `:` follows it. */
  lemma FreeKey(ts: seq<Tok>, p: nat, c: Cost, key: Syntax, indentless: bool, handles: map<string, string>)
    requires p < |ts| && CostOk(ts, p, c) && c.Free?
    requires SyntaxOk(key, true, indentless, handles) && At(ts, p + 1, Tokens(key))
    requires p + 1 + |Tokens(key)| < |ts| && SpanStep(ts[p + 1 + |Tokens(key)|], 0).None?
    ensures Simple(key) && key != NOTHING && ts[p + 1 + |Tokens(key)|].Value?
  {
    hide Span, Tokens, SyntaxOk, Simple;
    var back := ts[p + 1..];
    var m := c.reach - 1;
    assert back[..m] == ts[p + 1..p + c.reach] && back[m] == ts[p + c.reach];
    if Simple(key) {
      var n := |Tokens(key)|;
      NodeSpan(key, 0);
      assert back[..n] == Tokens(key);
      SpansMeet(back, m, n);
      if key == NOTHING {
        NothingTokens();
      }
    } else {
      var n := BlockShows(key, handles, indentless);
      assert back[..|Tokens(key)|] == Tokens(key);
      assert back[..n] == Tokens(key)[..n] && back[n] == Tokens(key)[n];
      SpansMeet(back, m, n);
    }
  }

  lemma NothingTokens()
    ensures Tokens(NOTHING) == []
  {
  }

  // --- a node costs no less than what it counts

  function Extra(s: Syntax): nat {
    if s != NOTHING && Simple(s) then 0 else 1
  }

  lemma LeafSpends(s: Syntax, ts: seq<Tok>, cs: seq<Cost>, p: nat, handles: map<string, string>)
    requires !s.Coll? && Priced(ts, cs) && At(ts, p, Tokens(s))
    ensures NodeCount(NodeOf(s, handles)) <= Spent(cs, p, p + |Tokens(s)|) + Extra(s)
  {
    hide *;
    LeafIs(s, handles);
    AtLength(ts, cs, p, Tokens(s));
    if Tokens(s) != [] {
      var init, last := Tokens(s)[..|Tokens(s)| - 1], Tokens(s)[|Tokens(s)| - 1];
      assert Tokens(s) == init + ([last] + []);
      AtSplit(ts, p, init, [last] + []);
      AtFirst(ts, p + |init|, last, []);
      SpentSplit(cs, p, p + |init|, p + |Tokens(s)|);
      SpentOne(ts, cs, p + |init|);
    }
  }

  /** A node without parts is one, and nothing or a token that is paid for. */
  lemma LeafIs(s: Syntax, handles: map<string, string>)
    requires !s.Coll?
    ensures NodeCount(NodeOf(s, handles)) == 1
    ensures if s == NOTHING then Extra(s) == 1 else Tokens(s) != []
    ensures Tokens(s) != [] ==> var last := Tokens(s)[|Tokens(s)| - 1]; !last.Key? && Least(last) == 1
  {
  }

  lemma {:induction false} NodeSpends(s: Syntax, ts: seq<Tok>, cs: seq<Cost>, p: nat, block: bool, indentless: bool, handles: map<string, string>)
    requires Priced(ts, cs) && At(ts, p, Tokens(s)) && SyntaxOk(s, block, indentless, handles)
    ensures NodeCount(NodeOf(s, handles)) <= Spent(cs, p, p + |Tokens(s)|) + Extra(s)
    decreases s, 1
  {
    hide *;
    if s.Coll? {
      var open := p + |PropTokens(s.props)|;
      var from := open + |OpenTokens(s.style)|;
      var to := from + |PartsTokens(s.style, s.parts, true)|;
      CollOk(s, block, indentless, handles);
      CollPlaces(s, ts, p, handles);
      AtLength(ts, cs, p, Tokens(s));
      PartsSpend(s.style, s.parts, true, ts, cs, from, handles);
      CollCount(s, handles);
      BracketsSpend(s.style, ts, cs, open, to + |CommaTokens(s.comma)|);
      CollSum(cs, p, open, from, to, to + |CommaTokens(s.comma)|, p + |Tokens(s)|, s.style);
    } else {
      LeafSpends(s, ts, cs, p, handles);
    }
  }

  lemma CollOk(s: Syntax, block: bool, indentless: bool, handles: map<string, string>)
    requires s.Coll? && SyntaxOk(s, block, indentless, handles)
    ensures PartsOk(s.style, s.parts, handles) && (s.comma ==> Flow(s.style))
    ensures Extra(s) == if Flow(s.style) then 0 else 1
  {
    hide PartsOk, PropsOk;
  }

  lemma BracketsSpend(style: Style, ts: seq<Tok>, cs: seq<Cost>, open: nat, close: nat)
    requires Priced(ts, cs) && At(ts, open, OpenTokens(style)) && At(ts, close, CloseTokens(style))
    ensures Flow(style) ==> open + 1 == open + |OpenTokens(style)| <= |cs| && Spent(cs, open, open + 1) >= 1
    ensures Flow(style) ==> close + 1 == close + |CloseTokens(style)| <= |cs| && Spent(cs, close, close + 1) >= 1
  {
    hide Spent;
    if Flow(style) {
      assert ts[open] == ts[open..open + 1][0] && ts[close] == ts[close..close + 1][0];
      SpentOne(ts, cs, open);
      SpentOne(ts, cs, close);
    }
  }

  lemma CollSum(cs: seq<Cost>, p: nat, open: nat, from: nat, to: nat, close: nat, end: nat, style: Style)
    requires p <= open <= from <= to <= close <= end <= |cs|
    requires Flow(style) ==> Spent(cs, open, from) >= 1 && Spent(cs, close, end) >= 1
    ensures 1 + Spent(cs, from, to) + Lead(style, true) <= Spent(cs, p, end) + if Flow(style) then 0 else 1
  {
    hide Spent;
    SpentSplit(cs, p, open, end);
    SpentSplit(cs, open, from, end);
    SpentSplit(cs, from, to, end);
    SpentSplit(cs, to, close, end);
  }

  /** Where a collection's parts are, and what ends the last of them. */
  lemma CollPlaces(s: Syntax, ts: seq<Tok>, p: nat, handles: map<string, string>)
    requires s.Coll? && At(ts, p, Tokens(s)) && PartsOk(s.style, s.parts, handles) && (s.comma ==> Flow(s.style))
    ensures var from := p + |PropTokens(s.props)| + |OpenTokens(s.style)|;
            var to := from + |PartsTokens(s.style, s.parts, true)|;
            && to + |CommaTokens(s.comma)| + |CloseTokens(s.style)| == p + |Tokens(s)|
            && At(ts, p + |PropTokens(s.props)|, OpenTokens(s.style))
            && At(ts, from, PartsTokens(s.style, s.parts, true))
            && At(ts, to + |CommaTokens(s.comma)|, CloseTokens(s.style))
            && (Ended(s.style) ==> to < |ts| && K.EndsPart(s.style, ts[to]))
  {
    hide *;
    var props, open, parts, comma, close := PropTokens(s.props), OpenTokens(s.style), PartsTokens(s.style, s.parts, true), CommaTokens(s.comma), CloseTokens(s.style);
    CollTokens(s);
    AtSplit(ts, p, props + open + parts + comma, close);
    AtSplit(ts, p, props + open + parts, comma);
    AtSplit(ts, p, props + open, parts);
    AtSplit(ts, p, props, open);
    var to := p + |props| + |open| + |parts|;
    if Ended(s.style) {
      var end := if s.comma then comma else close;
      assert end == [end[0]] + end[1..];
      AtFirst(ts, to, end[0], end[1..]);
    }
  }

  lemma CollTokens(s: Syntax)
    requires s.Coll?
    ensures Tokens(s) == PropTokens(s.props) + OpenTokens(s.style) + PartsTokens(s.style, s.parts, true) + CommaTokens(s.comma) + CloseTokens(s.style)
    ensures !s.comma ==> CommaTokens(s.comma) == []
    ensures Ended(s.style) && !s.comma ==> CloseTokens(s.style) != [] && K.EndsPart(s.style, CloseTokens(s.style)[0])
    ensures Flow(s.style) && s.comma ==> CommaTokens(s.comma) != [] && K.EndsPart(s.style, CommaTokens(s.comma)[0])
  {
    hide PropTokens, PartsTokens;
  }

  /** The styles whose parts are keys and values, or may be. */
  predicate Ended(style: Style) {
    style.BlockMap? || style.FlowSeq? || style.FlowMap?
  }

  lemma CollCount(s: Syntax, handles: map<string, string>)
    requires s.Coll?
    ensures NodeCount(NodeOf(s, handles))
         == 1 + if Sequence(s.style) then ItemCount(ItemsOf(s.parts, handles)) else PairCount(PairsOf(s.parts, handles))
  {
    hide ItemsOf, PairsOf, ItemCount, PairCount;
  }

  /** A part of a flow collection may count one more than it costs; the comma
      before it makes up for that, but there is none before the first. */
  function Lead(style: Style, first: bool): nat {
    if Flow(style) && first then 1 else 0
  }

  lemma {:induction false} PartsSpend(style: Style, parts: seq<Part>, first: bool, ts: seq<Tok>, cs: seq<Cost>, p: nat, handles: map<string, string>)
    requires Priced(ts, cs) && At(ts, p, PartsTokens(style, parts, first)) && PartsOk(style, parts, handles)
    requires var to := p + |PartsTokens(style, parts, first)|;
             Ended(style) ==> to < |ts| && K.EndsPart(style, ts[to])
    ensures var to := p + |PartsTokens(style, parts, first)|;
            && (Sequence(style) ==> ItemCount(ItemsOf(parts, handles)) <= Spent(cs, p, to) + Lead(style, first))
            && (!Sequence(style) ==> PairCount(PairsOf(parts, handles)) <= Spent(cs, p, to) + Lead(style, first))
    decreases parts, 0
  {
    hide *;
    AtLength(ts, cs, p, PartsTokens(style, parts, first));
    if parts == [] {
      NoParts(style, first, handles);
    } else {
      var from := p + |CommaTokens(Flow(style) && !first)|;
      var next := from + |PartTokens(style, parts[0])|;
      PartsHead(style, parts, handles);
      PartsPlaces(style, parts, first, ts, p, handles);
      CommaSpends(style, first, ts, cs, p);
      PartSpends(style, parts[0], ts, cs, from, handles);
      PartsSpend(style, parts[1..], false, ts, cs, next, handles);
      PartsSum(cs, p, from, next, p + |PartsTokens(style, parts, first)|, style, first);
    }
  }

  lemma AtLength(ts: seq<Tok>, cs: seq<Cost>, p: nat, xs: seq<Tok>)
    requires Priced(ts, cs) && At(ts, p, xs)
    ensures p + |xs| <= |ts| == |cs|
  {
  }

  lemma NoParts(style: Style, first: bool, handles: map<string, string>)
    ensures PartsTokens(style, [], first) == []
    ensures ItemCount(ItemsOf([], handles)) == 0 == PairCount(PairsOf([], handles))
  {
  }

  lemma PartsSum(cs: seq<Cost>, p: nat, from: nat, next: nat, to: nat, style: Style, first: bool)
    requires p <= from <= next <= to <= |cs|
    requires Spent(cs, p, from) >= if Flow(style) && !first then 1 else 0
    ensures Spent(cs, from, next) + Lead(style, true) + Spent(cs, next, to) + Lead(style, false) <= Spent(cs, p, to) + Lead(style, first)
  {
    hide Spent;
    SpentSplit(cs, p, from, to);
    SpentSplit(cs, from, next, to);
  }

  lemma PartsHead(style: Style, parts: seq<Part>, handles: map<string, string>)
    requires parts != [] && PartsOk(style, parts, handles)
    ensures PartOk(style, parts[0], handles) && PartsOk(style, parts[1..], handles)
    ensures ItemCount(ItemsOf(parts, handles)) == NodeCount(ItemOf(parts[0], handles)) + ItemCount(ItemsOf(parts[1..], handles))
    ensures PairCount(PairsOf(parts, handles)) == OnePairCount(PairOf(parts[0], handles)) + PairCount(PairsOf(parts[1..], handles))
  {
    hide ItemOf, PairOf, NodeCount, OnePairCount, PartOk;
    assert ItemsOf(parts, handles)[1..] == ItemsOf(parts[1..], handles);
    assert PairsOf(parts, handles)[1..] == PairsOf(parts[1..], handles);
  }

  lemma CommaSpends(style: Style, first: bool, ts: seq<Tok>, cs: seq<Cost>, p: nat)
    requires Priced(ts, cs) && At(ts, p, CommaTokens(Flow(style) && !first))
    ensures var n := |CommaTokens(Flow(style) && !first)|;
            p + n <= |cs| && Spent(cs, p, p + n) >= (if Flow(style) && !first then 1 else 0)
  {
    hide Spent;
    if Flow(style) && !first {
      assert ts[p] == ts[p..p + 1][0];
      SpentOne(ts, cs, p);
    }
  }

  /** Where the parts of a collection are, and what ends the first. */
  lemma PartsPlaces(style: Style, parts: seq<Part>, first: bool, ts: seq<Tok>, p: nat, handles: map<string, string>)
    requires parts != [] && At(ts, p, PartsTokens(style, parts, first)) && PartsOk(style, parts, handles)
    requires var to := p + |PartsTokens(style, parts, first)|;
             Ended(style) ==> to < |ts| && K.EndsPart(style, ts[to])
    ensures var comma := CommaTokens(Flow(style) && !first);
            var from := p + |comma|;
            var next := from + |PartTokens(style, parts[0])|;
            && At(ts, p, comma) && At(ts, from, PartTokens(style, parts[0])) && At(ts, next, PartsTokens(style, parts[1..], false))
            && next + |PartsTokens(style, parts[1..], false)| == p + |PartsTokens(style, parts, first)|
            && (Ended(style) ==> next < |ts| && K.EndsPart(style, ts[next]))
  {
    hide *;
    var comma, head, tail := CommaTokens(Flow(style) && !first), PartTokens(style, parts[0]), PartsTokens(style, parts[1..], false);
    PartsHeadTokens(style, parts, first);
    AtSplit(ts, p, comma + head, tail);
    AtSplit(ts, p, comma, head);
    if parts[1..] == [] {
      LastPart(style);
    } else if Ended(style) {
      TailFirst(style, parts, handles);
      assert tail == [tail[0]] + tail[1..];
      AtFirst(ts, p + |comma| + |head|, tail[0], tail[1..]);
    }
  }

  lemma PartsHeadTokens(style: Style, parts: seq<Part>, first: bool)
    requires parts != []
    ensures PartsTokens(style, parts, first)
         == CommaTokens(Flow(style) && !first) + PartTokens(style, parts[0]) + PartsTokens(style, parts[1..], false)
  {
  }

  lemma LastPart(style: Style)
    ensures PartsTokens(style, [], false) == []
  {
  }

  lemma TailFirst(style: Style, parts: seq<Part>, handles: map<string, string>)
    requires parts != [] && parts[1..] != [] && PartsOk(style, parts, handles) && Ended(style)
    ensures PartsTokens(style, parts[1..], false) != [] && K.EndsPart(style, PartsTokens(style, parts[1..], false)[0])
  {
    if !Flow(style) {
      K.PartsBegin(style, parts[1..], false, handles);
    } else {
      PartsHeadTokens(style, parts[1..], false);
    }
  }

  lemma {:induction false} PartSpends(style: Style, part: Part, ts: seq<Tok>, cs: seq<Cost>, p: nat, handles: map<string, string>)
    requires Priced(ts, cs) && At(ts, p, PartTokens(style, part)) && PartOk(style, part, handles)
    requires var to := p + |PartTokens(style, part)|;
             Ended(style) ==> to < |ts| && K.EndsPart(style, ts[to])
    ensures var to := p + |PartTokens(style, part)|;
            && (Sequence(style) ==> NodeCount(ItemOf(part, handles)) <= Spent(cs, p, to) + Lead(style, true))
            && (!Sequence(style) ==> OnePairCount(PairOf(part, handles)) <= Spent(cs, p, to) + Lead(style, true))
    decreases part, 1
  {
    match part
    case Item(node) =>
      ItemSpends(style, part, ts, cs, p, handles);
    case Couple(key, value) =>
      PairNodes(part, handles);
      CoupleEnded(style, part, handles);
      CoupleSpends(style, part, ts, cs, p, handles);
      hide PartTokens, PartOk, ItemOf, PairOf, NodeOf, ValueOf, Spent, Priced, NodeCount, OnePairCount, At;
  }

  lemma {:induction false} ItemSpends(style: Style, part: Part, ts: seq<Tok>, cs: seq<Cost>, p: nat, handles: map<string, string>)
    requires part.Item? && Priced(ts, cs) && At(ts, p, PartTokens(style, part)) && PartOk(style, part, handles)
    ensures var to := p + |PartTokens(style, part)|;
            && (Sequence(style) ==> NodeCount(ItemOf(part, handles)) <= Spent(cs, p, to) + Lead(style, true))
            && (!Sequence(style) ==> OnePairCount(PairOf(part, handles)) <= Spent(cs, p, to) + Lead(style, true))
    decreases part, 0
  {
    hide *;
    var node := part.node;
    var from := p + |Dash(style)|;
    ItemIs(style, part, handles);
    AtLength(ts, cs, p, PartTokens(style, part));
    ItemPlaces(style, node, ts, p);
    NodeSpends(node, ts, cs, from, !Flow(style), false, handles);
    DashSpends(style, ts, cs, p);
    SpentSplit(cs, p, from, p + |PartTokens(style, part)|);
  }

  /** A lone node, as an item and as a pair; in a flow collection it is simple. */
  lemma ItemIs(style: Style, part: Part, handles: map<string, string>)
    requires part.Item? && PartOk(style, part, handles)
    ensures SyntaxOk(part.node, !Flow(style), false, handles)
    ensures Extra(part.node) <= 1 - Lead(style, true)
    ensures part == Item(part.node) && PartTokens(style, part) == Dash(style) + Tokens(part.node)
    ensures NodeCount(ItemOf(part, handles)) == NodeCount(NodeOf(part.node, handles))
    ensures OnePairCount(PairOf(part, handles)) == NodeCount(NodeOf(part.node, handles)) + 1
    ensures !Sequence(style) ==> Lead(style, true) == 1
  {
    ItemIsSimple(style, part.node, handles);
    hide SyntaxOk, Tokens, NodeOf, Simple;
    assert NodeCount(NULL_NODE) == 1;
  }

  /** The dash before a lone node in a block sequence. */
  lemma DashSpends(style: Style, ts: seq<Tok>, cs: seq<Cost>, p: nat)
    requires Priced(ts, cs) && p + |Dash(style)| <= |ts| && (!Flow(style) ==> p < |ts| && ts[p].BlockEntry?)
    ensures p + |Dash(style)| <= |cs| && Spent(cs, p, p + |Dash(style)|) >= 1 - Lead(style, true)
  {
    hide Spent;
    if !Flow(style) {
      SpentOne(ts, cs, p);
    }
  }

  lemma ItemPlaces(style: Style, node: Syntax, ts: seq<Tok>, p: nat)
    requires At(ts, p, PartTokens(style, Item(node)))
    ensures At(ts, p + |Dash(style)|, Tokens(node)) && (!Flow(style) ==> p < |ts| && ts[p].BlockEntry?)
  {
    hide Tokens;
    AtSplit(ts, p, Dash(style), Tokens(node));
    if !Flow(style) {
      assert ts[p] == ts[p..p + 1][0];
    }
  }

  lemma CoupleEnded(style: Style, part: Part, handles: map<string, string>)
    requires part.Couple? && PartOk(style, part, handles)
    ensures Ended(style)
    ensures SyntaxOk(part.key, !Flow(style), style.BlockMap?, handles)
    ensures part.value.Some? ==> SyntaxOk(part.value.value, !Flow(style), style.BlockMap?, handles)
  {
    hide SyntaxOk;
  }

  lemma ItemIsSimple(style: Style, node: Syntax, handles: map<string, string>)
    requires PartOk(style, Item(node), handles)
    ensures Flow(style) ==> node != NOTHING && Simple(node)
  {
    hide PartsOk, PropsOk;
    assert SyntaxOk(node, !Flow(style), false, handles);
  }

  lemma PairNodes(part: Part, handles: map<string, string>)
    requires part.Couple?
    ensures var n := NodeCount(NodeOf(part.key, handles)) + NodeCount(ValueOf(part.value, handles));
            OnePairCount(PairOf(part, handles)) == n && NodeCount(ItemOf(part, handles)) == 1 + n
  {
    hide NodeOf, ValueOf;
    var pair := PairOf(part, handles);
    assert [pair][1..] == [];
    assert PairCount([pair]) == OnePairCount(pair) by { hide OnePairCount; }
  }

  /** A key and its value count no more than they cost: a `?` is paid twice,
      and a key that is free is no null and has a `:` paid for. */
  lemma {:induction false} CoupleSpends(style: Style, part: Part, ts: seq<Tok>, cs: seq<Cost>, p: nat, handles: map<string, string>)
    requires part.Couple? && Priced(ts, cs) && At(ts, p, PartTokens(style, part)) && PartOk(style, part, handles)
    requires var to := p + |PartTokens(style, part)|;
             Ended(style) ==> to < |ts| && K.EndsPart(style, ts[to])
    ensures var to := p + |PartTokens(style, part)|;
            NodeCount(NodeOf(part.key, handles)) + NodeCount(ValueOf(part.value, handles)) <= Spent(cs, p, to)
    decreases part, 0
  {
    hide *;
    var key, value := part.key, part.value;
    var at := p + 1 + |Tokens(key)|;
    var to := p + |PartTokens(style, part)|;
    AtLength(ts, cs, p, PartTokens(style, part));
    CoupleEnded(style, part, handles);
    CouplePlaces(style, part, ts, p);
    NodeSpends(key, ts, cs, p + 1, !Flow(style), style.BlockMap?, handles);
    ValueSpends(style, value, ts, cs, at, handles);
    KeySpends(style, key, value, ts, cs, p, handles);
    CoupleSum(cs, p, at, to, NodeCount(NodeOf(key, handles)), NodeCount(ValueOf(value, handles)), Extra(key), value.Some?);
  }

  lemma CoupleSum(cs: seq<Cost>, p: nat, at: nat, to: nat, keys: nat, values: nat, extra: nat, colon: bool)
    requires p + 1 <= at <= to <= |cs| && extra <= 1
    requires keys <= Spent(cs, p + 1, at) + extra
    requires if colon then values <= Spent(cs, at, to) else values == 1
    requires Spent(cs, p, p + 1) >= 2 || (extra == 0 && colon)
    ensures keys + values <= Spent(cs, p, to)
  {
    hide Spent;
    SpentSplit(cs, p, p + 1, to);
    SpentSplit(cs, p + 1, at, to);
  }

  lemma PricedLength(ts: seq<Tok>, cs: seq<Cost>)
    requires Priced(ts, cs)
    ensures |cs| == |ts|
  {
  }

  /** A value counts no more than it costs with its `:`, or it is a null with none. */
  lemma {:induction false} ValueSpends(style: Style, value: Option<Syntax>, ts: seq<Tok>, cs: seq<Cost>, at: nat, handles: map<string, string>)
    requires Priced(ts, cs) && at + |ValueTokens(value)| <= |ts|
    requires value.Some? ==> at < |ts| && ts[at].Value? && At(ts, at + 1, Tokens(value.value)) && SyntaxOk(value.value, !Flow(style), style.BlockMap?, handles)
    ensures var to := at + |ValueTokens(value)|;
            && at <= to <= |cs|
            && (value.Some? ==> NodeCount(ValueOf(value, handles)) <= Spent(cs, at, to))
            && (value.None? ==> NodeCount(ValueOf(value, handles)) == 1 && to == at)
    decreases value, 2
  {
    if value.Some? {
      NodeSpends(value.value, ts, cs, at + 1, !Flow(style), style.BlockMap?, handles);
      var to := at + 1 + |Tokens(value.value)|;
      PricedLength(ts, cs);
      hide Tokens, SyntaxOk, NodeOf, At, Spent, Priced, Simple, NodeCount;
      SpentSplit(cs, at, at + 1, to);
      SpentOne(ts, cs, at);
    }
  }

  lemma CouplePlaces(style: Style, part: Part, ts: seq<Tok>, p: nat)
    requires part.Couple? && At(ts, p, PartTokens(style, part))
    ensures var at := p + 1 + |Tokens(part.key)|;
            && at + |ValueTokens(part.value)| == p + |PartTokens(style, part)|
            && p < |ts| && ts[p].Key? && At(ts, p + 1, Tokens(part.key))
            && (part.value.None? ==> ValueTokens(part.value) == [])
            && (part.value.Some? ==> at < |ts| && ts[at].Value? && At(ts, at + 1, Tokens(part.value.value)))
  {
    hide *;
    var key, value := part.key, part.value;
    CoupleTokens(style, part);
    AtSplit(ts, p, [Tok.Key] + Tokens(key), ValueTokens(value));
    AtSplit(ts, p, [Tok.Key], Tokens(key));
    assert [Tok.Key] == [Tok.Key] + [];
    AtFirst(ts, p, Tok.Key, []);
    if value.Some? {
      AtFirst(ts, p + 1 + |Tokens(key)|, Tok.Value, Tokens(value.value));
    }
  }

  lemma CoupleTokens(style: Style, part: Part)
    requires part.Couple?
    ensures PartTokens(style, part) == [Tok.Key] + Tokens(part.key) + ValueTokens(part.value)
    ensures ValueTokens(part.value) == if part.value.Some? then [Tok.Value] + Tokens(part.value.value) else []
  {
    hide Tokens;
  }

  /** A key is paid for twice, or has a `:` and is no null. */
  lemma KeySpends(style: Style, key: Syntax, value: Option<Syntax>, ts: seq<Tok>, cs: seq<Cost>, p: nat, handles: map<string, string>)
    requires Ended(style) && Priced(ts, cs) && p < |ts| && ts[p].Key? && At(ts, p + 1, Tokens(key))
    requires SyntaxOk(key, !Flow(style), style.BlockMap?, handles)
    requires p + 1 + |Tokens(key)| < |ts|
    requires var t := ts[p + 1 + |Tokens(key)|]; if value.Some? then t.Value? else K.EndsPart(style, t)
    ensures |cs| == |ts|
    ensures Spent(cs, p, p + 1) >= 2 || (Extra(key) == 0 && value.Some?)
    ensures Extra(key) <= 1
  {
    hide Spent, Span, Tokens;
    SpentOne(ts, cs, p);
    assert CostOk(ts, p, cs[p]);
    if cs[p].Free? {
      WiderOk(key, !Flow(style), style.BlockMap?, handles);
      FreeKey(ts, p, cs[p], key, style.BlockMap?, handles);
    }
  }

  lemma WiderOk(s: Syntax, block: bool, indentless: bool, handles: map<string, string>)
    requires SyntaxOk(s, block, indentless, handles)
    ensures SyntaxOk(s, true, indentless, handles)
  {
    hide PartsOk, PropsOk;
  }

  // --- documents

  lemma {:induction false} DocsSpend(ds: seq<Doc>, ts: seq<Tok>, cs: seq<Cost>, p: nat, first: bool)
    requires Priced(ts, cs) && At(ts, p, DocsTokens(ds)) && forall i :: 0 <= i < |ds| ==> DocOk(ds[i], first && i == 0)
    ensures ItemCount(DocNodes(ds)) <= Spent(cs, p, p + |DocsTokens(ds)|) + if first then 1 else 0
    decreases |ds|
  {
    hide *;
    AtLength(ts, cs, p, DocsTokens(ds));
    if ds == [] {
      NoDocs();
    } else {
      var next := p + |DocTokens(ds[0])|;
      DocsHead(ds);
      AtSplit(ts, p, DocTokens(ds[0]), DocsTokens(ds[1..]));
      DocSpends(ds[0], ts, cs, p, first);
      DocsSpend(ds[1..], ts, cs, next, false);
      SpentSplit(cs, p, next, p + |DocsTokens(ds)|);
    }
  }

  lemma NoDocs()
    ensures DocsTokens([]) == [] && ItemCount(DocNodes([])) == 0
  {
  }

  lemma DocsHead(ds: seq<Doc>)
    requires ds != []
    ensures DocsTokens(ds) == DocTokens(ds[0]) + DocsTokens(ds[1..])
    ensures ItemCount(DocNodes(ds)) == NodeCount(NodeOf(ds[0].root, HandlesOf(ds[0].header))) + ItemCount(DocNodes(ds[1..]))
  {
    hide NodeOf, HandlesOf, NodeCount, DocTokens;
    assert DocNodes(ds)[1..] == DocNodes(ds[1..]);
  }

  lemma DocSpends(d: Doc, ts: seq<Tok>, cs: seq<Cost>, p: nat, first: bool)
    requires Priced(ts, cs) && At(ts, p, DocTokens(d)) && DocOk(d, first)
    ensures p + |DocTokens(d)| <= |cs|
    ensures NodeCount(NodeOf(d.root, HandlesOf(d.header))) <= Spent(cs, p, p + |DocTokens(d)|) + if first then 1 else 0
  {
    hide *;
    var from := p + |HeaderTokens(d.header)|;
    var to := from + |Tokens(d.root)|;
    var end := p + |DocTokens(d)|;
    AtLength(ts, cs, p, DocTokens(d));
    DocPlaces(d, ts, p, first);
    NodeSpends(d.root, ts, cs, from, true, false, HandlesOf(d.header));
    SpentSplit(cs, p, from, end);
    SpentSplit(cs, from, to, end);
    ExtraIsOne(d.root);
    if d.header.Some? {
      SpentSplit(cs, p, from - 1, from);
      SpentOne(ts, cs, from - 1);
      DashesPay();
    }
  }

  lemma ExtraIsOne(s: Syntax)
    ensures Extra(s) <= 1
  {
  }

  lemma DashesPay()
    ensures Least(Tok.DocumentStart) == 1
  {
  }

  lemma DocPlaces(d: Doc, ts: seq<Tok>, p: nat, first: bool)
    requires At(ts, p, DocTokens(d)) && DocOk(d, first)
    ensures var from := p + |HeaderTokens(d.header)|;
            && At(ts, from, Tokens(d.root)) && from + |Tokens(d.root)| <= p + |DocTokens(d)|
            && SyntaxOk(d.root, true, false, HandlesOf(d.header))
            && (d.header.None? ==> first)
            && (d.header.Some? ==> p < from && from <= |ts| && ts[from - 1].DocumentStart?)
  {
    hide At, SyntaxOk, Tokens, HandlesOf, EndTokens, DirectiveTokens, DirectivesOk;
    var header := HeaderTokens(d.header);
    AtSplit(ts, p, header + Tokens(d.root), EndTokens(d.ends));
    AtSplit(ts, p, header, Tokens(d.root));
    if d.header.Some? {
      var directives := DirectiveTokens(d.header.value);
      AtSplit(ts, p, directives, [Tok.DocumentStart]);
      assert [Tok.DocumentStart] == [Tok.DocumentStart] + [];
      AtFirst(ts, p + |directives|, Tok.DocumentStart, []);
    }
  }

  lemma DocsOkFirst(ds: seq<Doc>)
    requires DocsOk(ds)
    ensures forall i :: 0 <= i < |ds| ==> DocOk(ds[i], true && i == 0)
  {
    hide DocOk;
  }

  /** The nodes of a grammatical text are at most its characters, one, and as
      many more as there are `?` in it. */
  lemma NodesPerCharacter(text: string, es: seq<Event>, rest: seq<Tok>) returns (docs: seq<Node>)
    requires C.TokensOf(text).Ok? && Grammatical(C.TokensOf(text).value, es, rest)
    ensures es == StreamEvents(docs) && ItemCount(docs) <= |text| + 1 + Questions(text, |text|)
  {
    hide *;
    var ds := DocumentsOf(C.TokensOf(text).value, es, rest);
    docs := DocNodes(ds);
    DocsPerCharacter(text, ds);
  }

  lemma DocsPerCharacter(text: string, ds: seq<Doc>)
    requires C.TokensOf(text).Ok? && At(C.TokensOf(text).value, 1, DocsTokens(ds))
    requires forall i :: 0 <= i < |ds| ==> DocOk(ds[i], true && i == 0)
    ensures ItemCount(DocNodes(ds)) <= |text| + 1 + Questions(text, |text|)
  {
    hide *;
    var tokens := C.TokensOf(text).value;
    var cs := TextPays(text);
    AtLength(tokens, cs, 1, DocsTokens(ds));
    DocsSpend(ds, tokens, cs, 1, true);
    SpentSplit(cs, 0, 1, |cs|);
    SpentSplit(cs, 1, 1 + |DocsTokens(ds)|, |cs|);
    AllSpent(cs);
  }

  lemma DocumentsOf(tokens: seq<Tok>, es: seq<Event>, rest: seq<Tok>) returns (ds: seq<Doc>)
    requires Grammatical(tokens, es, rest)
    ensures es == StreamEvents(DocNodes(ds)) && At(tokens, 1, DocsTokens(ds))
    ensures forall i :: 0 <= i < |ds| ==> DocOk(ds[i], true && i == 0)
  {
    hide DocsOk, DocsTokens, DocNodes, StreamEvents, At;
    var first, docs :|
      && DocsOk(docs)
      && tokens == [first] + DocsTokens(docs) + [Tok.StreamEnd] + rest
      && es == StreamEvents(DocNodes(docs));
    ds := docs;
    DocsOkFirst(ds);
    assert tokens == [first] + DocsTokens(ds) + ([Tok.StreamEnd] + rest);
    DocsAt(tokens, first, DocsTokens(ds), [Tok.StreamEnd] + rest);
  }

  lemma DocsAt(tokens: seq<Tok>, first: Tok, docs: seq<Tok>, after: seq<Tok>)
    requires tokens == [first] + docs + after
    ensures At(tokens, 1, docs)
  {
  }

  lemma AllSpent(cs: seq<Cost>)
    ensures Spent(cs, 0, |cs|) == Sum(cs)
  {
    assert cs[0..|cs|] == cs;
  }
}
