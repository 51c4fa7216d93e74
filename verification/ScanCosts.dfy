/** What each token costs in characters: at least one, but for the tokens that
    only mark indentation, the stream's ends, and the keys put in front of their
    first token when the `:` after it is seen; a `?` is counted twice. */
module ScanCosts {
  import opened Results
  import opened YamlTokens
  import opened ScannerState
  import opened Scanning
  import F = FlowScalars
  import T = TagText
  import L = LineText
  import O = OpenScalars

  // --- costs

  /** What a token has paid; a key that is free has its `:` so many tokens on. */
  datatype Cost = Paid(width: nat) | Free(reach: nat)

  function Width(c: Cost): nat {
    if c.Paid? then c.width else 0
  }

  function Sum(cs: seq<Cost>): nat {
    if cs == [] then 0 else Sum(cs[..|cs| - 1]) + Width(cs[|cs| - 1])
  }

  lemma {:induction false} SumConcat(a: seq<Cost>, b: seq<Cost>)
    ensures Sum(a + b) == Sum(a) + Sum(b)
    decreases |b|
  {
    if b == [] {
      assert a + b == a;
    } else {
      assert (a + b)[..|a + b| - 1] == a + b[..|b| - 1];
      SumConcat(a, b[..|b| - 1]);
    }
  }

  /** The least a token pays that is not free. */
  function Least(t: Tok): nat {
    match t
    case Key => 2
    case StreamStart => 0
    case StreamEnd => 0
    case BlockSequenceStart => 0
    case BlockMappingStart => 0
    case BlockEnd => 0
    case _ => 1
  }

  // --- what may stand between a key and its `:`

  predicate Leafy(t: Tok) {
    t.Alias? || t.Anchor? || t.Tag? || t.Scalar?
  }

  predicate Opens(t: Tok) {
    t.FlowSequenceStart? || t.FlowMappingStart?
  }

  predicate Closes(t: Tok) {
    t.FlowSequenceEnd? || t.FlowMappingEnd?
  }

  function SpanStep(t: Tok, depth: nat): Option<nat> {
    if Opens(t) then Some(depth + 1)
    else if Closes(t) then if depth > 0 then Some(depth - 1) else None
    else if depth > 0 || Leafy(t) then Some(depth)
    else None
  }

  /** How deep in flow collections some tokens end that begin at a depth, if
      outside them there is nothing but nodes. */
  function Span(ts: seq<Tok>, depth: nat): Option<nat> {
    if ts == [] then Some(depth)
    else
      match Span(ts[..|ts| - 1], depth)
      case None => None
      case Some(d) => SpanStep(ts[|ts| - 1], d)
  }

  function SpanFrom(depth: Option<nat>, ts: seq<Tok>): Option<nat> {
    match depth
    case None => None
    case Some(d) => Span(ts, d)
  }

  lemma {:induction false} SpanConcat(a: seq<Tok>, b: seq<Tok>, depth: nat)
    ensures Span(a + b, depth) == SpanFrom(Span(a, depth), b)
    decreases |b|
  {
    if b == [] {
      assert a + b == a;
    } else {
      assert (a + b)[..|a + b| - 1] == a + b[..|b| - 1];
      SpanConcat(a, b[..|b| - 1], depth);
    }
  }

  lemma SpanOne(t: Tok, depth: nat)
    ensures Span([t], depth) == SpanStep(t, depth)
  {
    assert [t][..0] == [];
  }

  predicate Plain(t: Tok) {
    !Opens(t) && !Closes(t)
  }

  /** Inside flow collections only brackets count. */
  lemma {:induction false} SpanInside(ts: seq<Tok>, depth: nat)
    requires depth > 0 && forall i :: 0 <= i < |ts| ==> Plain(ts[i])
    ensures Span(ts, depth) == Some(depth)
    decreases |ts|
  {
    if ts != [] {
      SpanInside(ts[..|ts| - 1], depth);
    }
  }

  // --- priced tokens

  predicate CostOk(ts: seq<Tok>, i: nat, c: Cost)
    requires i < |ts|
  {
    match c
    case Paid(width) => width >= Least(ts[i])
    case Free(reach) => ts[i].Key? && reach >= 2 && i + reach < |ts| && ts[i + reach].Value? && Span(ts[i + 1..i + reach], 0) == Some(0)
  }

  predicate Priced(ts: seq<Tok>, cs: seq<Cost>) {
    |cs| == |ts| && forall i :: 0 <= i < |ts| ==> CostOk(ts, i, cs[i])
  }

  predicate AllPaid(ts: seq<Tok>, cs: seq<Cost>) {
    |cs| == |ts| && forall i :: 0 <= i < |ts| ==> cs[i].Paid? && cs[i].width >= Least(ts[i])
  }

  lemma CostShifts(ts: seq<Tok>, i: nat, c: Cost, before: seq<Tok>, after: seq<Tok>)
    requires i < |ts| && CostOk(ts, i, c)
    ensures CostOk(before + ts + after, |before| + i, c)
  {
    var all := before + ts + after;
    assert all[|before| + i] == ts[i];
    if c.Free? {
      assert all[|before| + i + c.reach] == ts[i + c.reach];
      assert all[|before| + i + 1..|before| + i + c.reach] == ts[i + 1..i + c.reach];
    }
  }

  lemma CostWithin(ts: seq<Tok>, i: nat, c: Cost, n: nat)
    requires i < n <= |ts| && CostOk(ts, i, c) && (c.Free? ==> i + c.reach < n)
    ensures CostOk(ts[..n], i, c)
  {
    if c.Free? {
      assert ts[..n][i + 1..i + c.reach] == ts[i + 1..i + c.reach];
    }
  }

  lemma CostAfter(ts: seq<Tok>, i: nat, c: Cost, n: nat)
    requires n <= i < |ts| && CostOk(ts, i, c)
    ensures CostOk(ts[n..], i - n, c)
  {
    if c.Free? {
      assert ts[n..][i - n + 1..i - n + c.reach] == ts[i + 1..i + c.reach];
    }
  }

  lemma PricedConcat(a: seq<Tok>, x: seq<Cost>, b: seq<Tok>, y: seq<Cost>)
    requires Priced(a, x) && Priced(b, y)
    ensures Priced(a + b, x + y)
  {
    hide CostOk;
    forall i | 0 <= i < |a + b| ensures CostOk(a + b, i, (x + y)[i]) {
      if i < |a| {
        CostShifts(a, i, x[i], [], b);
        assert [] + a + b == a + b;
      } else {
        CostShifts(b, i - |a|, y[i - |a|], a, []);
        assert a + b + [] == a + b;
      }
    }
  }

  lemma PaidPriced(ts: seq<Tok>, cs: seq<Cost>)
    requires AllPaid(ts, cs)
    ensures Priced(ts, cs)
  {
    hide Least;
  }

  lemma PricedSplit(ts: seq<Tok>, cs: seq<Cost>, n: nat)
    requires Priced(ts, cs) && n <= |ts|
    requires forall i :: 0 <= i < n && cs[i].Free? ==> i + cs[i].reach < n
    ensures Priced(ts[..n], cs[..n]) && Priced(ts[n..], cs[n..])
  {
    hide CostOk;
    forall i | 0 <= i < n ensures CostOk(ts[..n], i, cs[..n][i]) {
      CostWithin(ts, i, cs[i], n);
    }
    forall i | 0 <= i < |ts| - n ensures CostOk(ts[n..], i, cs[n..][i]) {
      CostAfter(ts, n + i, cs[n + i], n);
    }
  }

  /** A key and the tokens that make it one, and the `:` after them. */
  lemma PricedKey(ts: seq<Tok>, cs: seq<Cost>)
    requires Priced(ts, cs) && ts != [] && Span(ts, 0) == Some(0)
    ensures Priced([Tok.Key] + ts + [Tok.Value], [Free(|ts| + 1)] + cs + [Paid(1)])
  {
    hide CostOk;
    var all, prices := [Tok.Key] + ts + [Tok.Value], [Free(|ts| + 1)] + cs + [Paid(1)];
    assert all[1..|ts| + 1] == ts;
    FreeOk(all, 0, |ts| + 1);
    PaidOk(all, |ts| + 1, Paid(1));
    forall i | 0 <= i < |ts| ensures CostOk(all, 1 + i, cs[i]) {
      CostShifts(ts, i, cs[i], [Tok.Key], [Tok.Value]);
    }
    forall i | 0 <= i < |all| ensures CostOk(all, i, prices[i]) {
      if 0 < i <= |ts| {
        assert prices[i] == cs[i - 1];
      }
    }
  }

  lemma PaidOk(ts: seq<Tok>, i: nat, c: Cost)
    requires i < |ts| && c.Paid? && c.width >= Least(ts[i])
    ensures CostOk(ts, i, c)
  {
  }

  lemma FreeOk(ts: seq<Tok>, i: nat, reach: nat)
    requires i + reach < |ts| && ts[i].Key? && ts[i + reach].Value? && reach >= 2 && Span(ts[i + 1..i + reach], 0) == Some(0)
    ensures CostOk(ts, i, Free(reach))
  {
  }

  // --- what a scanner has spent

  /** The question marks in a text up to a place. */
  function Questions(b: seq<char>, p: nat): (n: nat)
    requires p <= |b|
    ensures n <= p
  {
    if p == 0 then 0 else Questions(b, p - 1) + if b[p - 1] == '?' then 1 else 0
  }

  lemma {:induction false} QuestionsGrow(b: seq<char>, p: nat, q: nat)
    requires p <= q <= |b|
    ensures Questions(b, p) <= Questions(b, q)
    decreases q - p
  {
    if p < q {
      QuestionsGrow(b, p, q - 1);
    }
  }

  /** What may have been spent by a place. */
  function Purse(b: seq<char>, p: nat): nat
    requires p <= |b|
  {
    p + Questions(b, p)
  }

  /** A saved key: from its token on there are nodes and flow collections, as
      many of them open as it is levels down, and no open block is deeper. */
  predicate KeyAt(b: seq<char>, s: Scan, all: seq<Tok>, l: int, k: SimpleKey) {
    && s.taken <= k.tokenNumber < |all| && l <= s.flowLevel
    && Span(all[k.tokenNumber..], 0) == Some(s.flowLevel - l)
    && k.index <= s.pointer <= |b| && k.line == LineAt(b, k.index) && k.column == ColumnAt(b, k.index)
    && (l == 0 ==> s.indent <= k.column)
  }

  /** Free keys end before a saved key's token, or begin there or after it. */
  predicate Apart(k: SimpleKey, cs: seq<Cost>) {
    forall i :: 0 <= i < |cs| && cs[i].Free? ==> k.tokenNumber <= i || i + cs[i].reach < k.tokenNumber
  }

  predicate KeysAt(b: seq<char>, s: Scan, all: seq<Tok>, cs: seq<Cost>) {
    && (forall l :: l in s.keys ==> KeyAt(b, s, all, l, s.keys[l]) && Apart(s.keys[l], cs))
    && forall l, m :: l in s.keys && m in s.keys && l < m ==> s.keys[l].tokenNumber < s.keys[m].tokenNumber
  }

  /** All the tokens so far, taken ones too, and what they cost. */
  predicate Afford(b: seq<char>, s: Scan, all: seq<Tok>, cs: seq<Cost>) {
    && s.pointer <= |b| && s.taken <= |all| && s.tokens == all[s.taken..]
    && Priced(all, cs) && Sum(cs) <= Purse(b, s.pointer)
    && KeysAt(b, s, all, cs)
  }

  /** A key saved for the token now pushed, at the deepest level there is. */
  predicate NewKey(b: seq<char>, s: Scan, n: Scan, all: seq<Tok>, more: seq<Tok>, l: int) {
    && l == s.flowLevel && l in n.keys && n.keys[l].tokenNumber == |all| && l <= n.flowLevel
    && more != [] && Span(more, 0) == Some(n.flowLevel - l)
    && n.keys[l].index <= n.pointer <= |b| && n.keys[l].line == LineAt(b, n.keys[l].index) && n.keys[l].column == ColumnAt(b, n.keys[l].index)
    && (l == 0 ==> n.indent <= n.keys[l].column)
    && forall m :: m in n.keys ==> m <= l
  }

  /** A key saved before, which the pushed tokens leave as it is. */
  predicate OldKey(s: Scan, n: Scan, more: seq<Tok>, l: int) {
    && l in s.keys && l in n.keys && n.keys[l] == s.keys[l] && l <= s.flowLevel && l <= n.flowLevel
    && Span(more, s.flowLevel - l) == Some(n.flowLevel - l)
    && (l == 0 ==> n.indent <= n.keys[l].column)
  }

  /** Tokens pushed at the end. */
  lemma Pushed(b: seq<char>, s: Scan, all: seq<Tok>, cs: seq<Cost>, n: Scan, more: seq<Tok>, prices: seq<Cost>)
    requires Afford(b, s, all, cs)
    requires n.taken == s.taken && n.tokens == s.tokens + more && AllPaid(more, prices)
    requires s.pointer <= n.pointer <= |b| && Purse(b, s.pointer) + Sum(prices) <= Purse(b, n.pointer)
    requires forall l :: l in n.keys ==> OldKey(s, n, more, l) || NewKey(b, s, n, all, more, l)
    ensures Afford(b, n, all + more, cs + prices) && (all + more)[..s.taken] == all[..s.taken]
  {
    hide KeyAt, Apart, OldKey, NewKey, Priced, AllPaid, Purse, Sum;
    PaidPriced(more, prices);
    PricedConcat(all, cs, more, prices);
    SumConcat(cs, prices);
    forall l | l in n.keys ensures KeyAt(b, n, all + more, l, n.keys[l]) && Apart(n.keys[l], cs + prices) {
      KeyPushed(b, s, all, cs, n, more, prices, l);
    }
    forall l, m | l in n.keys && m in n.keys && l < m ensures n.keys[l].tokenNumber < n.keys[m].tokenNumber {
      KeysInOrder(b, s, all, cs, n, more, l, m);
    }
  }

  lemma KeysInOrder(b: seq<char>, s: Scan, all: seq<Tok>, cs: seq<Cost>, n: Scan, more: seq<Tok>, l: int, m: int)
    requires KeysAt(b, s, all, cs) && l in n.keys && m in n.keys && l < m
    requires OldKey(s, n, more, l) || NewKey(b, s, n, all, more, l)
    requires OldKey(s, n, more, m) || NewKey(b, s, n, all, more, m)
    ensures n.keys[l].tokenNumber < n.keys[m].tokenNumber
  {
    hide Span, Apart;
  }

  lemma KeyPushed(b: seq<char>, s: Scan, all: seq<Tok>, cs: seq<Cost>, n: Scan, more: seq<Tok>, prices: seq<Cost>, l: int)
    requires Priced(all, cs) && KeysAt(b, s, all, cs) && AllPaid(more, prices) && n.taken == s.taken <= |all| && s.pointer <= n.pointer <= |b|
    requires l in n.keys && (OldKey(s, n, more, l) || NewKey(b, s, n, all, more, l))
    ensures KeyAt(b, n, all + more, l, n.keys[l]) && Apart(n.keys[l], cs + prices)
  {
    var k := n.keys[l];
    FreesEnd(all, cs);
    hide Span, LineAt, ColumnAt, Priced, Least;
    if OldKey(s, n, more, l) {
      assert KeyAt(b, s, all, l, k) && Apart(k, cs);
      assert (all + more)[k.tokenNumber..] == all[k.tokenNumber..] + more;
      SpanConcat(all[k.tokenNumber..], more, 0);
      NewApart(k, cs, prices, |all|);
    } else {
      assert (all + more)[|all|..] == more;
      NewApart(k, cs, prices, |all|);
    }
  }

  lemma FreesEnd(ts: seq<Tok>, cs: seq<Cost>)
    requires Priced(ts, cs)
    ensures forall i :: 0 <= i < |cs| && cs[i].Free? ==> i + cs[i].reach < |ts|
  {
    forall i | 0 <= i < |cs| && cs[i].Free? ensures i + cs[i].reach < |ts| {
      assert CostOk(ts, i, cs[i]);
    }
  }

  lemma NewApart(k: SimpleKey, cs: seq<Cost>, prices: seq<Cost>, n: nat)
    requires n == |cs| && (forall i :: 0 <= i < |prices| ==> prices[i].Paid?)
    requires (k.tokenNumber < n && Apart(k, cs)) || (k.tokenNumber == n && forall i :: 0 <= i < |cs| && cs[i].Free? ==> i + cs[i].reach < n)
    ensures Apart(k, cs + prices)
  {
  }

  // --- what a step spends

  lemma PurseGrows(b: seq<char>, p: nat, q: nat)
    requires p <= q <= |b|
    ensures Purse(b, p) + (q - p) <= Purse(b, q)
    ensures p < q && b[p] == '?' ==> Purse(b, p) + 2 <= Purse(b, q)
  {
    QuestionsGrow(b, p, q);
    if p < q {
      QuestionsGrow(b, p + 1, q);
    }
  }

  lemma SumOne(cs: seq<Cost>, c: Cost)
    ensures Sum(cs + [c]) == Sum(cs) + Width(c) && Sum([c]) == Width(c)
  {
    assert (cs + [c])[..|cs|] == cs && [c][..0] == [];
  }

  function Nothing(n: nat): (cs: seq<Cost>)
    ensures |cs| == n && forall i :: 0 <= i < n ==> cs[i] == Paid(0)
    ensures Sum(cs) == 0
  {
    if n == 0 then []
    else
      SumOne(Nothing(n - 1), Paid(0));
      Nothing(n - 1) + [Paid(0)]
  }

  /** Tokens that are no brackets, the key of this level being given up: one is
      paid for, those before it are free. */
  lemma PlainPushed(b: seq<char>, s: Scan, all: seq<Tok>, cs: seq<Cost>, n: Scan, starts: seq<Tok>, tok: Tok) returns (all2: seq<Tok>, cs2: seq<Cost>)
    requires Afford(b, s, all, cs)
    requires n.taken == s.taken && n.tokens == s.tokens + starts + [tok] && n.flowLevel == s.flowLevel
    requires s.flowLevel != 0 ==> n.indent == s.indent
    requires forall l :: l in n.keys ==> l in s.keys && n.keys[l] == s.keys[l] && l != s.flowLevel
    requires Plain(tok) && forall i :: 0 <= i < |starts| ==> Plain(starts[i]) && Least(starts[i]) == 0
    requires s.pointer <= n.pointer <= |b| && Purse(b, s.pointer) + Least(tok) <= Purse(b, n.pointer)
    ensures Afford(b, n, all2, cs2) && s.taken <= |all2| && all2[..s.taken] == all[..s.taken]
  {
    hide Purse, Least, Sum, Plain, Priced, Span, LineAt, ColumnAt, Apart;
    var more, prices := starts + [tok], Nothing(|starts|) + [Paid(Least(tok))];
    SumOne(Nothing(|starts|), Paid(Least(tok)));
    assert n.tokens == s.tokens + more;
    forall l | l in n.keys ensures OldKey(s, n, more, l) {
      assert KeyAt(b, s, all, l, s.keys[l]);
      SpanInside(more, s.flowLevel - l);
    }
    all2, cs2 := all + more, cs + prices;
    Pushed(b, s, all, cs, n, more, prices);
  }

  /** A node's first token, or a flow collection's, which a key may be saved for. */
  lemma NodePushed(b: seq<char>, s: Scan, all: seq<Tok>, cs: seq<Cost>, n: Scan, tok: Tok) returns (all2: seq<Tok>, cs2: seq<Cost>)
    requires Afford(b, s, all, cs) && Saved(b, s).Ok? && n.keys == Saved(b, s).value.keys
    requires s.flowLevel == 0 ==> s.indent <= ColumnAt(b, s.pointer)
    requires n.taken == s.taken && n.tokens == s.tokens + [tok] && n.indent == s.indent
    requires if Opens(tok) then n.flowLevel == s.flowLevel + 1 else Leafy(tok) && n.flowLevel == s.flowLevel
    requires s.pointer < n.pointer <= |b|
    ensures Afford(b, n, all2, cs2) && s.taken <= |all2| && all2[..s.taken] == all[..s.taken]
  {
    hide Purse, Sum, Priced, Span, LineAt, ColumnAt, Apart;
    var more, prices := [tok], [Paid(1)];
    SumOne([], Paid(1));
    assert [] + [Paid(1)] == prices;
    PurseGrows(b, s.pointer, n.pointer);
    forall l | l in n.keys ensures OldKey(s, n, more, l) || NewKey(b, s, n, all, more, l) {
      NodeKey(b, s, all, cs, n, tok, l);
    }
    all2, cs2 := all + more, cs + prices;
    Pushed(b, s, all, cs, n, more, prices);
  }

  lemma NodeKey(b: seq<char>, s: Scan, all: seq<Tok>, cs: seq<Cost>, n: Scan, tok: Tok, l: int)
    requires Afford(b, s, all, cs) && Saved(b, s).Ok? && n.keys == Saved(b, s).value.keys && l in n.keys
    requires s.flowLevel == 0 ==> s.indent <= ColumnAt(b, s.pointer)
    requires n.taken == s.taken && n.indent == s.indent && s.pointer < n.pointer <= |b|
    requires if Opens(tok) then n.flowLevel == s.flowLevel + 1 else Leafy(tok) && n.flowLevel == s.flowLevel
    ensures OldKey(s, n, [tok], l) || NewKey(b, s, n, all, [tok], l)
  {
    hide Purse, Sum, Priced, Span, LineAt, ColumnAt, Apart;
    forall m | m in s.keys ensures m <= s.flowLevel {
      assert KeyAt(b, s, all, m, s.keys[m]);
    }
    if s.allow && l == s.flowLevel {
      SpanOne(tok, 0);
      assert n.keys[l] == KeyHere(b, s);
    } else {
      assert KeyAt(b, s, all, l, s.keys[l]);
      SpanOne(tok, s.flowLevel - l);
    }
  }

  /** The end of a flow collection, the keys in it given up. */
  lemma ClosePushed(b: seq<char>, s: Scan, all: seq<Tok>, cs: seq<Cost>, n: Scan, tok: Tok) returns (all2: seq<Tok>, cs2: seq<Cost>)
    requires Afford(b, s, all, cs) && n.keys == s.keys - {s.flowLevel} && Closes(tok)
    requires n.taken == s.taken && n.tokens == s.tokens + [tok] && n.indent == s.indent && n.flowLevel == s.flowLevel - 1
    requires s.pointer < n.pointer <= |b|
    ensures Afford(b, n, all2, cs2) && s.taken <= |all2| && all2[..s.taken] == all[..s.taken]
  {
    hide Purse, Sum, Priced, Span, LineAt, ColumnAt, Apart;
    var more, prices := [tok], [Paid(1)];
    SumOne([], Paid(1));
    assert [] + [Paid(1)] == prices;
    PurseGrows(b, s.pointer, n.pointer);
    forall l | l in n.keys ensures OldKey(s, n, more, l) {
      assert KeyAt(b, s, all, l, s.keys[l]);
      SpanOne(tok, s.flowLevel - l);
    }
    all2, cs2 := all + more, cs + prices;
    Pushed(b, s, all, cs, n, more, prices);
  }

  /** Fewer keys, and a place further on, spend nothing. */
  lemma LessAffords(b: seq<char>, s: Scan, all: seq<Tok>, cs: seq<Cost>, n: Scan)
    requires Afford(b, s, all, cs)
    requires n.taken == s.taken && n.tokens == s.tokens && n.flowLevel == s.flowLevel && n.indent == s.indent
    requires s.pointer <= n.pointer <= |b| && forall l :: l in n.keys ==> l in s.keys && n.keys[l] == s.keys[l]
    ensures Afford(b, n, all, cs)
  {
    hide Sum, Priced, Span, LineAt, ColumnAt, Apart;
    PurseGrows(b, s.pointer, n.pointer);
    hide Purse;
    forall l | l in n.keys ensures KeyAt(b, n, all, l, n.keys[l]) && Apart(n.keys[l], cs) {
      assert KeyAt(b, s, all, l, s.keys[l]);
    }
  }

  lemma {:induction false} UnwoundEnds(s: Scan, column: int) returns (ends: seq<Tok>)
    ensures Unwound(s, column).tokens == s.tokens + ends && forall i :: 0 <= i < |ends| ==> ends[i].BlockEnd?
    ensures s.flowLevel != 0 ==> Unwound(s, column) == s
    decreases |s.indents|
  {
    if s.flowLevel != 0 || s.indent <= column || s.indents == [] {
      ends := [];
      assert s.tokens + [] == s.tokens;
    } else {
      var last := |s.indents| - 1;
      var t := s.(indent := s.indents[last], indents := s.indents[..last], tokens := s.tokens + [Tok.BlockEnd]);
      ends := UnwoundEnds(t, column);
      ends := [Tok.BlockEnd] + ends;
      assert t.tokens + ends[1..] == s.tokens + ends;
    }
  }

  lemma {:induction false} ColumnsGrow(b: seq<char>, p: nat, q: nat)
    requires p <= q <= |b| && LineAt(b, p) == LineAt(b, q)
    ensures ColumnAt(b, p) <= ColumnAt(b, q)
    decreases q - p
  {
    if p < q {
      LinesGrow(b, p, q - 1);
      LinesGrow(b, q - 1, q);
      ColumnsGrow(b, p, q - 1);
    }
  }

  // --- a key made one

  lemma {:induction false} SpanLift(ts: seq<Tok>, d: nat)
    requires Span(ts, 0).Some?
    ensures Span(ts, d) == Some(d + Span(ts, 0).value)
    decreases |ts|
  {
    if ts != [] {
      SpanLift(ts[..|ts| - 1], d);
    }
  }

  /** The tokens of a key further out, with more of them inside it. */
  lemma SpanWith(ts: seq<Tok>, n: nat, starts: seq<Tok>, depth: nat)
    requires n <= |ts| && Span(ts, 0) == Some(depth) && depth > 0 && Span(ts[n..], 0) == Some(0)
    requires forall i :: 0 <= i < |starts| ==> Plain(starts[i])
    ensures Span(ts[..n] + starts + ts[n..] + [Tok.Value], 0) == Some(depth)
  {
    var front, back := ts[..n], ts[n..];
    hide Span, Plain;
    assert ts == front + back;
    SpanConcat(front, back, 0);
    var d := Span(front, 0).value;
    SpanLift(back, d);
    SpanConcat(front, starts, 0);
    SpanInside(starts, d);
    SpanConcat(front + starts, back, 0);
    SpanConcat(front + starts + back, [Tok.Value], 0);
    SpanOne(Tok.Value, depth);
    assert Plain(Tok.Value) by { PlainValue(); }
  }

  lemma PlainValue()
    ensures Plain(Tok.Value) && Plain(Tok.Key) && Plain(Tok.BlockMappingStart)
  {
  }

  /** The tokens after the insertion, and what they cost. */
  function Inserted(all: seq<Tok>, t: nat, starts: seq<Tok>): seq<Tok>
    requires t <= |all|
  {
    all[..t] + starts + ([Tok.Key] + all[t..] + [Tok.Value])
  }

  function InsertedCosts(cs: seq<Cost>, t: nat, n: nat): seq<Cost>
    requires t <= |cs|
  {
    cs[..t] + Nothing(n) + ([Free(|cs| - t + 1)] + cs[t..] + [Paid(1)])
  }

  lemma InsertedPriced(all: seq<Tok>, cs: seq<Cost>, t: nat, starts: seq<Tok>)
    requires Priced(all, cs) && t < |all| && Span(all[t..], 0) == Some(0)
    requires forall i :: 0 <= i < t && cs[i].Free? ==> i + cs[i].reach < t
    requires forall i :: 0 <= i < |starts| ==> Least(starts[i]) == 0
    ensures Priced(Inserted(all, t, starts), InsertedCosts(cs, t, |starts|))
    ensures Sum(InsertedCosts(cs, t, |starts|)) == Sum(cs) + 1
  {
    hide CostOk, Span, Least;
    PricedSplit(all, cs, t);
    PricedKey(all[t..], cs[t..]);
    PaidPriced(starts, Nothing(|starts|));
    PricedConcat(all[..t], cs[..t], starts, Nothing(|starts|));
    var key := [Free(|cs| - t + 1)] + cs[t..] + [Paid(1)];
    PricedConcat(all[..t] + starts, cs[..t] + Nothing(|starts|), [Tok.Key] + all[t..] + [Tok.Value], key);
    hide Priced;
    SumConcat(cs[..t], cs[t..]);
    assert cs == cs[..t] + cs[t..];
    SumConcat(cs[..t], Nothing(|starts|));
    SumConcat(cs[..t] + Nothing(|starts|), key);
    SumOne([Free(|cs| - t + 1)] + cs[t..], Paid(1));
    SumConcat([Free(|cs| - t + 1)], cs[t..]);
    SumOne([], Free(|cs| - t + 1));
    assert [] + [Free(|cs| - t + 1)] == [Free(|cs| - t + 1)];
  }

  lemma OuterKey(b: seq<char>, s: Scan, all: seq<Tok>, cs: seq<Cost>, n: Scan, starts: seq<Tok>, l: int)
    requires KeysAt(b, s, all, cs) && |cs| == |all| && s.flowLevel in s.keys && l in s.keys && l != s.flowLevel
    requires n.taken == s.taken && n.flowLevel == s.flowLevel && s.pointer <= n.pointer <= |b| && (s.flowLevel != 0 ==> n.indent == s.indent)
    requires forall i :: 0 <= i < |starts| ==> Plain(starts[i])
    ensures var t := s.keys[s.flowLevel].tokenNumber;
            t <= |all| && KeyAt(b, n, Inserted(all, t, starts), l, s.keys[l]) && Apart(s.keys[l], InsertedCosts(cs, t, |starts|))
  {
    hide Span, LineAt, ColumnAt, Plain;
    var k, t := s.keys[l], s.keys[s.flowLevel].tokenNumber;
    assert KeyAt(b, s, all, l, k) && KeyAt(b, s, all, s.flowLevel, s.keys[s.flowLevel]);
    var ts := all[k.tokenNumber..];
    var at := t - k.tokenNumber;
    assert ts[at..] == all[t..] && ts[..at] == all[k.tokenNumber..t];
    PlainValue();
    SpanWith(ts, at, starts + [Tok.Key], s.flowLevel - l);
    assert Inserted(all, t, starts)[k.tokenNumber..] == ts[..at] + (starts + [Tok.Key]) + ts[at..] + [Tok.Value];
    assert Apart(k, cs);
    OuterApart(k, cs, t, |starts|);
  }

  lemma OuterApart(k: SimpleKey, cs: seq<Cost>, t: nat, n: nat)
    requires Apart(k, cs) && k.tokenNumber < t <= |cs|
    ensures Apart(k, InsertedCosts(cs, t, n))
  {
    var all := InsertedCosts(cs, t, n);
    forall i | 0 <= i < |all| && all[i].Free? ensures k.tokenNumber <= i || i + all[i].reach < k.tokenNumber {
      if i < t {
        assert all[i] == cs[i];
      }
    }
  }

  /** A `:` that makes the key saved at its level one. */
  lemma KeyAffords(b: seq<char>, s: Scan, all: seq<Tok>, cs: seq<Cost>) returns (all2: seq<Tok>, cs2: seq<Cost>)
    requires Afford(b, s, all, cs) && s.pointer < |b| && s.flowLevel in s.keys && FetchedValue(b, s).Ok?
    ensures Afford(b, FetchedValue(b, s).value, all2, cs2) && s.taken <= |all2| && all2[..s.taken] == all[..s.taken]
  {
    hide Purse, Sum, Span, LineAt, ColumnAt, Apart, Priced;
    var n, key := FetchedValue(b, s).value, s.keys[s.flowLevel];
    var t, starts := key.tokenNumber, Opening(Tok.BlockMappingStart, s.flowLevel, s.indent, key.column);
    assert KeyAt(b, s, all, s.flowLevel, key) && Apart(key, cs);
    KeyEnds(key, all, cs);
    all2, cs2 := Inserted(all, t, starts), InsertedCosts(cs, t, |starts|);
    InsertedPriced(all, cs, t, starts);
    PurseGrows(b, s.pointer, s.pointer + 1);
    InsertedQueue(all, s.taken, t, starts);
    PlainValue();
    forall l | l in n.keys ensures KeyAt(b, n, all2, l, n.keys[l]) && Apart(n.keys[l], cs2) {
      OuterKey(b, s, all, cs, n, starts, l);
    }
  }

  lemma KeyEnds(k: SimpleKey, all: seq<Tok>, cs: seq<Cost>)
    requires Apart(k, cs) && Priced(all, cs)
    ensures |cs| == |all| && forall i :: 0 <= i < k.tokenNumber && i < |cs| && cs[i].Free? ==> i + cs[i].reach < k.tokenNumber
  {
    hide CostOk;
  }

  lemma InsertedQueue(all: seq<Tok>, taken: nat, t: nat, starts: seq<Tok>)
    requires taken <= t <= |all|
    ensures var queue, at := all[taken..], t - taken;
            Inserted(all, t, starts)[taken..] == queue[..at] + (starts + [Tok.Key]) + queue[at..] + [Tok.Value]
    ensures Inserted(all, t, starts)[..taken] == all[..taken]
  {
  }

  // --- fetches

  /** The blocks ended before a token that gives up the key of its level. */
  lemma EndsAfford(b: seq<char>, s: Scan, all: seq<Tok>, cs: seq<Cost>, n: Scan, tok: Tok) returns (all2: seq<Tok>, cs2: seq<Cost>)
    requires Afford(b, s, all, cs) && Plain(tok)
    requires var u := Unwound(s, -1); n == u.(tokens := u.tokens + [tok], pointer := n.pointer, allow := n.allow, keys := n.keys, done := n.done)
    requires forall l :: l in n.keys ==> l in s.keys && n.keys[l] == s.keys[l] && l != s.flowLevel
    requires s.pointer <= n.pointer <= |b| && Purse(b, s.pointer) + Least(tok) <= Purse(b, n.pointer)
    ensures Afford(b, n, all2, cs2) && s.taken <= |all2| && all2[..s.taken] == all[..s.taken]
  {
    hide Afford, Purse;
    var ends := UnwoundEnds(s, -1);
    all2, cs2 := PlainPushed(b, s, all, cs, n, ends, tok);
  }

  lemma StreamEndAffords(b: seq<char>, s: Scan, all: seq<Tok>, cs: seq<Cost>) returns (all2: seq<Tok>, cs2: seq<Cost>)
    requires Afford(b, s, all, cs) && FetchedStreamEnd(s).Ok?
    ensures Afford(b, FetchedStreamEnd(s).value, all2, cs2) && s.taken <= |all2| && all2[..s.taken] == all[..s.taken]
  {
    all2, cs2 := EndsAfford(b, s, all, cs, FetchedStreamEnd(s).value, Tok.StreamEnd);
  }

  lemma DirectiveAffords(b: seq<char>, s: Scan, all: seq<Tok>, cs: seq<Cost>) returns (all2: seq<Tok>, cs2: seq<Cost>)
    requires Afford(b, s, all, cs) && FetchedDirective(b, s).Ok? && FetchedDirective(b, s).value.pointer <= |b|
    ensures Afford(b, FetchedDirective(b, s).value, all2, cs2) && s.taken <= |all2| && all2[..s.taken] == all[..s.taken]
  {
    DirectiveMoves(b, s.pointer);
    hide Afford, Purse, Unwound, L.DirectiveAt;
    var n := FetchedDirective(b, s).value;
    assert s.pointer <= |b| by { AffordPlace(b, s, all, cs); }
    PurseGrows(b, s.pointer, n.pointer);
    all2, cs2 := EndsAfford(b, s, all, cs, n, n.tokens[|n.tokens| - 1]);
  }

  lemma DirectiveMoves(b: seq<char>, p: nat)
    ensures L.DirectiveAt(b, p).Ok? ==> L.DirectiveAt(b, p).value.next > p
  {
    hide LineEnd, T.Uri, T.Handle;
  }

  lemma AffordPlace(b: seq<char>, s: Scan, all: seq<Tok>, cs: seq<Cost>)
    requires Afford(b, s, all, cs)
    ensures s.pointer <= |b|
  {
  }

  lemma IndicatorAffords(b: seq<char>, s: Scan, all: seq<Tok>, cs: seq<Cost>, tok: Tok) returns (all2: seq<Tok>, cs2: seq<Cost>)
    requires Afford(b, s, all, cs) && FetchedIndicator(s, tok).Ok? && s.pointer + 3 <= |b| && (tok.DocumentStart? || tok.DocumentEnd?)
    ensures Afford(b, FetchedIndicator(s, tok).value, all2, cs2) && s.taken <= |all2| && all2[..s.taken] == all[..s.taken]
  {
    hide Afford, Purse, Unwound;
    PurseGrows(b, s.pointer, s.pointer + 3);
    all2, cs2 := EndsAfford(b, s, all, cs, FetchedIndicator(s, tok).value, tok);
  }

  /** A token with the start of a block before it, or not. */
  lemma OpenedAffords(b: seq<char>, s: Scan, all: seq<Tok>, cs: seq<Cost>, n: Scan, start: Tok, column: int, tok: Tok)
    returns (all2: seq<Tok>, cs2: seq<Cost>)
    requires Afford(b, s, all, cs) && s.pointer < |b| && (start.BlockSequenceStart? || start.BlockMappingStart?) && Plain(tok)
    requires n == Queued(Deeper(s, column).(tokens := s.tokens + Opening(start, s.flowLevel, s.indent, column), keys := n.keys), tok, s.pointer + 1, n.allow)
    requires forall l :: l in n.keys ==> l in s.keys && n.keys[l] == s.keys[l] && l != s.flowLevel
    requires Least(tok) == 1 || (Least(tok) == 2 && b[s.pointer] == '?')
    ensures Afford(b, n, all2, cs2) && s.taken <= |all2| && all2[..s.taken] == all[..s.taken]
  {
    hide Afford, Purse, ColumnAt;
    PurseGrows(b, s.pointer, s.pointer + 1);
    all2, cs2 := PlainPushed(b, s, all, cs, n, Opening(start, s.flowLevel, s.indent, column), tok);
  }

  lemma StructureAffords(b: seq<char>, s: Scan, all: seq<Tok>, cs: seq<Cost>) returns (all2: seq<Tok>, cs2: seq<Cost>)
    requires Afford(b, s, all, cs) && s.pointer < |b| && DispatchedStructure(b, s).Ok? && DispatchedStructure(b, s).value.pointer <= |b|
    requires s.flowLevel == 0 ==> s.indent <= ColumnAt(b, s.pointer)
    ensures Afford(b, DispatchedStructure(b, s).value, all2, cs2) && s.taken <= |all2| && all2[..s.taken] == all[..s.taken]
  {
    hide Afford, Purse, ColumnAt, DispatchedNode, Saved, Opened;
    var n, c, blank := DispatchedStructure(b, s).value, CharAt(b, s.pointer), BlankzTab(CharAt(b, s.pointer + 1));
    if c == '[' || c == '{' {
      all2, cs2 := NodePushed(b, s, all, cs, n, if c == '[' then Tok.FlowSequenceStart else Tok.FlowMappingStart);
    } else if c == ']' || c == '}' {
      all2, cs2 := ClosePushed(b, s, all, cs, n, if c == ']' then Tok.FlowSequenceEnd else Tok.FlowMappingEnd);
    } else if c == ',' {
      PurseGrows(b, s.pointer, s.pointer + 1);
      assert s.tokens + [] == s.tokens;
      all2, cs2 := PlainPushed(b, s, all, cs, n, [], Tok.FlowEntry);
    } else if c == '-' && blank {
      all2, cs2 := EntryAffords(b, s, all, cs);
    } else if c == '?' && (s.flowLevel != 0 || blank) {
      all2, cs2 := QuestionAffords(b, s, all, cs);
    } else if c == ':' && (s.flowLevel != 0 || blank) {
      if s.flowLevel in s.keys {
        all2, cs2 := KeyAffords(b, s, all, cs);
      } else {
        all2, cs2 := ColonAffords(b, s, all, cs);
      }
    } else {
      all2, cs2 := NodeAffords(b, s, all, cs);
    }
  }

  lemma EntryAffords(b: seq<char>, s: Scan, all: seq<Tok>, cs: seq<Cost>) returns (all2: seq<Tok>, cs2: seq<Cost>)
    requires Afford(b, s, all, cs) && s.pointer < |b| && FetchedBlockEntry(b, s).Ok?
    ensures Afford(b, FetchedBlockEntry(b, s).value, all2, cs2) && s.taken <= |all2| && all2[..s.taken] == all[..s.taken]
  {
    hide Afford, ColumnAt;
    all2, cs2 := OpenedAffords(b, s, all, cs, FetchedBlockEntry(b, s).value, Tok.BlockSequenceStart, ColumnAt(b, s.pointer), Tok.BlockEntry);
  }

  lemma QuestionAffords(b: seq<char>, s: Scan, all: seq<Tok>, cs: seq<Cost>) returns (all2: seq<Tok>, cs2: seq<Cost>)
    requires Afford(b, s, all, cs) && s.pointer < |b| && b[s.pointer] == '?' && FetchedKey(b, s).Ok?
    ensures Afford(b, FetchedKey(b, s).value, all2, cs2) && s.taken <= |all2| && all2[..s.taken] == all[..s.taken]
  {
    hide Afford, ColumnAt;
    all2, cs2 := OpenedAffords(b, s, all, cs, FetchedKey(b, s).value, Tok.BlockMappingStart, ColumnAt(b, s.pointer), Tok.Key);
  }

  lemma ColonAffords(b: seq<char>, s: Scan, all: seq<Tok>, cs: seq<Cost>) returns (all2: seq<Tok>, cs2: seq<Cost>)
    requires Afford(b, s, all, cs) && s.pointer < |b| && s.flowLevel !in s.keys && FetchedValue(b, s).Ok?
    ensures Afford(b, FetchedValue(b, s).value, all2, cs2) && s.taken <= |all2| && all2[..s.taken] == all[..s.taken]
  {
    hide Afford, ColumnAt;
    all2, cs2 := OpenedAffords(b, s, all, cs, FetchedValue(b, s).value, Tok.BlockMappingStart, ColumnAt(b, s.pointer), Tok.Value);
  }

  lemma NodeAffords(b: seq<char>, s: Scan, all: seq<Tok>, cs: seq<Cost>) returns (all2: seq<Tok>, cs2: seq<Cost>)
    requires Afford(b, s, all, cs) && s.pointer < |b| && DispatchedNode(b, s).Ok? && DispatchedNode(b, s).value.pointer <= |b|
    requires s.flowLevel == 0 ==> s.indent <= ColumnAt(b, s.pointer)
    ensures Afford(b, DispatchedNode(b, s).value, all2, cs2) && s.taken <= |all2| && all2[..s.taken] == all[..s.taken]
  {
    hide Afford, ColumnAt, FetchedAnchor, FetchedTag, FetchedBlockScalar, FetchedFlowScalar, FetchedPlain, PlainAt;
    var c := CharAt(b, s.pointer);
    if c == '*' || c == '&' {
      all2, cs2 := AnchorAffords(b, s, all, cs, c == '*');
    } else if c == '!' {
      all2, cs2 := TagAffords(b, s, all, cs);
    } else if (c == '|' || c == '>') && s.flowLevel == 0 {
      all2, cs2 := BlockAffords(b, s, all, cs, c == '>');
    } else if c == '\'' || c == '"' {
      all2, cs2 := QuotedAffords(b, s, all, cs, c == '"');
    } else {
      all2, cs2 := PlainAffords(b, s, all, cs);
    }
  }

  lemma AnchorAffords(b: seq<char>, s: Scan, all: seq<Tok>, cs: seq<Cost>, alias: bool) returns (all2: seq<Tok>, cs2: seq<Cost>)
    requires Afford(b, s, all, cs) && s.pointer < |b| && FetchedAnchor(b, s, alias).Ok? && FetchedAnchor(b, s, alias).value.pointer <= |b|
    requires s.flowLevel == 0 ==> s.indent <= ColumnAt(b, s.pointer)
    ensures Afford(b, FetchedAnchor(b, s, alias).value, all2, cs2) && s.taken <= |all2| && all2[..s.taken] == all[..s.taken]
  {
    var n := FetchedAnchor(b, s, alias).value;
    assert n.pointer > s.pointer;
    hide Afford, ColumnAt, Saved, L.NameAt;
    all2, cs2 := NodePushed(b, s, all, cs, n, n.tokens[|n.tokens| - 1]);
  }

  lemma TagAffords(b: seq<char>, s: Scan, all: seq<Tok>, cs: seq<Cost>) returns (all2: seq<Tok>, cs2: seq<Cost>)
    requires Afford(b, s, all, cs) && s.pointer < |b| && FetchedTag(b, s).Ok? && FetchedTag(b, s).value.pointer <= |b|
    requires s.flowLevel == 0 ==> s.indent <= ColumnAt(b, s.pointer)
    ensures Afford(b, FetchedTag(b, s).value, all2, cs2) && s.taken <= |all2| && all2[..s.taken] == all[..s.taken]
  {
    TagMoves(b, s.pointer);
    hide Afford, ColumnAt, Saved, T.TagAt;
    var n := FetchedTag(b, s).value;
    all2, cs2 := NodePushed(b, s, all, cs, n, n.tokens[|n.tokens| - 1]);
  }

  lemma TagMoves(b: seq<char>, p: nat)
    ensures T.TagAt(b, p).Ok? ==> T.TagAt(b, p).value.next > p
  {
    hide T.Uri, T.Handle, T.BangAhead;
  }

  lemma BlockAffords(b: seq<char>, s: Scan, all: seq<Tok>, cs: seq<Cost>, folded: bool) returns (all2: seq<Tok>, cs2: seq<Cost>)
    requires Afford(b, s, all, cs) && s.pointer < |b| && FetchedBlockScalar(b, s, folded).Ok?
    ensures Afford(b, FetchedBlockScalar(b, s, folded).value, all2, cs2) && s.taken <= |all2| && all2[..s.taken] == all[..s.taken]
  {
    BlockMoves(b, s, folded);
    hide Afford, Purse, O.Block;
    var n := FetchedBlockScalar(b, s, folded).value;
    PurseGrows(b, s.pointer, n.pointer);
    assert s.tokens + [] == s.tokens;
    all2, cs2 := PlainPushed(b, s, all, cs, n, [], n.tokens[|n.tokens| - 1]);
  }

  lemma BlockMoves(b: seq<char>, s: Scan, folded: bool)
    ensures FetchedBlockScalar(b, s, folded).Ok? ==> s.pointer < FetchedBlockScalar(b, s, folded).value.pointer <= |b|
  {
    hide O.BlockBody, O.HeaderAt, L.RestOfLine;
  }

  lemma QuotedAffords(b: seq<char>, s: Scan, all: seq<Tok>, cs: seq<Cost>, double: bool) returns (all2: seq<Tok>, cs2: seq<Cost>)
    requires Afford(b, s, all, cs) && s.pointer < |b| && FetchedFlowScalar(b, s, double).Ok?
    requires s.flowLevel == 0 ==> s.indent <= ColumnAt(b, s.pointer)
    ensures Afford(b, FetchedFlowScalar(b, s, double).value, all2, cs2) && s.taken <= |all2| && all2[..s.taken] == all[..s.taken]
  {
    hide Afford, ColumnAt, Saved, F.Body;
    var n := FetchedFlowScalar(b, s, double).value;
    all2, cs2 := NodePushed(b, s, all, cs, n, n.tokens[|n.tokens| - 1]);
  }

  lemma PlainAffords(b: seq<char>, s: Scan, all: seq<Tok>, cs: seq<Cost>) returns (all2: seq<Tok>, cs2: seq<Cost>)
    requires Afford(b, s, all, cs) && s.pointer < |b| && PlainAt(b, s.pointer, s.flowLevel) && FetchedPlain(b, s).Ok?
    requires s.flowLevel == 0 ==> s.indent <= ColumnAt(b, s.pointer)
    ensures Afford(b, FetchedPlain(b, s).value, all2, cs2) && s.taken <= |all2| && all2[..s.taken] == all[..s.taken]
  {
    PlainMoves(b, s.pointer, s.flowLevel, s.indent + 1);
    hide Afford, ColumnAt, Saved, O.Plain;
    var n := FetchedPlain(b, s).value;
    all2, cs2 := NodePushed(b, s, all, cs, n, n.tokens[|n.tokens| - 1]);
  }

  lemma PlainMoves(b: seq<char>, p: nat, flowLevel: int, indent: int)
    requires p < |b| && PlainAt(b, p, flowLevel)
    ensures O.Plain(b, p, flowLevel, indent).next > p
  {
    hide O.BetweenLines, O.GoesOn;
    assert b[p] != '#' && !O.Stops(b, p, flowLevel);
  }

  // --- a whole fetch, and a whole walk

  lemma DispatchAffords(b: seq<char>, s: Scan, all: seq<Tok>, cs: seq<Cost>) returns (all2: seq<Tok>, cs2: seq<Cost>)
    requires Afford(b, s, all, cs) && Dispatched(b, s).Ok? && Dispatched(b, s).value.pointer <= |b|
    requires s.flowLevel == 0 ==> s.indent <= ColumnAt(b, s.pointer)
    ensures Afford(b, Dispatched(b, s).value, all2, cs2) && s.taken <= |all2| && all2[..s.taken] == all[..s.taken]
  {
    AffordPlace(b, s, all, cs);
    hide Afford, ColumnAt, FetchedStreamEnd, FetchedDirective, DispatchedStructure;
    var c := CharAt(b, s.pointer);
    var first := ColumnAt(b, s.pointer) == 0;
    if c == '\0' {
      all2, cs2 := StreamEndAffords(b, s, all, cs);
    } else if c == '%' && first {
      all2, cs2 := DirectiveAffords(b, s, all, cs);
    } else if first && IndicatorAt(b, s.pointer, "---") {
      all2, cs2 := IndicatorAffords(b, s, all, cs, Tok.DocumentStart);
    } else if first && IndicatorAt(b, s.pointer, "...") {
      all2, cs2 := IndicatorAffords(b, s, all, cs, Tok.DocumentEnd);
    } else {
      all2, cs2 := StructureAffords(b, s, all, cs);
    }
  }

  /** The blocks deeper than the next token's column are ended: there are none
      while a key at the outermost level is on its line. */
  lemma UnwoundAffords(b: seq<char>, s: Scan, all: seq<Tok>, cs: seq<Cost>) returns (all2: seq<Tok>, cs2: seq<Cost>)
    requires Afford(b, s, all, cs) && IndentsOk(s.indents, s.indent)
    requires forall l :: l in s.keys ==> s.keys[l].line == LineAt(b, s.pointer)
    ensures var u := Unwound(s, ColumnAt(b, s.pointer));
            && Afford(b, u, all2, cs2) && s.taken <= |all2| && all2[..s.taken] == all[..s.taken]
            && (s.flowLevel == 0 ==> u.indent <= ColumnAt(b, s.pointer))
  {
    var column := ColumnAt(b, s.pointer);
    UnwoundIs(s, column);
    var ends := UnwoundEnds(s, column);
    if s.flowLevel == 0 && 0 in s.keys {
      assert KeyAt(b, s, all, 0, s.keys[0]);
      ColumnsGrow(b, s.keys[0].index, s.pointer);
      assert Unwound(s, column) == s;
      all2, cs2 := all, cs;
    } else {
      hide Afford, ColumnAt, LineAt, IndentsOk;
      all2, cs2 := EndedAffords(b, s, all, cs, Unwound(s, column), ends);
    }
  }

  lemma EndedAffords(b: seq<char>, s: Scan, all: seq<Tok>, cs: seq<Cost>, n: Scan, ends: seq<Tok>) returns (all2: seq<Tok>, cs2: seq<Cost>)
    requires Afford(b, s, all, cs) && n == s.(indent := n.indent, indents := n.indents, tokens := s.tokens + ends)
    requires forall i :: 0 <= i < |ends| ==> ends[i].BlockEnd?
    requires s.flowLevel != 0 ==> n == s
    requires s.flowLevel == 0 ==> 0 !in s.keys
    ensures Afford(b, n, all2, cs2) && s.taken <= |all2| && all2[..s.taken] == all[..s.taken]
  {
    if s.flowLevel != 0 {
      all2, cs2 := all, cs;
    } else {
      hide Purse, Priced, Span, LineAt, ColumnAt, Apart, Sum;
      forall l | l in n.keys ensures OldKey(s, n, ends, l) {
        assert KeyAt(b, s, all, l, s.keys[l]);
        SpanInside(ends, s.flowLevel - l);
      }
      all2, cs2 := all + ends, cs + Nothing(|ends|);
      Pushed(b, s, all, cs, n, ends, Nothing(|ends|));
    }
  }

  lemma FetchAffords(b: seq<char>, s: Scan, all: seq<Tok>, cs: seq<Cost>) returns (all2: seq<Tok>, cs2: seq<Cost>)
    requires Afford(b, s, all, cs) && IndentsOk(s.indents, s.indent) && Fetched(b, s).Ok? && Fetched(b, s).value.pointer <= |b|
    ensures Afford(b, Fetched(b, s).value, all2, cs2) && s.taken <= |all2| && all2[..s.taken] == all[..s.taken]
  {
    hide Dispatched, IndentsOk, ColumnAt, LineAt, NextToken, Afford;
    var next := AtNext(b, s);
    var at := Staled(b, next).value;
    LessAffords(b, s, all, cs, at);
    all2, cs2 := UnwoundAffords(b, at, all, cs);
    var all3, cs3 := DispatchAffords(b, Unwound(at, ColumnAt(b, at.pointer)), all2, cs2);
    all2, cs2 := all3, cs3;
  }

  // --- the indentation stays in order

  lemma {:induction false} UnwoundOrdered(s: Scan, column: int)
    requires IndentsOk(s.indents, s.indent)
    ensures IndentsOk(Unwound(s, column).indents, Unwound(s, column).indent)
    decreases |s.indents|
  {
    if s.flowLevel == 0 && s.indent > column && s.indents != [] {
      PopIndent(s.indents, s.indent);
      hide IndentsOk;
      var last := |s.indents| - 1;
      UnwoundOrdered(s.(indent := s.indents[last], indents := s.indents[..last], tokens := s.tokens + [Tok.BlockEnd]), column);
    }
  }

  lemma DeeperOrdered(s: Scan, column: int)
    requires IndentsOk(s.indents, s.indent)
    ensures IndentsOk(Deeper(s, column).indents, Deeper(s, column).indent)
  {
    if s.flowLevel == 0 && s.indent < column {
      PushIndent(s.indents, s.indent, column);
    }
  }

  /** The open blocks in order, and no key once the stream has ended. */
  predicate Sane(s: Scan) {
    IndentsOk(s.indents, s.indent) && (s.done ==> s.keys == map[])
  }

  /** A fetch leaves the taken tokens alone and the state in order. */
  predicate Keeps(s: Scan, r: Result<Scan>) {
    r.Ok? ==> Sane(r.value) && r.value.taken == s.taken
  }

  lemma DispatchSane(b: seq<char>, s: Scan)
    requires Sane(s) && !s.done && s.pointer <= |b|
    ensures Keeps(s, Dispatched(b, s))
  {
    EndsSane(b, s, Tok.DocumentStart);
    EndsSane(b, s, Tok.DocumentEnd);
    StructureSane(b, s);
    hide Keeps, Sane, ColumnAt, IndicatorAt, FetchedStreamEnd, FetchedDirective, FetchedIndicator, DispatchedStructure;
  }

  lemma EndsSane(b: seq<char>, s: Scan, tok: Tok)
    requires Sane(s) && !s.done
    ensures Keeps(s, FetchedStreamEnd(s)) && Keeps(s, FetchedDirective(b, s)) && Keeps(s, FetchedIndicator(s, tok))
  {
    UnwoundOrdered(s, -1);
    hide IndentsOk, Unwound, L.DirectiveAt;
  }

  lemma StructureSane(b: seq<char>, s: Scan)
    requires Sane(s) && !s.done && s.pointer <= |b|
    ensures Keeps(s, DispatchedStructure(b, s))
  {
    FlowSane(b, s, Tok.FlowSequenceStart);
    FlowSane(b, s, Tok.FlowMappingStart);
    FlowSane(b, s, Tok.FlowSequenceEnd);
    FlowSane(b, s, Tok.FlowMappingEnd);
    BlockSane(b, s);
    ValueSane(b, s);
    NodeSane(b, s);
    hide Keeps, Sane, DispatchedNode, FetchedValue, FetchedBlockEntry, FetchedKey, FetchedFlowStart, FetchedFlowEnd, FetchedFlowEntry;
  }

  lemma FlowSane(b: seq<char>, s: Scan, tok: Tok)
    requires Sane(s) && !s.done && s.pointer <= |b|
    ensures Keeps(s, FetchedFlowStart(b, s, tok)) && Keeps(s, FetchedFlowEnd(s, tok)) && Keeps(s, FetchedFlowEntry(s))
  {
    hide IndentsOk, Saved;
  }

  lemma BlockSane(b: seq<char>, s: Scan)
    requires Sane(s) && !s.done && s.pointer <= |b|
    ensures Keeps(s, FetchedBlockEntry(b, s)) && Keeps(s, FetchedKey(b, s))
  {
    DeeperOrdered(s, ColumnAt(b, s.pointer));
    hide IndentsOk, ColumnAt;
  }

  lemma ValueSane(b: seq<char>, s: Scan)
    requires Sane(s) && !s.done && s.pointer <= |b|
    ensures Keeps(s, FetchedValue(b, s))
  {
    DeeperOrdered(s, ColumnAt(b, s.pointer));
    if s.flowLevel in s.keys {
      DeeperOrdered(s, s.keys[s.flowLevel].column);
    }
    hide IndentsOk, ColumnAt;
  }

  lemma NodeSane(b: seq<char>, s: Scan)
    requires Sane(s) && !s.done && s.pointer <= |b|
    ensures Keeps(s, DispatchedNode(b, s))
  {
    hide IndentsOk, O.Plain, O.Block, L.NameAt, T.TagAt, F.Body, PlainAt, Saved;
  }

  lemma FetchSane(b: seq<char>, s: Scan)
    requires Sane(s) && !s.done && Fetched(b, s).Ok?
    ensures Sane(Fetched(b, s).value) && Fetched(b, s).value.taken == s.taken
  {
    hide Dispatched, IndentsOk, ColumnAt, LineAt, NextToken;
    var at := Staled(b, AtNext(b, s)).value;
    UnwoundOrdered(at, ColumnAt(b, at.pointer));
    DispatchSane(b, Unwound(at, ColumnAt(b, at.pointer)));
  }

  // --- whole walks

  lemma {:induction false} FilledAffords(b: seq<char>, s: Scan, all: seq<Tok>, cs: seq<Cost>) returns (all2: seq<Tok>, cs2: seq<Cost>)
    requires Afford(b, s, all, cs) && Sane(s) && s.pointer < |b| && Filled(b, s).Ok?
    ensures var n := Filled(b, s).value;
            && Afford(b, n, all2, cs2) && Sane(n)
            && n.taken == s.taken <= |all2| && all2[..s.taken] == all[..s.taken]
            && (n.tokens != [] ==> n.keys == map[] || !Awaited(n)) && (n.tokens == [] ==> n.done)
    decreases |b| - s.pointer, !s.done
  {
    hide Fetched, Sane, Afford, Lost;
    var needed := Needed(b, s).value;
    StillAffords(b, s, all, cs);
    if needed.0 {
      all2, cs2 := FetchAffords(b, needed.1, all, cs);
      FetchSane(b, needed.1);
      all2, cs2 := FilledAffords(b, Fetched(b, needed.1).value, all2, cs2);
    } else {
      SettledSane(b, s);
      all2, cs2 := all, cs;
    }
  }

  lemma SettledSane(b: seq<char>, s: Scan)
    requires Sane(s) && s.pointer < |b| && Needed(b, s).Ok? && !Needed(b, s).value.0
    ensures var n := Needed(b, s).value.1;
            (n.tokens != [] ==> n.keys == map[] || !Awaited(n)) && (n.tokens == [] ==> n.done)
  {
    hide IndentsOk, Lost;
  }

  lemma StillAffords(b: seq<char>, s: Scan, all: seq<Tok>, cs: seq<Cost>)
    requires Afford(b, s, all, cs) && Sane(s) && s.pointer < |b| && Needed(b, s).Ok?
    ensures var n := Needed(b, s).value.1;
            Afford(b, n, all, cs) && Sane(n) && IndentsOk(n.indents, n.indent) && s.taken <= |all| && (Needed(b, s).value.0 ==> !n.done)
  {
    hide Awaited, Lost, IndentsOk;
    LessAffords(b, s, all, cs, Needed(b, s).value.1);
  }

  /** A settled token is taken: no key awaits it. */
  lemma TookAffords(b: seq<char>, s: Scan, all: seq<Tok>, cs: seq<Cost>)
    requires Afford(b, s, all, cs) && s.tokens != [] && (s.keys == map[] || !Awaited(s))
    ensures Afford(b, Took(s), all, cs) && s.taken < |all| && all[..s.taken + 1] == all[..s.taken] + [s.tokens[0]]
  {
    hide Purse, Priced, Span, LineAt, ColumnAt, Apart, Sum;
    forall l | l in s.keys ensures KeyAt(b, Took(s), all, l, s.keys[l]) && Apart(s.keys[l], cs) {
      assert KeyAt(b, s, all, l, s.keys[l]);
    }
  }

  lemma {:induction false} TokensAfford(b: seq<char>, s: Scan, all: seq<Tok>, cs: seq<Cost>) returns (all2: seq<Tok>, cs2: seq<Cost>)
    requires Afford(b, s, all, cs) && Sane(s) && s.pointer < |b| && TokensFrom(b, s).Ok?
    ensures s.taken <= |all| && all2 == all[..s.taken] + TokensFrom(b, s).value
    ensures Priced(all2, cs2) && Sum(cs2) < |b| + Questions(b, |b|)
    decreases |b| - s.pointer, !s.done, |s.tokens|
  {
    AffordTaken(b, s, all, cs);
    hide Filled, Sane, Afford, Priced, Sum, Questions, Awaited, TokensFrom;
    TokensUnfold(b, s);
    all2, cs2 := FilledAffords(b, s, all, cs);
    var f := Filled(b, s).value;
    AffordTaken(b, f, all2, cs2);
    if f.tokens == [] {
      NoneMore(all[..s.taken]);
    } else {
      TookAffords(b, f, all2, cs2);
      TookSane(f);
      var front := all2[..f.taken];
      all2, cs2 := TokensAfford(b, Took(f), all2, cs2);
      OneMore(front, f.tokens[0], TokensFrom(b, Took(f)).value);
    }
  }

  lemma TokensUnfold(b: seq<char>, s: Scan)
    requires s.pointer < |b| && TokensFrom(b, s).Ok?
    ensures Filled(b, s).Ok?
    ensures var f := Filled(b, s).value;
            if f.tokens == [] then TokensFrom(b, s) == Ok([])
            else TokensFrom(b, Took(f)).Ok? && TokensFrom(b, s) == Ok([f.tokens[0]] + TokensFrom(b, Took(f)).value)
  {
    hide Filled;
  }

  lemma NoneMore<T>(front: seq<T>)
    ensures front + [] == front
  {
  }

  lemma OneMore<T>(front: seq<T>, t: T, more: seq<T>)
    ensures front + [t] + more == front + ([t] + more)
  {
  }

  lemma TookSane(s: Scan)
    requires Sane(s) && s.tokens != []
    ensures Sane(Took(s))
  {
    hide IndentsOk;
  }

  lemma AffordTaken(b: seq<char>, s: Scan, all: seq<Tok>, cs: seq<Cost>)
    requires Afford(b, s, all, cs) && s.pointer < |b|
    ensures s.taken <= |all| && (s.tokens == [] ==> all == all[..s.taken])
    ensures Priced(all, cs) && Sum(cs) < |b| + Questions(b, |b|)
  {
    hide Sum, Priced, KeysAt;
    PurseGrows(b, s.pointer, |b|);
    if s.tokens == [] {
      assert |all[s.taken..]| == 0;
    }
  }

  /** The tokens of every text that has some can be paid for with its characters
      and one more for each `?` in it. */
  lemma TextPays(text: string) returns (cs: seq<Cost>)
    requires TokensOf(text).Ok?
    ensures Priced(TokensOf(text).value, cs) && Sum(cs) <= |text| + Questions(text, |text|)
  {
    var b := text + ['\0'];
    StartAffords(b);
    QuestionsWithin(text, |text|);
    hide Afford, Sane, TokensFrom, Priced, Sum, Questions, Printable;
    var first := [Tok.StreamStart];
    var ts;
    ts, cs := TokensAfford(b, START, first, [Paid(0)]);
    assert first[..0] == [];
    assert ts == TokensFrom(b, START).value;
  }

  lemma StartAffords(b: seq<char>)
    ensures Afford(b, START, [Tok.StreamStart], [Paid(0)]) && Sane(START)
  {
    SumOne([], Paid(0));
    assert [] + [Paid(0)] == [Paid(0)] && [] + [-1] == [-1];
  }

  lemma {:induction false} QuestionsWithin(text: string, p: nat)
    requires p <= |text|
    ensures Questions(text + ['\0'], p) == Questions(text, p)
    ensures p == |text| ==> Questions(text + ['\0'], |text| + 1) == Questions(text, |text|)
    decreases p
  {
    if p > 0 {
      QuestionsWithin(text, p - 1);
    }
  }
}
