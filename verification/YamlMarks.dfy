/** Texts with more nodes than characters: `[?,?]`, and so on with any number
    of marks. */
module YamlMarks {
  import opened Results
  import opened YamlTree
  import opened YamlTokens
  import opened YamlSyntax
  import opened YamlGrammar
  import opened YamlCounts
  import opened Scanning
  import opened S = ScannerState
  import B = YamlBuilder
  import M = YamlCompose
  import G = YamlBudget
  import W = YamlCosts

  /** The character of `[?,?,..,?]` with so many commas, and of the NUL after it. */
  function Mark(k: nat, i: nat): char {
    if i == 0 then '[' else if i == 2 * k + 2 then ']' else if i > 2 * k + 2 then '\0' else if i % 2 == 1 then '?' else ','
  }

  function Marks(k: nat): string {
    seq(2 * k + 3, i requires i >= 0 => Mark(k, i))
  }

  predicate IsMarks(b: seq<char>, k: nat) {
    |b| == 2 * k + 4 && forall i :: 0 <= i < |b| ==> b[i] == Mark(k, i)
  }

  function MarkTok(k: nat, i: nat): Tok {
    match Mark(k, i)
    case '[' => Tok.FlowSequenceStart
    case ']' => Tok.FlowSequenceEnd
    case '?' => Tok.Key
    case ',' => Tok.FlowEntry
    case _ => Tok.StreamEnd
  }

  /** The tokens from a place on. */
  function Rest(k: nat, p: nat): seq<Tok>
    requires p <= 2 * k + 3
    decreases 2 * k + 3 - p
  {
    if p == 2 * k + 3 then [Tok.StreamEnd] else [MarkTok(k, p)] + Rest(k, p + 1)
  }

  // --- the scanner among the marks

  predicate Loose(keys: map<int, SimpleKey>) {
    forall l :: l in keys ==> l == 0 && !keys[l].required
  }

  predicate Among(k: nat, s: Scan) {
    && s.pointer <= 2 * k + 3 && s.indent == -1 && s.indents == []
    && s.flowLevel == (if 1 <= s.pointer <= 2 * k + 2 then 1 else 0)
    && Loose(s.keys)
    && (s.done ==> s.pointer == 2 * k + 3)
  }

  /** The next mark fetched. */
  predicate OneMore(k: nat, s: Scan, n: Scan)
    requires s.pointer <= 2 * k + 3
  {
    var last := s.pointer == 2 * k + 3;
    && Among(k, n) && n.taken == s.taken && n.done == last
    && n.pointer == (if last then s.pointer else s.pointer + 1)
    && n.tokens == s.tokens + [if last then Tok.StreamEnd else MarkTok(k, s.pointer)]
  }

  lemma MarkPlace(b: seq<char>, k: nat, p: nat)
    requires IsMarks(b, k) && p <= 2 * k + 3
    ensures TokenPlace(b, p) == p && CharAt(b, p) == Mark(k, p) && LineAt(b, p) == 0
  {
    assert b[p] == Mark(k, p);
    LineKept(b, 0, p);
  }

  lemma MarkStructure(b: seq<char>, k: nat, s: Scan)
    requires IsMarks(b, k) && Among(k, s) && s.pointer < 2 * k + 3
    ensures DispatchedStructure(b, s).Ok? && OneMore(k, s, DispatchedStructure(b, s).value)
  {
    MarkPlace(b, k, s.pointer);
    hide IsMarks, TokenPlace, LineAt, ColumnAt, Mark;
    MarkIs(k, s.pointer);
    assert s.tokens + [] == s.tokens;
  }

  lemma MarkIs(k: nat, i: nat)
    ensures Mark(k, i) in "[?,]\0"
    ensures Mark(k, i) == '[' <==> i == 0
    ensures Mark(k, i) == ']' <==> i == 2 * k + 2
    ensures Mark(k, i) == '\0' <==> i > 2 * k + 2
  {
  }

  lemma MarkFetched(b: seq<char>, k: nat, s: Scan)
    requires IsMarks(b, k) && Among(k, s) && !s.done
    ensures Fetched(b, s).Ok? && OneMore(k, s, Fetched(b, s).value)
  {
    MarkPlace(b, k, s.pointer);
    var at := AtNext(b, s);
    StillLoose(s.keys, LineAt(b, at.pointer), at.pointer);
    var on := Staled(b, at).value;
    MarkIs(k, s.pointer);
    if s.pointer < 2 * k + 3 {
      MarkStructure(b, k, on);
    }
    assert !IndicatorAt(b, s.pointer, "---") && !IndicatorAt(b, s.pointer, "...") by {
      assert "---"[0] == '-' && "..."[0] == '.';
      hide Mark;
    }
    hide IsMarks, TokenPlace, LineAt, ColumnAt, DispatchedStructure, Mark, IndicatorAt, Still, Lost;
    assert Unwound(on, ColumnAt(b, s.pointer)) == on;
  }

  lemma StillLoose(keys: map<int, SimpleKey>, line: nat, pointer: nat)
    requires Loose(keys)
    ensures !Lost(keys, line, pointer) && Loose(Still(keys, line, pointer))
  {
  }

  /** From any place among the marks on, the tokens are those of the marks. */
  lemma {:induction false} MarksScanned(b: seq<char>, k: nat, s: Scan)
    requires IsMarks(b, k) && Among(k, s)
    ensures TokensFrom(b, s) == Ok(s.tokens + if s.done then [] else Rest(k, s.pointer))
    decreases |b| - s.pointer, !s.done, |s.tokens|
  {
    hide *;
    MarkPointer(b, k, s);
    MarkNeeded(b, k, s);
    var n := Needed(b, s).value;
    if n.0 {
      MarkFetched(b, k, n.1);
      var f := Fetched(b, n.1).value;
      MarkAdded(k, n.1, f);
      FilledOn(b, s, f);
      MarksScanned(b, k, f);
    } else if s.tokens == [] {
      NothingOn(b, s, n.1);
    } else {
      MarkTaken(k, n.1);
      MarksScanned(b, k, Took(n.1));
      TookOn(b, s, n.1, if s.done then [] else Rest(k, s.pointer));
    }
  }

  lemma MarkPointer(b: seq<char>, k: nat, s: Scan)
    requires IsMarks(b, k) && Among(k, s)
    ensures s.pointer <= 2 * k + 3 < |b|
  {
  }

  lemma MarkNeeded(b: seq<char>, k: nat, s: Scan)
    requires IsMarks(b, k) && Among(k, s) && s.pointer < |b|
    ensures Needed(b, s).Ok? && Needed(b, s).value.1 == s.(keys := Needed(b, s).value.1.keys) && Among(k, Needed(b, s).value.1)
    ensures Needed(b, s).value.0 ==> !s.done
    ensures !Needed(b, s).value.0 && s.tokens == [] ==> s.done
  {
    StillLoose(s.keys, LineAt(b, s.pointer), s.pointer);
    hide LineAt, Still, Lost, IsMarks;
  }

  /** What a fetch adds is what was to come, and no longer is. */
  lemma MarkAdded(k: nat, s: Scan, f: Scan)
    requires s.pointer <= 2 * k + 3 && !s.done && OneMore(k, s, f)
    ensures f.pointer <= 2 * k + 3
    ensures s.tokens + Rest(k, s.pointer) == f.tokens + if f.done then [] else Rest(k, f.pointer)
    ensures Among(k, f) && (f.pointer > s.pointer || (f.pointer == s.pointer && f.done))
    ensures forall b: seq<char> :: |b| > 2 * k + 3 ==> Progress(b, s, f)
  {
    hide Mark, MarkTok, Among;
  }

  lemma MarkTaken(k: nat, s: Scan)
    requires Among(k, s) && s.tokens != []
    ensures Among(k, Took(s)) && Took(s) == s.(tokens := s.tokens[1..], taken := s.taken + 1)
  {
  }

  lemma NothingOn(b: seq<char>, s: Scan, n: Scan)
    requires s.pointer < |b| && Needed(b, s) == Ok((false, n)) && s.tokens == [] == n.tokens
    ensures TokensFrom(b, s) == Ok(s.tokens + [])
  {
    hide Needed, Fetched;
    assert Filled(b, s) == Ok(n);
    hide Filled;
    assert s.tokens + [] == [];
  }

  lemma TookOn(b: seq<char>, s: Scan, n: Scan, more: seq<Tok>)
    requires s.pointer < |b| && Needed(b, s) == Ok((false, n)) && s.tokens != [] && n.tokens == s.tokens && n.pointer == s.pointer
    requires TokensFrom(b, Took(n)) == Ok(s.tokens[1..] + more)
    ensures TokensFrom(b, s) == Ok(s.tokens + more)
  {
    hide Needed, Filled, TokensFrom, Took;
    TookBehind(b, s, n);
    assert [s.tokens[0]] + (s.tokens[1..] + more) == s.tokens + more;
  }

  lemma TookBehind(b: seq<char>, s: Scan, n: Scan)
    requires s.pointer < |b| && Needed(b, s) == Ok((false, n)) && n.tokens != [] && n.pointer == s.pointer
    ensures TokensFrom(b, s) == Behind([n.tokens[0]], TokensFrom(b, Took(n)))
  {
    hide Needed, Fetched;
    assert Filled(b, s) == Ok(n);
    hide Filled, Behind, Took;
  }

  lemma FilledOn(b: seq<char>, s: Scan, f: Scan)
    requires s.pointer < |b| && Needed(b, s).Ok? && Needed(b, s).value.0
    requires Fetched(b, Needed(b, s).value.1) == Ok(f) && Progress(b, Needed(b, s).value.1, f)
    ensures TokensFrom(b, s) == TokensFrom(b, f)
  {
    hide Needed, Fetched;
  }

  lemma MarksTokens(k: nat)
    ensures TokensOf(Marks(k)) == Ok([Tok.StreamStart] + Rest(k, 0))
  {
    MarksScanned(Marks(k) + ['\0'], k, START);
    hide TokensFrom, Rest;
  }

  // --- their nodes

  const PART := Couple(NOTHING, None)
  const MARK_NODE := MappingNode(None, None, [Pair(NULL_NODE, NULL_NODE)])

  function Parts(n: nat): seq<Part> {
    if n == 0 then [] else [PART] + Parts(n - 1)
  }

  function Document(k: nat): Doc {
    Doc(None, Coll(FlowSeq, Bare, Parts(k + 1), false), 0)
  }

  lemma {:induction false} PartsAreOk(n: nat, handles: map<string, string>)
    ensures PartsOk(FlowSeq, Parts(n), handles)
    ensures ItemCount(ItemsOf(Parts(n), handles)) == 3 * n
  {
    if n > 0 {
      assert Parts(n)[1..] == Parts(n - 1);
      PartsAreOk(n - 1, handles);
      assert ItemOf(PART, handles) == MARK_NODE;
      MarkCount();
      hide NodeCount;
      var items := ItemsOf(Parts(n), handles);
      assert items[1..] == ItemsOf(Parts(n - 1), handles);
    }
  }

  lemma MarkCount()
    ensures NodeCount(MARK_NODE) == 3
  {
    var pairs := [Pair(NULL_NODE, NULL_NODE)];
    assert pairs[1..] == [] && PairCount(pairs) == 2;
  }

  lemma RestTwo(k: nat, p: nat)
    requires p + 2 <= 2 * k + 3
    ensures Rest(k, p) == [MarkTok(k, p), MarkTok(k, p + 1)] + Rest(k, p + 2)
  {
    hide Mark, MarkTok;
    assert Rest(k, p) == [MarkTok(k, p)] + ([MarkTok(k, p + 1)] + Rest(k, p + 2));
  }

  lemma RestEnds(k: nat)
    ensures Rest(k, 2 * k + 2) == [Tok.FlowSequenceEnd, Tok.StreamEnd]
  {
    assert Rest(k, 2 * k + 2) == [Tok.FlowSequenceEnd] + Rest(k, 2 * k + 3);
  }

  lemma MarksAre(k: nat, i: nat)
    requires i < k
    ensures MarkTok(k, 2 * i + 2) == Tok.FlowEntry && MarkTok(k, 2 * i + 3) == Tok.Key
  {
  }

  lemma MorePartsTokens(n: nat)
    ensures PartsTokens(FlowSeq, Parts(n + 1), false) == [Tok.FlowEntry, Tok.Key] + PartsTokens(FlowSeq, Parts(n), false)
    ensures PartsTokens(FlowSeq, Parts(n + 1), true) == [Tok.Key] + PartsTokens(FlowSeq, Parts(n), false)
    ensures PartsTokens(FlowSeq, Parts(0), false) == []
  {
    assert Parts(n + 1)[1..] == Parts(n);
    assert PartTokens(FlowSeq, PART) == [Tok.Key];
  }

  /** The commas and marks after a mark, told by the parts. */
  lemma {:induction false} RestIsParts(k: nat, i: nat)
    requires i <= k
    ensures Rest(k, 2 * i + 2) == PartsTokens(FlowSeq, Parts(k - i), false) + [Tok.FlowSequenceEnd, Tok.StreamEnd]
    decreases k - i
  {
    hide *;
    if i < k {
      RestTwo(k, 2 * i + 2);
      MarksAre(k, i);
      RestIsParts(k, i + 1);
      MorePartsTokens(k - (i + 1));
      Regroup([Tok.FlowEntry, Tok.Key], PartsTokens(FlowSeq, Parts(k - (i + 1)), false), [Tok.FlowSequenceEnd, Tok.StreamEnd]);
    } else {
      RestEnds(k);
      MorePartsTokens(0);
    }
  }

  lemma Regroup<T>(a: seq<T>, b: seq<T>, c: seq<T>)
    ensures a + (b + c) == a + b + c
  {
  }

  lemma DocumentTokens(k: nat)
    ensures DocsTokens([Document(k)]) == [Tok.FlowSequenceStart] + PartsTokens(FlowSeq, Parts(k + 1), true) + [Tok.FlowSequenceEnd]
  {
    hide PartsTokens, Parts;
    assert [Document(k)][1..] == [];
  }

  lemma DocumentOk(k: nat)
    ensures DocsOk([Document(k)])
    ensures |DocNodes([Document(k)])| == 1 && NodeCount(DocNodes([Document(k)])[0]) == 3 * k + 4
  {
    var handles := HandlesOf(None);
    PartsAreOk(k + 1, handles);
    hide PartsOk, Parts, ItemCount, ItemsOf, HandlesOf;
    assert [Document(k)][1..] == [];
  }

  lemma MarksAreDocument(k: nat)
    ensures [Tok.StreamStart] + Rest(k, 0) == [Tok.StreamStart] + DocsTokens([Document(k)]) + [Tok.StreamEnd] + []
  {
    FirstMarks(k);
    hide *;
    RestTwo(k, 0);
    RestIsParts(k, 0);
    MorePartsTokens(k);
    DocumentTokens(k);
    var more := PartsTokens(FlowSeq, Parts(k), false);
    assert [Tok.StreamStart] + ([Tok.FlowSequenceStart, Tok.Key] + (more + [Tok.FlowSequenceEnd, Tok.StreamEnd]))
        == [Tok.StreamStart] + ([Tok.FlowSequenceStart] + ([Tok.Key] + more) + [Tok.FlowSequenceEnd]) + [Tok.StreamEnd] + [];
  }

  lemma FirstMarks(k: nat)
    ensures MarkTok(k, 0) == Tok.FlowSequenceStart && MarkTok(k, 1) == Tok.Key
  {
  }

  /** A node can take less than a character of text: `[?,?]` is seven nodes, and
      with any number of commas there are as many more nodes than characters,
      and one. */
  lemma NodesOutnumberCharacters(k: nat) returns (docs: seq<Node>)
    ensures Marks(1) == "[?,?]" && |Marks(k)| == 2 * k + 3
    ensures TokensOf(Marks(k)).Ok? && Grammatical(TokensOf(Marks(k)).value, StreamEvents(docs), [])
    ensures docs == DocNodes([Document(k)]) && |docs| == 1 && NodeCount(docs[0]) == |Marks(k)| + k + 1
  {
    docs := DocNodes([Document(k)]);
    assert Marks(1) == "[?,?]" && |Marks(k)| == 2 * k + 3;
    hide *;
    MarksTokens(k);
    DocumentOk(k);
    MarksAreDocument(k);
    GrammaticalDocs([Tok.StreamStart] + Rest(k, 0), [Document(k)]);
  }

  lemma GrammaticalDocs(ts: seq<Tok>, ds: seq<Doc>)
    requires DocsOk(ds) && ts == [Tok.StreamStart] + DocsTokens(ds) + [Tok.StreamEnd] + []
    ensures Grammatical(ts, StreamEvents(DocNodes(ds)), [])
  {
    hide DocsOk, DocsTokens, DocNodes, StreamEvents;
  }

  /** So a text a collector reads whole can be refused for the budget, and is, for
      no other reason, just when its marks are enough, if an empty scalar can be
      constructed at all. */
  lemma MarksRefused(loader: B.Loader, k: nat) returns (docs: seq<Node>)
    requires B.Sound(loader)
    ensures TokensOf(Marks(k)).Ok? && Grammatical(TokensOf(Marks(k)).value, StreamEvents(docs), [])
    ensures 3 * k + 4 > B.MAX_NODES ==> M.ComposeStream(loader, docs).Err?
    ensures loader.scalar("", true, None).Ok? ==> (M.ComposeStream(loader, docs) == Err(BudgetFault) <==> 3 * k + 4 > B.MAX_NODES)
    ensures loader.scalar("", true, None).Ok? ==> (M.ComposeStream(loader, docs).Ok? <==> 3 * k + 4 <= B.MAX_NODES)
    ensures |Marks(349530)| <= B.READ_CAP && 3 * 349530 + 4 > B.MAX_NODES
  {
    assert |Marks(349530)| == 699063;
    hide *;
    docs := NodesOutnumberCharacters(k);
    NoMarkAnchors(k);
    G.UnanchoredBudget(loader, docs);
    if loader.scalar("", true, None).Ok? {
      MarksLoadable(loader, k);
      G.LoadableBudget(loader, docs);
    }
  }

  lemma MarksLoadable(loader: B.Loader, k: nat)
    requires loader.scalar("", true, None).Ok?
    ensures DocNodes([Document(k)]) != [] && G.Loadable(loader, DocNodes([Document(k)])[0], 0)
  {
    PartsAreLoadable(loader, k + 1, HandlesOf(None));
    hide Parts, ItemsOf, HandlesOf, G.ItemsLoadable;
    assert [Document(k)][1..] == [];
  }

  lemma {:induction false} PartsAreLoadable(loader: B.Loader, n: nat, handles: map<string, string>)
    requires loader.scalar("", true, None).Ok?
    ensures G.ItemsLoadable(loader, ItemsOf(Parts(n), handles), 1)
  {
    if n > 0 {
      assert Parts(n)[1..] == Parts(n - 1);
      PartsAreLoadable(loader, n - 1, handles);
      assert ItemOf(PART, handles) == MARK_NODE;
      MarkLoadable(loader);
      hide G.Loadable;
      assert ItemsOf(Parts(n), handles)[1..] == ItemsOf(Parts(n - 1), handles);
    }
  }

  lemma MarkLoadable(loader: B.Loader)
    requires loader.scalar("", true, None).Ok?
    ensures G.Loadable(loader, MARK_NODE, 1)
  {
    var pairs := [Pair(NULL_NODE, NULL_NODE)];
    assert G.Loadable(loader, NULL_NODE, 2) && G.PairLoadable(loader, pairs[0], 2) && G.PairsLoadable(loader, [], 2);
    assert pairs[1..] == [];
  }

  lemma NoMarkAnchors(k: nat)
    ensures DocNodes([Document(k)]) != [] && G.Unanchored(DocNodes([Document(k)])[0])
  {
    PartsAreUnanchored(k + 1, HandlesOf(None));
    hide Parts, ItemsOf, HandlesOf, G.ItemsUnanchored;
    assert [Document(k)][1..] == [];
  }

  lemma {:induction false} PartsAreUnanchored(n: nat, handles: map<string, string>)
    ensures G.ItemsUnanchored(ItemsOf(Parts(n), handles))
  {
    if n > 0 {
      assert Parts(n)[1..] == Parts(n - 1);
      PartsAreUnanchored(n - 1, handles);
      assert ItemOf(PART, handles) == MARK_NODE;
      MarkUnanchored();
      hide G.Unanchored;
      assert ItemsOf(Parts(n), handles)[1..] == ItemsOf(Parts(n - 1), handles);
    }
  }

  lemma MarkUnanchored()
    ensures G.Unanchored(MARK_NODE)
  {
    var pairs := [Pair(NULL_NODE, NULL_NODE)];
    assert G.Unanchored(NULL_NODE) && G.PairUnanchored(pairs[0]) && G.PairsUnanchored([]);
    assert pairs[1..] == [];
  }
}
