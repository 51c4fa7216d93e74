/** From a text to its value: scanner, parser and builder in a row. */
module YamlLoad {
  import opened Results
  import opened YamlTree
  import opened YamlTokens
  import opened YamlSyntax
  import opened YamlGrammar
  import opened YamlValue
  import opened YamlBuilder
  import S = ScannerState
  import N = YamlScanner
  import P = PullParser
  import C = YamlCompose
  import D = YamlBounds
  import W = YamlBudget
  import Scanning
  import Q = ScanCosts

  /** From a text to the value of its one document, if it has one. The run always
      ends; if it succeeds, the tokens are a grammatical stream, the value is
      what its node composes to, and it is within the bounds; if it fails once
      the text is `scanned`, the tokens are no grammatical stream, or its node
      composes to that fault, which is never one of the parser's or the
      builder's own inconsistency, and is the budget's only for a text with a
      `&` or as many characters, each `?` counted twice, as there may be nodes. */
  method Parse(text: string, loader: Loader)
    returns (r: Result<Option<Value>>, ghost scanned: bool, ghost tokens: seq<Tok>, ghost docs: seq<Node>)
    requires Sound(loader)
    ensures scanned ==> Scanning.TokensOf(text) == Ok(tokens) && S.Framed(tokens, true) && forall i :: 0 <= i < |text| ==> S.Printable(text[i])
    ensures r.Ok? ==> scanned && Grammatical(tokens, StreamEvents(docs), []) && r == C.ComposeStream(loader, docs)
    ensures r.Ok? ==> r.value.Some? == (|docs| == 1) && |docs| <= 1
    ensures r.Ok? && r.value.Some? ==> Weigh(r.value.value, Nodes) <= MAX_NODES && Depth(r.value.value) <= MAX_DEPTH
    ensures scanned && r.Err? ==>
              || (r.fault != EmptyStackFault && forall es, rest :: !Grammatical(tokens, es, rest))
              || (&& Grammatical(tokens, StreamEvents(docs), []) && r == C.ComposeStream(loader, docs)
                  && (r.fault == DocumentFault || C.ContentFault(r.fault))
                  && (r.fault == BudgetFault ==> '&' in text || |text| + Q.Questions(text, |text|) >= MAX_NODES))
  {
    hide Grammatical, Sound, Run, StreamEvents, Weigh, Depth, S.Nested, S.Depth, S.Flow, Scanning.TokensOf, Q.Questions;
    scanned, tokens, docs := false, [], [];
    var ts :- N.Tokenise(text);
    scanned, tokens := true, ts;
    var events, rest := P.AllEvents(ts, false);
    var es :- events;
    docs := TreesOf(ts, es, rest);
    var builder := new Builder(loader);
    r := builder.Load(es);
    C.BuilderComposes(loader, docs);
    C.BuilderFaults(loader, docs);
    if '&' !in text && |text| + Q.Questions(text, |text|) < MAX_NODES {
      W.TextFits(loader, text, docs);
    }
    if r.Ok? {
      D.EveryBuildIsBounded(loader, es, |es|);
      assert es[..|es|] == es;
      HeldValue(Run(loader, FRESH, es).value);
    }
  }

  lemma HeldValue(b: Build)
    ensures b.done.Some? ==> Weigh(b.done.value, Nodes) <= D.Held(b, Nodes)
  {
  }

  /** A grammatical stream's documents; nothing follows the stream's end. */
  lemma TreesOf(tokens: seq<Tok>, es: seq<Event>, rest: seq<Tok>) returns (docs: seq<Node>)
    requires Grammatical(tokens, es, rest) && S.Framed(tokens, true)
    ensures rest == [] && es == StreamEvents(docs) && Grammatical(tokens, StreamEvents(docs), [])
  {
    hide DocsOk, DocsTokens, DocNodes, StreamEvents;
    var first, ds :|
      && DocsOk(ds)
      && tokens == [first] + DocsTokens(ds) + [Tok.StreamEnd] + rest
      && es == StreamEvents(DocNodes(ds));
    docs := DocNodes(ds);
    assert tokens[1 + |DocsTokens(ds)|] == Tok.StreamEnd;
  }
}
