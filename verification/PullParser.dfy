/** The parser as the program runs it: an object that keeps its state, its stack
    of states and its tag handles, and updates them as each event is asked for. */
module PullParser {
  import opened Results
  import opened YamlTree
  import opened YamlTokens
  import P = YamlParser
  import G = YamlGrammar
  import S = YamlSoundness

  type State = P.State

  /** What a method returned and left behind is what the specification says. */
  ghost predicate Performs(r: Result<Event>, now: P.Machine, spec: Result<P.Emitted>) {
    match spec
    case Ok(e) => r == Ok(e.event) && now == e.next
    case Err(fault) => r == Err(fault)
  }

  class Parser {
    const broken: bool
    var rest: seq<Tok>
    var state: Option<State>
    var states: seq<State>
    var tagHandles: map<string, string>

    constructor (tokens: seq<Tok>, broken: bool)
      ensures View() == P.Start(tokens, broken)
    {
      this.broken := broken;
      rest := tokens;
      state := Some(P.StreamStartState);
      states := [];
      tagHandles := map[];
    }

    ghost function View(): P.Machine
      reads this
    {
      P.Machine(state, states, tagHandles, rest, broken)
    }

    // --- tokens

    method PeekToken() returns (r: Result<Option<Tok>>)
      ensures r == P.Peek(View())
    {
      if rest != [] {
        return Ok(Some(rest[0]));
      }
      return if broken then Err(ScanFault) else Ok(None);
    }

    /** Takes the token in front, which has been peeked. */
    method Skip()
      requires rest != []
      modifies this`rest
      ensures View() == P.Take(old(View())).value
    {
      rest := rest[1..];
    }

    method GetToken() returns (r: Result<Tok>)
      modifies this`rest
      ensures P.Take(old(View())).Ok? ==> r == Ok(old(rest)[0]) && View() == P.Take(old(View())).value
      ensures P.Take(old(View())).Err? ==> r == Err(P.Take(old(View())).fault) && View() == old(View())
    {
      if rest == [] {
        return Err(if broken then ScanFault else NoMoreTokens);
      }
      r := Ok(rest[0]);
      rest := rest[1..];
    }

    /** Comes back to the state on top of the stack. */
    method PopState(e: Event) returns (r: Result<Event>)
      modifies this`state, this`states
      ensures Performs(r, View(), P.Pop(old(View()), e))
    {
      if states == [] {
        return Err(EmptyStackFault);
      }
      var last := |states| - 1;
      state, states := Some(states[last]), states[..last];
      return Ok(e);
    }

    // --- nodes

    method ParseProperties() returns (r: Result<(Option<string>, Option<Tok>)>)
      modifies this`rest
      ensures match P.TakeProperties(old(View()))
              case Ok(p) => r == Ok((p.anchor, p.tag)) && View() == p.next
              case Err(fault) => r == Err(fault)
    {
      var anchor, tag := None, None;
      var t :- PeekToken();
      if t.Some? && t.value.Anchor? {
        anchor := Some(t.value.name);
        Skip();
        var u :- PeekToken();
        if u.Some? && u.value.Tag? {
          tag := u;
          Skip();
        }
      } else if t.Some? && t.value.Tag? {
        tag := t;
        Skip();
        var u :- PeekToken();
        if u.Some? && u.value.Anchor? {
          anchor := Some(u.value.name);
          Skip();
        }
      }
      return Ok((anchor, tag));
    }

    method ParseNode(block: bool, indentless: bool) returns (r: Result<Event>)
      modifies this`rest, this`state, this`states
      ensures Performs(r, View(), P.ParseNode(old(View()), block, indentless))
    {
      hide P.TakeProperties, P.ParseContent;
      var t :- PeekToken();
      if t.Some? && t.value.Alias? {
        Skip();
        r := PopState(Event.Alias(t.value.name));
        return;
      }
      ghost var before := View();
      var p :- ParseProperties();
      var (anchor, tagTok) := p;
      assert tagTok.Some? ==> tagTok.value.Tag? by { G.PropertiesStack(before); }
      var tag :- P.ResolveTag(tagHandles, tagTok);
      r := ParseContent(anchor, tag, block, indentless);
    }

    method ParseContent(anchor: Option<string>, tag: Option<string>, block: bool, indentless: bool) returns (r: Result<Event>)
      modifies this`rest, this`state, this`states
      ensures Performs(r, View(), P.ParseContent(old(View()), anchor, tag, block, indentless))
    {
      var t :- PeekToken();
      if indentless && t == Some(Tok.BlockEntry) {
        state := Some(P.IndentlessSequenceEntry);
        return Ok(Event.SequenceStart(anchor, tag));
      }
      if t.Some? && t.value.Scalar? {
        Skip();
        var implicit := (t.value.plain && tag.None?) || tag == Some("!");
        r := PopState(Event.Scalar(anchor, tag, implicit, t.value.value));
        return;
      }
      if t == Some(Tok.FlowSequenceStart) {
        state := Some(P.FlowSequenceFirstEntry);
        return Ok(Event.SequenceStart(anchor, tag));
      }
      if t == Some(Tok.FlowMappingStart) {
        state := Some(P.FlowMappingFirstKey);
        return Ok(Event.MappingStart(anchor, tag));
      }
      if block && t == Some(Tok.BlockSequenceStart) {
        state := Some(P.BlockSequenceFirstEntry);
        return Ok(Event.SequenceStart(anchor, tag));
      }
      if block && t == Some(Tok.BlockMappingStart) {
        state := Some(P.BlockMappingFirstKey);
        return Ok(Event.MappingStart(anchor, tag));
      }
      if anchor.Some? || tag.Some? {
        r := PopState(Event.Scalar(anchor, tag, tag.None? || tag == Some("!"), ""));
        return;
      }
      return Err(SyntaxFault);
    }

    /** A node, or an empty scalar where the token in front begins none. */
    method NodeOrEmpty(none: bool, back: State, block: bool, indentless: bool) returns (r: Result<Event>)
      modifies this`rest, this`state, this`states
      ensures Performs(r, View(), P.NodeOrEmpty(old(View()), none, back, block, indentless))
    {
      hide P.ParseNode;
      if none {
        state := Some(back);
        return Ok(P.EMPTY_SCALAR);
      }
      states := states + [back];
      r := ParseNode(block, indentless);
    }

    // --- documents

    method ProcessDirectives() returns (r: Result<()>)
      modifies this`rest, this`tagHandles
      ensures match P.TakeDirectives(old(View()).(handles := map[]), false)
              case Ok(m) => r.Ok? && View() == m.(handles := P.DEFAULT_TAGS + m.handles)
              case Err(fault) => r == Err(fault)
    {
      tagHandles := map[];
      var version := false;
      ghost var spec := P.TakeDirectives(View(), false);
      var t :- PeekToken();
      while t.Some? && t.value.DirectiveTok?
        invariant P.TakeDirectives(View(), version) == spec
        invariant P.Peek(View()) == Ok(t)
        invariant state == old(state) && states == old(states)
        decreases |rest|
      {
        match t.value.directive {
          case YamlDirective(majorIsOne) =>
            if version || !majorIsOne {
              return Err(SyntaxFault);
            }
            version := true;
          case TagDirective(handle, prefix) =>
            if handle in tagHandles {
              return Err(SyntaxFault);
            }
            tagHandles := tagHandles[handle := prefix];
          case OtherDirective =>
        }
        Skip();
        t :- PeekToken();
      }
      tagHandles := P.DEFAULT_TAGS + tagHandles;
      return Ok(());
    }

    method StepImplicitDocumentStart() returns (r: Result<Event>)
      modifies this
      ensures Performs(r, View(), P.StepImplicitDocumentStart(old(View())))
    {
      hide P.StepDocumentStart;
      var t :- PeekToken();
      if t.None? || !(t.value.DirectiveTok? || t.value.DocumentStart? || t.value.StreamEnd?) {
        tagHandles := P.DEFAULT_TAGS;
        states := states + [P.DocumentEndState];
        state := Some(P.BlockNode);
        return Ok(Event.DocumentStart);
      }
      r := StepDocumentStart();
    }

    method StepDocumentStart() returns (r: Result<Event>)
      modifies this
      ensures Performs(r, View(), P.StepDocumentStart(old(View())))
    {
      hide P.TakeDirectives;
      var t :- PeekToken();
      while t == Some(Tok.DocumentEnd)
        invariant P.SkipDocumentEnds(View()) == P.SkipDocumentEnds(old(View()))
        invariant P.Peek(View()) == Ok(t)
        decreases |rest|
      {
        Skip();
        t :- PeekToken();
      }
      assert View() == P.SkipDocumentEnds(old(View()));
      if t == Some(Tok.StreamEnd) {
        Skip();
        state := None;
        return Ok(Event.StreamEnd);
      }
      var _ :- ProcessDirectives();
      t :- PeekToken();
      if t != Some(Tok.DocumentStart) {
        return Err(SyntaxFault);
      }
      Skip();
      states := states + [P.DocumentEndState];
      state := Some(P.DocumentContent);
      return Ok(Event.DocumentStart);
    }

    method StepDocumentEnd() returns (r: Result<Event>)
      modifies this`rest, this`state
      ensures Performs(r, View(), P.StepDocumentEnd(old(View())))
    {
      var t :- PeekToken();
      if t == Some(Tok.DocumentEnd) {
        Skip();
      }
      state := Some(P.DocumentStartState);
      return Ok(Event.DocumentEnd);
    }

    method StepDocumentContent() returns (r: Result<Event>)
      modifies this`rest, this`state, this`states
      ensures Performs(r, View(), P.StepDocumentContent(old(View())))
    {
      hide P.ParseNode;
      var t :- PeekToken();
      if t.Some? && (t.value.DirectiveTok? || t.value.DocumentStart? || t.value.DocumentEnd? || t.value.StreamEnd?) {
        r := PopState(P.EMPTY_SCALAR);
        return;
      }
      r := ParseNode(true, false);
    }

    // --- block collections

    method StepBlockSequenceEntry() returns (r: Result<Event>)
      modifies this`rest, this`state, this`states
      ensures Performs(r, View(), P.StepBlockSequenceEntry(old(View())))
    {
      hide P.NodeOrEmpty;
      var t :- PeekToken();
      if t == Some(Tok.BlockEntry) {
        Skip();
        t :- PeekToken();
        r := NodeOrEmpty(t == Some(Tok.BlockEntry) || t == Some(Tok.BlockEnd), P.BlockSequenceEntry, true, false);
        return;
      }
      if t != Some(Tok.BlockEnd) {
        return Err(SyntaxFault);
      }
      Skip();
      r := PopState(Event.SequenceEnd);
    }

    method StepIndentlessSequenceEntry() returns (r: Result<Event>)
      modifies this`rest, this`state, this`states
      ensures Performs(r, View(), P.StepIndentlessSequenceEntry(old(View())))
    {
      hide P.NodeOrEmpty;
      var t :- PeekToken();
      if t == Some(Tok.BlockEntry) {
        Skip();
        t :- PeekToken();
        var none := t.Some? && (t.value.BlockEntry? || t.value.Key? || t.value.Value? || t.value.BlockEnd?);
        r := NodeOrEmpty(none, P.IndentlessSequenceEntry, true, false);
        return;
      }
      r := PopState(Event.SequenceEnd);
    }

    method StepBlockMappingKey() returns (r: Result<Event>)
      modifies this`rest, this`state, this`states
      ensures Performs(r, View(), P.StepBlockMappingKey(old(View())))
    {
      hide P.NodeOrEmpty;
      var t :- PeekToken();
      if t == Some(Tok.Key) {
        Skip();
        t :- PeekToken();
        var none := t.Some? && (t.value.Key? || t.value.Value? || t.value.BlockEnd?);
        r := NodeOrEmpty(none, P.BlockMappingValue, true, true);
        return;
      }
      if t != Some(Tok.BlockEnd) {
        return Err(SyntaxFault);
      }
      Skip();
      r := PopState(Event.MappingEnd);
    }

    method StepBlockMappingValue() returns (r: Result<Event>)
      modifies this`rest, this`state, this`states
      ensures Performs(r, View(), P.StepBlockMappingValue(old(View())))
    {
      hide P.NodeOrEmpty;
      var t :- PeekToken();
      if t == Some(Tok.Value) {
        Skip();
        t :- PeekToken();
        var none := t.Some? && (t.value.Key? || t.value.Value? || t.value.BlockEnd?);
        r := NodeOrEmpty(none, P.BlockMappingKey, true, true);
        return;
      }
      state := Some(P.BlockMappingKey);
      return Ok(P.EMPTY_SCALAR);
    }

    // --- flow collections

    method FlowSequenceEntry(first: bool) returns (r: Result<Event>)
      modifies this`rest, this`state, this`states
      ensures Performs(r, View(), P.StepFlowSequenceEntry(old(View()), first))
    {
      hide P.ParseNode;
      var t :- PeekToken();
      if t != Some(Tok.FlowSequenceEnd) {
        if !first {
          if t != Some(Tok.FlowEntry) {
            return Err(SyntaxFault);
          }
          Skip();
          t :- PeekToken();
        }
        if t == Some(Tok.Key) {
          state := Some(P.FlowSequenceEntryMappingKey);
          return Ok(Event.MappingStart(None, None));
        } else if t != Some(Tok.FlowSequenceEnd) {
          states := states + [P.FlowSequenceEntry];
          r := ParseNode(false, false);
          return;
        }
      }
      Skip();
      r := PopState(Event.SequenceEnd);
    }

    method StepFlowSequenceEntryMappingKey() returns (r: Result<Event>)
      modifies this`rest, this`state, this`states
      ensures Performs(r, View(), P.StepFlowSequenceEntryMappingKey(old(View())))
    {
      hide P.NodeOrEmpty;
      var _ :- GetToken();
      var t :- PeekToken();
      var none := t.Some? && (t.value.Value? || t.value.FlowEntry? || t.value.FlowSequenceEnd?);
      r := NodeOrEmpty(none, P.FlowSequenceEntryMappingValue, false, false);
    }

    method StepFlowSequenceEntryMappingValue() returns (r: Result<Event>)
      modifies this`rest, this`state, this`states
      ensures Performs(r, View(), P.StepFlowSequenceEntryMappingValue(old(View())))
    {
      hide P.NodeOrEmpty;
      var t :- PeekToken();
      if t == Some(Tok.Value) {
        Skip();
        t :- PeekToken();
        r := NodeOrEmpty(t == Some(Tok.FlowEntry) || t == Some(Tok.FlowSequenceEnd), P.FlowSequenceEntryMappingEnd, false, false);
        return;
      }
      state := Some(P.FlowSequenceEntryMappingEnd);
      return Ok(P.EMPTY_SCALAR);
    }

    method FlowMappingKey(first: bool) returns (r: Result<Event>)
      modifies this`rest, this`state, this`states
      ensures Performs(r, View(), P.StepFlowMappingKey(old(View()), first))
    {
      hide P.ParseNode, P.NodeOrEmpty;
      var t :- PeekToken();
      if t != Some(Tok.FlowMappingEnd) {
        if !first {
          if t != Some(Tok.FlowEntry) {
            return Err(SyntaxFault);
          }
          Skip();
          t :- PeekToken();
        }
        if t == Some(Tok.Key) {
          Skip();
          t :- PeekToken();
          var none := t.Some? && (t.value.Value? || t.value.FlowEntry? || t.value.FlowMappingEnd?);
          r := NodeOrEmpty(none, P.FlowMappingValue, false, false);
          return;
        } else if t != Some(Tok.FlowMappingEnd) {
          states := states + [P.FlowMappingEmptyValue];
          r := ParseNode(false, false);
          return;
        }
      }
      Skip();
      r := PopState(Event.MappingEnd);
    }

    method StepFlowMappingValue() returns (r: Result<Event>)
      modifies this`rest, this`state, this`states
      ensures Performs(r, View(), P.StepFlowMappingValue(old(View())))
    {
      hide P.NodeOrEmpty;
      var t :- PeekToken();
      if t == Some(Tok.Value) {
        Skip();
        t :- PeekToken();
        r := NodeOrEmpty(t == Some(Tok.FlowEntry) || t == Some(Tok.FlowMappingEnd), P.FlowMappingKey, false, false);
        return;
      }
      state := Some(P.FlowMappingKey);
      return Ok(P.EMPTY_SCALAR);
    }

    // --- one step, one event

    method Step(s: State) returns (r: Result<Event>)
      modifies this
      ensures Performs(r, View(), P.Step(old(View()), s))
    {
      hide P.StepStreamStart, P.StepImplicitDocumentStart, P.StepDocumentStart, P.StepDocumentEnd, P.StepDocumentContent, P.ParseNode,
           P.StepBlockSequenceEntry, P.StepIndentlessSequenceEntry, P.StepBlockMappingKey, P.StepBlockMappingValue,
           P.StepFlowSequenceEntry, P.StepFlowSequenceEntryMappingKey, P.StepFlowSequenceEntryMappingValue,
           P.StepFlowMappingKey, P.StepFlowMappingValue;
      match s {
        case StreamStartState => r := StepStreamStart();
        case ImplicitDocumentStart => r := StepImplicitDocumentStart();
        case DocumentStartState => r := StepDocumentStart();
        case DocumentEndState => r := StepDocumentEnd();
        case DocumentContent => r := StepDocumentContent();
        case BlockNode => r := ParseNode(true, false);
        case BlockSequenceFirstEntry =>
          var _ :- GetToken();
          r := StepBlockSequenceEntry();
        case BlockSequenceEntry => r := StepBlockSequenceEntry();
        case IndentlessSequenceEntry => r := StepIndentlessSequenceEntry();
        case BlockMappingFirstKey =>
          var _ :- GetToken();
          r := StepBlockMappingKey();
        case BlockMappingKey => r := StepBlockMappingKey();
        case BlockMappingValue => r := StepBlockMappingValue();
        case FlowSequenceFirstEntry =>
          var _ :- GetToken();
          r := FlowSequenceEntry(true);
        case FlowSequenceEntry => r := FlowSequenceEntry(false);
        case FlowSequenceEntryMappingKey => r := StepFlowSequenceEntryMappingKey();
        case FlowSequenceEntryMappingValue => r := StepFlowSequenceEntryMappingValue();
        case FlowSequenceEntryMappingEnd =>
          state := Some(P.FlowSequenceEntry);
          r := Ok(Event.MappingEnd);
        case FlowMappingFirstKey =>
          var _ :- GetToken();
          r := FlowMappingKey(true);
        case FlowMappingKey => r := FlowMappingKey(false);
        case FlowMappingValue => r := StepFlowMappingValue();
        case FlowMappingEmptyValue =>
          state := Some(P.FlowMappingKey);
          r := Ok(P.EMPTY_SCALAR);
      }
    }

    method StepStreamStart() returns (r: Result<Event>)
      modifies this`rest, this`state
      ensures Performs(r, View(), P.StepStreamStart(old(View())))
    {
      var _ :- GetToken();
      state := Some(P.ImplicitDocumentStart);
      return Ok(Event.StreamStart);
    }

    /** The next event, an error once, or nothing: after an error, and after the
        end of the stream, there is nothing more. */
    method Next() returns (r: Option<Result<Event>>)
      modifies this
      ensures old(state).None? ==> r == None && View() == old(View())
      ensures old(state).Some? ==>
                match P.Step(old(View()), old(state).value)
                case Ok(e) => r == Some(Ok(e.event)) && View() == e.next
                case Err(fault) => r == Some(Err(fault)) && state == None
    {
      hide P.Step;
      if state.None? {
        return None;
      }
      var ev := Step(state.value);
      if ev.Err? {
        state := None;
      }
      return Some(ev);
    }
  }

  /** Every event of a stream, or the fault it stops with. The whole run ends,
      it succeeds just when the tokens are grammatical, and the events are then
      those of the documents' nodes. */
  method AllEvents(tokens: seq<Tok>, broken: bool) returns (r: Result<seq<Event>>, rest: seq<Tok>)
    ensures r.Ok? ==> G.Grammatical(tokens, r.value, rest)
    ensures r.Err? ==> r.fault != EmptyStackFault && forall es, rest2 :: !G.Grammatical(tokens, es, rest2)
  {
    hide P.Step, P.Emits, S.Agrees, S.Work, G.Grammatical;
    var parser := new Parser(tokens, broken);
    ghost var m0 := parser.View();
    var es: seq<Event> := [];
    G.FreshStart(tokens, broken);
    ghost var c: S.Ctx := S.Fresh;
    assert P.Emits(m0, es, parser.View()) by { NoEvents(m0); }
    while parser.state.Some?
      invariant P.Emits(m0, es, parser.View())
      invariant S.Agrees(parser.View(), c)
      decreases S.Work(parser.View())
    {
      ghost var before := parser.View();
      var e := parser.Next();
      if e.value.Err? {
        G.StackNeverEmpty(before, before.state.value, c);
        G.StoppedAcceptsNothing(tokens, broken, es, before);
        return Err(e.value.fault), [];
      }
      G.StepWorks(before, before.state.value, c);
      c := S.StepAdvances(before, before.state.value, c);
      OneMore(m0, es, before, parser.View());
      es := es + [e.value.value];
    }
    rest := parser.rest;
    assert P.Accepts(tokens, broken, es, rest);
    G.AcceptedIsGrammatical(tokens, broken, es, rest);
    return Ok(es), rest;
  }

  lemma NoEvents(m: P.Machine)
    ensures P.Emits(m, [], m)
  {
  }

  lemma OneMore(m0: P.Machine, es: seq<Event>, m: P.Machine, n: P.Machine)
    requires P.Emits(m0, es, m) && m.state.Some?
    requires P.Step(m, m.state.value).Ok? && P.Step(m, m.state.value).value.next == n
    ensures P.Emits(m0, es + [P.Step(m, m.state.value).value.event], n)
  {
    hide P.Step;
    var e := P.Step(m, m.state.value).value.event;
    assert P.Emits(n, [], n);
    assert [e][1..] == [];
    assert P.Emits(m, [e], n);
    P.EmitsConcat(m0, es, m, [e], n);
  }
}
