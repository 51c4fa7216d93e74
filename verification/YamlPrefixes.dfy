/** However far a run of the parser gets, and whether or not it ends well, the
    events it has emitted begin those of some stream: what the builder cannot
    meet on a whole stream it cannot meet on any run. */
module YamlPrefixes {
  import opened Results
  import opened YamlTree
  import opened YamlTokens
  import opened YamlParser
  import opened YamlSyntax
  import opened YamlCompleteness
  import opened YamlSoundness
  import opened YamlGrammar
  import B = YamlBuilder
  import C = YamlCompose

  const FILLER: Syntax := Text(Bare, "", false)

  /** A collection that awaits no node, what it is in the middle of fitting its style. */
  predicate Rests(f: Frame) {
    && !f.pending.AwaitItem? && !f.pending.AwaitKey? && !f.pending.AwaitValue?
    && (f.pending.HavePair? ==> f.style.FlowSeq?)
    && (f.pending.HaveBare? ==> f.style.FlowMap?)
  }

  /** A collection in the middle of anything can be brought to where it may end. */
  lemma Finish(f: Frame, handles: map<string, string>) returns (g: Frame, more: seq<Event>)
    requires FrameOk(f, handles) && Rests(f)
    ensures g.style == f.style && g.props == f.props && g.pending.Idle? && FrameOk(g, handles)
    ensures g.style.DashSeq? ==> g.parts != []
    ensures FrameEvents(g, handles) == FrameEvents(f, handles) + more
    decreases match f.pending case OpenPair => 5 case HaveKey(_) => 4 case Idle => 1 case _ => 2
  {
    hide FrameOk, FrameEvents, PartEvents;
    match f.pending {
      case Idle =>
        if f.style.DashSeq? && f.parts == [] {
          g := f.(parts := [Item(FILLER)]);
          more := PartEvents(f.style, Item(FILLER), handles);
          DashFilled(f, handles);
        } else {
          g, more := f, [];
          assert FrameEvents(f, handles) + [] == FrameEvents(f, handles);
        }
      case HaveKey(k) => g, more := FinishKey(f, handles);
      case OpenPair => g, more := FinishOpen(f, handles);
      case HavePair(c) =>
        g, more := f.(parts := f.parts + [c], pending := Idle), [Event.MappingEnd];
        FinishMoves(f, c, Event.MappingEnd, handles);
      case HaveBare(n) =>
        g, more := f.(parts := f.parts + [Item(n)], pending := Idle), [EMPTY_SCALAR];
        FinishMoves(f, Item(n), EMPTY_SCALAR, handles);
    }
  }

  lemma FinishKey(f: Frame, handles: map<string, string>) returns (g: Frame, more: seq<Event>)
    requires FrameOk(f, handles) && f.pending.HaveKey?
    ensures g.style == f.style && g.props == f.props && g.pending.Idle? && FrameOk(g, handles)
    ensures g.style.DashSeq? ==> g.parts != []
    ensures FrameEvents(g, handles) == FrameEvents(f, handles) + more
    decreases 3
  {
    hide FrameOk, FrameEvents, FrameTokens;
    var h := Valued(f, Couple(f.pending.key, None));
    KeyStyle(f, handles);
    UnvaluedOk(f, handles);
    UnvaluedGrows(f, handles);
    var rest;
    g, rest := Finish(h, handles);
    more := [EMPTY_SCALAR] + rest;
    assert FrameEvents(f, handles) + [EMPTY_SCALAR] + rest == FrameEvents(f, handles) + more;
  }

  lemma FinishOpen(f: Frame, handles: map<string, string>) returns (g: Frame, more: seq<Event>)
    requires FrameOk(f, handles) && f.pending.OpenPair?
    ensures g.style == f.style && g.props == f.props && g.pending.Idle? && FrameOk(g, handles)
    ensures g.style.DashSeq? ==> g.parts != []
    ensures FrameEvents(g, handles) == FrameEvents(f, handles) + more
    decreases 4, 0
  {
    OpenFilled(f, handles);
    hide FrameOk, FrameEvents, Events, NodeOf;
    var rest;
    g, rest := FinishKey(f.(pending := HaveKey(FILLER)), handles);
    more := Events(NodeOf(FILLER, handles)) + rest;
    assert FrameEvents(f, handles) + Events(NodeOf(FILLER, handles)) + rest == FrameEvents(f, handles) + more;
  }

  lemma KeyStyle(f: Frame, handles: map<string, string>)
    requires FrameOk(f, handles) && f.pending.HaveKey?
    ensures f.style.BlockMap? || Flow(f.style)
  {
  }

  lemma DashFilled(f: Frame, handles: map<string, string>)
    requires FrameOk(f, handles) && f.pending.Idle? && f.style.DashSeq? && f.parts == []
    ensures var g := f.(parts := [Item(FILLER)]);
            && FrameOk(g, handles)
            && FrameEvents(g, handles) == FrameEvents(f, handles) + PartEvents(f.style, Item(FILLER), handles)
  {
    PartLast(f, Item(FILLER), handles);
    assert f.parts + [Item(FILLER)] == [Item(FILLER)];
    hide FrameEvents;
    assert SyntaxOk(FILLER, true, false, handles);
    assert PartOk(f.style, Item(FILLER), handles);
    PartsOkSnoc(f.style, f.parts, Item(FILLER), handles);
  }

  lemma OpenFilled(f: Frame, handles: map<string, string>)
    requires FrameOk(f, handles) && f.pending.OpenPair?
    ensures var g := f.(pending := HaveKey(FILLER));
            && FrameOk(g, handles)
            && FrameEvents(g, handles) == FrameEvents(f, handles) + Events(NodeOf(FILLER, handles))
  {
    PendingLast(f, handles);
    PendingLast(f.(pending := HaveKey(FILLER)), handles);
    hide FrameEvents;
    assert SyntaxOk(FILLER, false, false, handles);
  }

  /** The innermost collection closed, and put into the one around it. */
  lemma Folded(frames: seq<Frame>, handles: map<string, string>) returns (fewer: seq<Frame>, s: Syntax, more: seq<Event>)
    requires frames != [] && FramesOk(frames, handles) && Rests(frames[|frames| - 1])
    requires forall k :: 0 <= k < |frames| - 1 ==> CanFill(frames[k])
    ensures FrameEvents(frames[|frames| - 1], handles) + more == Events(NodeOf(s, handles))
    ensures |fewer| == |frames| - 1
    ensures fewer != [] ==> CanFill(frames[|fewer| - 1]) && fewer == frames[..|fewer| - 1] + [Fill(frames[|fewer| - 1], s)]
    ensures FramesOk(fewer, handles) && (fewer != [] ==> Rests(fewer[|fewer| - 1]) && FrameOk(frames[|fewer| - 1], handles))
  {
    hide FrameOk, FrameEvents, Events, NodeOf, StyleOk, Fill, FramesOk, CanFill, Rests, SyntaxOk;
    var n := |frames| - 1;
    FramesParts(frames, n, handles);
    var g, filled := Finish(frames[n], handles);
    s := Coll(g.style, g.props, g.parts, false);
    ClosedEvents(g, false, handles);
    more := filled + [CollEnd(g.style)];
    assert FrameEvents(frames[n], handles) + more == FrameEvents(frames[n], handles) + filled + [CollEnd(g.style)];
    if n == 0 {
      fewer := [];
      NoFramesOk(handles);
    } else {
      FinishedOk(frames, n, g, handles);
      fewer := Refilled(frames[..n], s, handles);
      assert frames[..n][..n - 1] == frames[..n - 1];
    }
  }

  lemma FramesParts(frames: seq<Frame>, n: nat, handles: map<string, string>)
    requires n < |frames| && FramesOk(frames, handles)
    ensures FrameOk(frames[n], handles) && FramesOk(frames[..n], handles)
  {
    hide FrameOk, StyleOk;
  }

  lemma NoFramesOk(handles: map<string, string>)
    ensures FramesOk([], handles)
  {
  }

  /** A finished node put into the innermost of some collections. */
  lemma Refilled(frames: seq<Frame>, s: Syntax, handles: map<string, string>) returns (filled: seq<Frame>)
    requires frames != [] && FramesOk(frames, handles) && CanFill(frames[|frames| - 1])
    requires SyntaxOk(s, !Flow(frames[|frames| - 1].style), frames[|frames| - 1].style.BlockMap?, handles) && s.Coll?
    ensures filled == frames[..|frames| - 1] + [Fill(frames[|frames| - 1], s)]
    ensures FramesOk(filled, handles) && Rests(filled[|filled| - 1]) && FrameOk(frames[|frames| - 1], handles)
  {
    hide FrameOk, StyleOk, Fill, CanFill, Rests, SyntaxOk, FramesOk;
    var i := Inner(None, frames);
    FramesParts(frames, |frames| - 1, handles);
    FillOk(Top(i), s, handles);
    FilledStyle(Top(i), s);
    OnTopOk(i, Fill(Top(i), s), handles);
    filled := OnTop(i, Fill(Top(i), s)).frames;
  }

  lemma FoldedEvents(frames: seq<Frame>, s: Syntax, more: seq<Event>, handles: map<string, string>)
    requires |frames| >= 2 && CanFill(frames[|frames| - 2]) && FrameOk(frames[|frames| - 2], handles)
    requires FrameEvents(frames[|frames| - 1], handles) + more == Events(NodeOf(s, handles))
    ensures FramesEvents(frames, handles) + more
         == FramesEvents(frames[..|frames| - 2] + [Fill(frames[|frames| - 2], s)], handles)
  {
    hide FrameOk, FrameEvents, Events, NodeOf, Fill, FramesEvents;
    var n := |frames| - 1;
    var outer, parent, top := frames[..n - 1], frames[n - 1], frames[n];
    assert frames == outer + [parent] + [top];
    FramesSnoc(outer + [parent], top, handles);
    FramesSnoc(outer, parent, handles);
    FramesSnoc(outer, Fill(parent, s), handles);
    FillEvents(parent, s, handles);
    Regrouped(FramesEvents(outer, handles), FrameEvents(parent, handles), FrameEvents(top, handles), more);
  }

  /** The collections still open, closed from the innermost out. */
  lemma {:induction false} FramesFinish(frames: seq<Frame>, handles: map<string, string>) returns (s: Syntax, more: seq<Event>)
    requires frames != [] && FramesOk(frames, handles) && Rests(frames[|frames| - 1])
    requires forall k :: 0 <= k < |frames| - 1 ==> CanFill(frames[k])
    ensures FramesEvents(frames, handles) + more == Events(NodeOf(s, handles))
    decreases |frames|
  {
    hide FrameOk, FrameEvents, Events, NodeOf, StyleOk, Fill, FramesEvents, FramesOk, CanFill, Rests;
    var fewer;
    fewer, s, more := Folded(frames, handles);
    if fewer == [] {
      assert frames == [] + [frames[0]];
      FramesSnoc([], frames[0], handles);
      NoFrames(handles);
      assert [] + FrameEvents(frames[0], handles) == FrameEvents(frames[0], handles);
    } else {
      FoldedEvents(frames, s, more, handles);
      var rest;
      s, rest := FramesFinish(fewer, handles);
      assert FramesEvents(frames, handles) + (more + rest) == FramesEvents(frames, handles) + more + rest;
      more := more + rest;
    }
  }

  lemma Regrouped<T>(a: seq<T>, b: seq<T>, c: seq<T>, d: seq<T>)
    ensures a + b + c + d == a + (b + (c + d))
  {
  }

  lemma NoFrames(handles: map<string, string>)
    ensures FramesEvents([], handles) == []
  {
  }

  lemma FilledStyle(f: Frame, s: Syntax)
    requires CanFill(f)
    ensures Fill(f, s).style == f.style && Rests(Fill(f, s))
  {
  }

  /** The finished collection may stand where its frame was open. */
  lemma FinishedOk(frames: seq<Frame>, n: nat, g: Frame, handles: map<string, string>)
    requires 0 < n < |frames| && FramesOk(frames, handles)
    requires g.style == frames[n].style && FrameOk(g, handles) && g.pending.Idle? && (g.style.DashSeq? ==> g.parts != [])
    ensures SyntaxOk(Coll(g.style, g.props, g.parts, false), !Flow(frames[n - 1].style), frames[n - 1].style.BlockMap?, handles)
  {
    hide PartsOk, PropsOk;
  }

  /** The events read so far and some more are those of a whole stream. */
  lemma CtxCompletes(m: Machine, c: Ctx) returns (more: seq<Event>, docs: seq<Node>)
    requires Agrees(m, c)
    ensures CtxEvents(c) + more == StreamEvents(docs)
  {
    hide DocNodes, DocsOk, HandlesOf, HeaderOk, Events, NodeOf, FramesOk;
    match c {
      case Fresh =>
        more, docs := StreamEvents([]), [];
      case Between(_, ds) =>
        more, docs := [Event.StreamEnd], DocNodes(ds);
      case Closed(_, ds) =>
        more, docs := [], DocNodes(ds);
        assert CtxEvents(c) + [] == CtxEvents(c);
      case Inside(_, ds, header, inner) =>
        var s, rest := InnerCompletes(m, inner);
        docs := DocNodes(ds) + [NodeOf(s, HandlesOf(header))];
        more := rest + [Event.DocumentEnd] + [Event.StreamEnd];
        InsideCompletes(DocNodes(ds), NodeOf(s, HandlesOf(header)), InnerEvents(inner, HandlesOf(header)), rest);
    }
  }

  lemma InsideCompletes(nodes: seq<Node>, node: Node, begun: seq<Event>, rest: seq<Event>)
    requires begun + rest == Events(node)
    ensures [Event.StreamStart] + DocumentEvents(nodes) + ([Event.DocumentStart] + begun) + (rest + [Event.DocumentEnd] + [Event.StreamEnd])
         == StreamEvents(nodes + [node])
  {
    hide Events;
    DocumentEventsConcat(nodes, [node]);
    assert [node][1..] == [];
    assert DocumentEvents([node]) == [Event.DocumentStart] + Events(node) + [Event.DocumentEnd] + [];
    hide DocumentEvents;
    var start := [Event.DocumentStart];
    assert start + Events(node) + [Event.DocumentEnd] + [] == start + (begun + rest) + [Event.DocumentEnd];
    RegroupInside([Event.StreamStart] + DocumentEvents(nodes), start, begun, rest, [Event.DocumentEnd], [Event.StreamEnd]);
    assert [Event.StreamStart] + (DocumentEvents(nodes) + (start + (begun + rest) + [Event.DocumentEnd])) + [Event.StreamEnd]
        == [Event.StreamStart] + DocumentEvents(nodes) + (start + (begun + rest) + [Event.DocumentEnd]) + [Event.StreamEnd];
  }

  lemma RegroupInside(a: seq<Event>, b: seq<Event>, c: seq<Event>, d: seq<Event>, e: seq<Event>, f: seq<Event>)
    ensures a + (b + c) + (d + e + f) == a + (b + (c + d) + e) + f
  {
  }

  lemma InnerCompletes(m: Machine, i: Inner) returns (s: Syntax, more: seq<Event>)
    requires m.state.Some? && Fits(m, m.state.value, i)
    ensures InnerEvents(i, m.handles) + more == Events(NodeOf(s, m.handles))
  {
    hide FramesOk, Events, NodeOf, SyntaxOk;
    if i.frames == [] {
      if i.root.Some? {
        s, more := i.root.value, [];
        assert Events(NodeOf(s, m.handles)) + [] + [] == Events(NodeOf(s, m.handles));
      } else {
        s, more := FILLER, Events(NodeOf(FILLER, m.handles));
      }
    } else {
      TopRests(m, m.state.value, i);
      s, more := FramesFinish(i.frames, m.handles);
      assert [] + FramesEvents(i.frames, m.handles) == FramesEvents(i.frames, m.handles);
    }
  }

  lemma TopRests(m: Machine, s: State, i: Inner)
    requires Fits(m, s, i) && i.frames != []
    ensures i.root.None? && Rests(Top(i)) && forall k :: 0 <= k < |i.frames| - 1 ==> CanFill(i.frames[k])
    ensures FramesOk(i.frames, m.handles)
  {
    hide FramesOk, Ahead;
  }

  /** For every sequence of tokens whatever, and every point of its run: the
      builder never meets, in the events so far, an end with nothing open, a
      mapping that ends after a key, or a `=` it marks as unreachable. */
  lemma ParsedNeverUnbalanced(loader: B.Loader, tokens: seq<Tok>, broken: bool, es: seq<Event>, last: Machine)
    requires B.Sound(loader)
    ensures Emits(Start(tokens, broken), es, last) && B.Run(loader, B.FRESH, es).Err? ==>
              B.Run(loader, B.FRESH, es).fault == DocumentFault || C.ContentFault(B.Run(loader, B.FRESH, es).fault)
  {
    hide Emits, Agrees, CtxTokens, CtxEvents, StreamEvents, B.Run, B.Sound, C.ContentFault;
    if Emits(Start(tokens, broken), es, last) {
      FreshStart(tokens, broken);
      var c := RunAdvances(Start(tokens, broken), es, last, Fresh);
      assert [] + es == es;
      var more, docs := CtxCompletes(last, c);
      B.RunConcat(loader, B.FRESH, es, more);
      C.BuilderFaults(loader, docs);
    }
  }
}
