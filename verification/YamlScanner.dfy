/** PyYAML's reader and scanner: an object that walks a text and queues tokens,
    some of them behind tokens it has queued already. */
module YamlScanner {
  import opened Results
  import opened YamlTokens
  import opened ScannerState
  import Utf8
  import F = FlowScalars
  import T = TagText
  import L = LineText
  import O = OpenScalars
  import C = Scanning

  lemma Inhabited(s: set<int>)
    ensures s != {} ==> exists x :: x in s
  {
    assert (forall x :: x !in s) ==> s == {};
  }

  lemma SameMap(m: map<int, SimpleKey>, n: map<int, SimpleKey>)
    ensures (forall l :: l in m <==> l in n) && (forall l :: l in m ==> m[l] == n[l]) ==> m == n
  {
    assert (forall l :: l in m <==> l in n) && (forall l :: l in m ==> m[l] == n[l]) ==> m == n;
  }

  class Scanner {
    const buffer: seq<char>
    var pointer: nat
    var line: nat
    var column: nat
    var done: bool
    var flowLevel: int
    var tokens: seq<Tok>
    var tokensTaken: nat
    var indent: int
    var indents: seq<int>
    var allowSimpleKey: bool
    var possibleSimpleKeys: map<int, SimpleKey>
    ghost var delivered: seq<Tok>

    /** The line and column are those of the pointer, which has not passed the closing NUL. */
    ghost predicate Placed()
      reads this`pointer, this`line, this`column
    {
      && Terminated(buffer) && pointer < |buffer|
      && line == LineAt(buffer, pointer) && column == ColumnAt(buffer, pointer)
    }

    /** The queue, the keys and the indentation agree. */
    ghost predicate Ordered()
      reads this
    {
      && tokensTaken == |delivered|
      && IndentsOk(indents, indent)
      && Nested(delivered + tokens, |indents|)
      && Framed(delivered + tokens, done)
      && flowLevel == Flow(delivered + tokens)
    }

    ghost predicate Valid()
      reads this
    {
      && Placed() && Ordered()
      && KeysOk(possibleSimpleKeys, buffer, tokensTaken, |tokens|, flowLevel, pointer)
      && Pointed(possibleSimpleKeys, delivered + tokens)
      && (done ==> possibleSimpleKeys == map[])
      && (done && flowLevel == 0 ==> indents == [])
    }

    /** The front of the queue is settled: nothing needs scanning before it is taken. */
    ghost predicate Ready()
      reads this
    {
      done || (tokens != [] && Committed(possibleSimpleKeys, tokensTaken, |tokens|, 1)
               && forall l :: l in possibleSimpleKeys ==> Fresh(possibleSimpleKeys[l], line, pointer))
    }

    ghost function View(): C.Scan
      reads this
    {
      C.Scan(pointer, tokens, tokensTaken, flowLevel, indent, indents, allowSimpleKey, possibleSimpleKeys, done)
    }

    /** Tokens already out of reach of insertions stay as they are, and out of reach. */
    twostate predicate Settled()
      reads this
    {
      && tokensTaken == old(tokensTaken) && delivered == old(delivered)
      && Kept(old(possibleSimpleKeys), old(tokens), possibleSimpleKeys, tokens, tokensTaken)
    }

    constructor (text: string)
      requires forall i :: 0 <= i < |text| ==> Printable(text[i])
      ensures Valid() && buffer == text + ['\0'] && View() == C.START && delivered == []
    {
      buffer := text + ['\0'];
      pointer, line, column := 0, 0, 0;
      done := false;
      flowLevel := 0;
      tokens, tokensTaken := [Tok.StreamStart], 0;
      indent, indents := -1, [];
      allowSimpleKey := true;
      possibleSimpleKeys := map[];
      delivered := [];
      new;
      assert delivered + tokens == [Tok.StreamStart];
      Begun(text);
    }

    // --- the reader

    function Peek(index: nat): (c: char)
      requires pointer <= |buffer|
      reads this`pointer
      ensures pointer + index < |buffer| ==> c == buffer[pointer + index]
      ensures pointer + index >= |buffer| ==> c == '\0'
    {
      CharAt(buffer, pointer + index)
    }

    /** At most `length` characters from here. */
    function Prefix(length: nat): (s: string)
      requires pointer <= |buffer|
      reads this`pointer
    {
      var end := if pointer + length <= |buffer| then pointer + length else |buffer|;
      buffer[pointer..end]
    }

    method Forward(length: nat)
      requires pointer <= |buffer| && line == LineAt(buffer, pointer) && column == ColumnAt(buffer, pointer)
      modifies this`pointer, this`line, this`column
      ensures pointer == if old(pointer) + length <= |buffer| then old(pointer) + length else |buffer|
      ensures line == LineAt(buffer, pointer) && column == ColumnAt(buffer, pointer)
    {
      var i := 0;
      while i < length
        invariant i <= length && pointer == old(pointer) + i <= |buffer|
        invariant line == LineAt(buffer, pointer) && column == ColumnAt(buffer, pointer)
      {
        if pointer >= |buffer| {
          return;
        }
        var ch := buffer[pointer];
        pointer := pointer + 1;
        if ch == '\n' || ch == '\U{0085}' || ch == '\U{2028}' || ch == '\U{2029}' || (ch == '\r' && Peek(0) != '\n') {
          line, column := line + 1, 0;
        } else if ch != '\U{feff}' {
          column := column + 1;
        }
        i := i + 1;
      }
    }

    /** How many characters from here on are of a class; the closing NUL is of none. */
    method RunLength(class_: char -> bool, start: nat) returns (length: nat)
      requires Placed() && !class_('\0') && pointer + start < |buffer|
      ensures start <= length && pointer + length < |buffer| && !class_(buffer[pointer + length])
      ensures forall j :: pointer + start <= j < pointer + length ==> class_(buffer[j])
    {
      length := start;
      while class_(Peek(length))
        invariant start <= length && pointer + length < |buffer|
        invariant forall j :: pointer + start <= j < pointer + length ==> class_(buffer[j])
        decreases |buffer| - length
      {
        length := length + 1;
      }
    }

    /** Skips every character of a class. */
    method SkipWhile(class_: char -> bool)
      requires Placed() && !class_('\0')
      modifies this`pointer, this`line, this`column
      ensures Placed() && old(pointer) <= pointer && !class_(buffer[pointer])
      ensures forall i :: old(pointer) <= i < pointer ==> class_(buffer[i])
    {
      while class_(Peek(0))
        invariant Placed() && old(pointer) <= pointer
        invariant forall i :: old(pointer) <= i < pointer ==> class_(buffer[i])
        decreases |buffer| - pointer
      {
        Forward(1);
      }
    }

    /** A line break, as the text it stands for; nothing where there is none. */
    method ScanLineBreak() returns (s: string)
      requires Placed()
      modifies this`pointer, this`line, this`column
      ensures Placed()
      ensures Break(buffer[old(pointer)]) <==> s != ""
      ensures s == "" ==> pointer == old(pointer)
      ensures s != "" ==> old(pointer) < pointer && line == old(line) + 1 && column == 0
      ensures s != "" ==> pointer == F.AfterBreak(buffer, old(pointer)) && s == F.BreakText(buffer[old(pointer)])
      ensures GapsOnly(buffer, old(pointer), pointer) && GapsOnly(s, 0, |s|)
    {
      var ch := Peek(0);
      if ch == '\r' || ch == '\n' || ch == '\U{0085}' {
        if Prefix(2) == "\r\n" {
          Forward(2);
        } else {
          assert ch == '\r' && pointer + 1 < |buffer| ==> buffer[pointer..pointer + 2] == [ch, buffer[pointer + 1]];
          Forward(1);
        }
        return "\n";
      } else if ch == '\U{2028}' || ch == '\U{2029}' {
        Forward(1);
        return [ch];
      }
      return "";
    }

    // --- simple keys

    method StalePossibleSimpleKeys() returns (r: Result<()>)
      modifies this`possibleSimpleKeys
      ensures pointer <= |buffer| && line == LineAt(buffer, pointer) ==>
                match C.Staled(buffer, old(View()))
                case Ok(n) => r.Ok? && View() == n
                case Err(_) => r.Err?
      ensures r.Ok? ==> possibleSimpleKeys == Still(old(possibleSimpleKeys), line, pointer)
      ensures r.Err? <==> Lost(old(possibleSimpleKeys), line, pointer)
    {
      ghost var keys := possibleSimpleKeys;
      var levels := possibleSimpleKeys.Keys;
      while levels != {}
        invariant levels <= keys.Keys
        invariant forall l :: l in possibleSimpleKeys <==> l in keys && (l in levels || Fresh(keys[l], line, pointer))
        invariant forall l :: l in possibleSimpleKeys ==> possibleSimpleKeys[l] == keys[l]
        invariant forall l :: l in keys && l !in levels && !Fresh(keys[l], line, pointer) ==> !keys[l].required
        decreases levels
      {
        Inhabited(levels);
        var level :| level in levels;
        levels := levels - {level};
        var key := possibleSimpleKeys[level];
        if key.line != line || pointer - key.index > 1024 {
          if key.required {
            return Err(ScanFault);
          }
          possibleSimpleKeys := possibleSimpleKeys - {level};
        }
      }
      SameMap(possibleSimpleKeys, Still(keys, line, pointer));
      return Ok(());
    }

    /** The number of the first token a key may still begin with. */
    method NextPossibleSimpleKey() returns (r: Option<nat>)
      ensures r.None? <==> possibleSimpleKeys == map[]
      ensures r.Some? ==> (exists l :: l in possibleSimpleKeys && possibleSimpleKeys[l].tokenNumber == r.value)
      ensures r.Some? ==> forall l :: l in possibleSimpleKeys ==> r.value <= possibleSimpleKeys[l].tokenNumber
    {
      r := None;
      var levels := possibleSimpleKeys.Keys;
      while levels != {}
        invariant levels <= possibleSimpleKeys.Keys
        invariant r.None? <==> levels == possibleSimpleKeys.Keys
        invariant r.Some? ==> exists l :: l in possibleSimpleKeys && possibleSimpleKeys[l].tokenNumber == r.value
        invariant r.Some? ==> forall l :: l in possibleSimpleKeys && l !in levels ==> r.value <= possibleSimpleKeys[l].tokenNumber
        decreases levels
      {
        Inhabited(levels);
        var level :| level in levels;
        levels := levels - {level};
        var n := possibleSimpleKeys[level].tokenNumber;
        if r.None? || n < r.value {
          r := Some(n);
        }
      }
    }

    /** Saves the place where a key may begin; the token it points at is pushed next. */
    method SavePossibleSimpleKey() returns (r: Result<()>)
      requires Valid() && !done
      modifies this`possibleSimpleKeys
      ensures match C.Saved(buffer, old(View()))
              case Ok(n) => r.Ok? && View() == n
              case Err(_) => r.Err?
      ensures r.Err? <==> old(allowSimpleKey && Held())
      ensures r.Ok? ==>
        && KeysOk(possibleSimpleKeys, buffer, tokensTaken, |tokens| + 1, flowLevel, pointer)
        && Pointed(possibleSimpleKeys, delivered + tokens)
        && possibleSimpleKeys == if !allowSimpleKey then old(possibleSimpleKeys) else
             old(possibleSimpleKeys)[flowLevel := SimpleKey(tokensTaken + |tokens|, flowLevel == 0 && indent == column, pointer, line, column)]
    {
      hide LineAt, ColumnAt, Nested, IndentsOk, Terminated, Flow;
      var required := flowLevel == 0 && indent == column;
      if allowSimpleKey {
        var _ :- RemovePossibleSimpleKey();
        var key := SimpleKey(tokensTaken + |tokens|, required, pointer, line, column);
        SaveKey(old(possibleSimpleKeys), buffer, tokensTaken, |tokens|, flowLevel, pointer, key);
        SameMap(possibleSimpleKeys[flowLevel := key], old(possibleSimpleKeys)[flowLevel := key]);
        possibleSimpleKeys := possibleSimpleKeys[flowLevel := key];
      }
      return Ok(());
    }

    /** Whether a key saved at this level has to be one. */
    predicate Held()
      reads this`possibleSimpleKeys, this`flowLevel
    {
      flowLevel in possibleSimpleKeys && possibleSimpleKeys[flowLevel].required
    }

    method RemovePossibleSimpleKey() returns (r: Result<()>)
      modifies this`possibleSimpleKeys
      ensures match C.Removed(old(View()))
              case Ok(n) => r.Ok? && View() == n
              case Err(_) => r.Err?
      ensures possibleSimpleKeys == old(possibleSimpleKeys) - {flowLevel}
      ensures r.Err? <==> old(Held())
    {
      if flowLevel in possibleSimpleKeys {
        var key := possibleSimpleKeys[flowLevel];
        possibleSimpleKeys := possibleSimpleKeys - {flowLevel};
        if key.required {
          return Err(ScanFault);
        }
      }
      return Ok(());
    }

    // --- the queue

    method Push(tok: Tok, ghost depth: int)
      requires Nested(delivered + tokens, depth) && Framed(delivered + tokens, false)
      requires !tok.StreamStart? && depth + Delta(tok) >= 0
      modifies this`tokens
      ensures tokens == old(tokens) + [tok]
      ensures Nested(delivered + tokens, depth + Delta(tok)) && Framed(delivered + tokens, tok.StreamEnd?)
      ensures Flow(delivered + tokens) == old(Flow(delivered + tokens)) + FlowDelta(tok)
    {
      hide Nested, Framed;
      FlowInsert(delivered + tokens, tok, []);
      assert delivered + tokens + [] == delivered + tokens;
      assert delivered + tokens + [tok] + [] == delivered + tokens + [tok];
      AppendNested(delivered + tokens, tok, depth);
      AppendFramed(delivered + tokens, tok);
      tokens := tokens + [tok];
      assert delivered + tokens == delivered + old(tokens) + [tok];
    }

    /** A token at the end of the queue, the last of those a fetch pushes: the keys
        that were saved before, and any saved for the first of them, stay in order. */
    method Queue(tok: Tok, ghost keys: map<int, SimpleKey>, ghost was: seq<Tok>, ghost more: seq<Tok>, ghost level: int, ghost from: nat)
      requires Nested(delivered + tokens, |indents|) && Framed(delivered + tokens, false)
      requires !tok.StreamStart? && |indents| + Delta(tok) >= 0
      requires more != [] && was + more == tokens + [tok] && from <= pointer
      requires KeysOk(possibleSimpleKeys, buffer, |delivered|, |was| + (if OpensKey(more[0]) then 1 else 0), level, from)
      requires Pointed(possibleSimpleKeys, delivered + was)
      requires forall l :: l in possibleSimpleKeys ==>
                 (l in keys && possibleSimpleKeys[l] == keys[l]) || |delivered| + |was| <= possibleSimpleKeys[l].tokenNumber
      modifies this`tokens
      ensures tokens == old(tokens) + [tok]
      ensures Nested(delivered + tokens, |indents| + Delta(tok)) && Framed(delivered + tokens, tok.StreamEnd?)
      ensures Flow(delivered + tokens) == old(Flow(delivered + tokens)) + FlowDelta(tok)
      ensures KeysOk(possibleSimpleKeys, buffer, |delivered|, |tokens|, level, pointer)
      ensures Pointed(possibleSimpleKeys, delivered + tokens)
      ensures Kept(keys, was, possibleSimpleKeys, tokens, |delivered|)
    {
      hide *;
      PushKeys(keys, possibleSimpleKeys, buffer, delivered, was, more, level, from, pointer);
      Push(tok, |indents|);
    }

    /** A token of so many characters, read and queued. */
    method Mark(tok: Tok, length: nat, ghost keys: map<int, SimpleKey>, ghost was: seq<Tok>, ghost more: seq<Tok>)
      requires Placed() && 0 < length && pointer + length < |buffer| && !done
      requires tokensTaken == |delivered| && IndentsOk(indents, indent) && flowLevel == Flow(delivered + tokens) + FlowDelta(tok)
      requires Nested(delivered + tokens, |indents|) && Framed(delivered + tokens, false)
      requires Delta(tok) == 0 && !tok.StreamStart? && !tok.StreamEnd? && more != [] && was + more == tokens + [tok]
      requires KeysOk(possibleSimpleKeys, buffer, |delivered|, |was| + (if OpensKey(more[0]) then 1 else 0), flowLevel, pointer)
      requires Pointed(possibleSimpleKeys, delivered + was)
      requires forall l :: l in possibleSimpleKeys ==>
                 (l in keys && possibleSimpleKeys[l] == keys[l]) || |delivered| + |was| <= possibleSimpleKeys[l].tokenNumber
      modifies this`pointer, this`line, this`column, this`tokens
      ensures Valid() && Kept(keys, was, possibleSimpleKeys, tokens, |delivered|)
      ensures pointer == old(pointer) + length && tokens == old(tokens) + [tok]
    {
      hide Nested, Framed, Flow, IndentsOk, KeysOk, Pointed, Kept, LineAt, ColumnAt, OpensKey, Terminated;
      Forward(length);
      Queue(tok, keys, was, more, flowLevel, old(pointer));
    }

    method Insert(at: nat, tok: Tok, ghost depth: int)
      requires Nested(delivered + tokens, depth) && Framed(delivered + tokens, false)
      requires Delta(tok) >= 0 && !tok.StreamStart? && !tok.StreamEnd? && at <= |tokens| && |delivered| + at > 0
      modifies this`tokens
      ensures tokens == old(tokens)[..at] + [tok] + old(tokens)[at..]
      ensures Nested(delivered + tokens, depth + Delta(tok)) && Framed(delivered + tokens, false)
      ensures Flow(delivered + tokens) == old(Flow(delivered + tokens)) + FlowDelta(tok)
    {
      hide Nested, Framed;
      var front, back := tokens[..at], tokens[at..];
      assert delivered + tokens == delivered + front + back;
      InsertNested(delivered + front, tok, back, depth);
      InsertFramed(delivered + front, tok, back);
      FlowInsert(delivered + front, tok, back);
      tokens := front + [tok] + back;
      assert delivered + tokens == delivered + front + [tok] + back;
    }

    // --- indentation

    /** Ends the blocks deeper than a column; in flow context, none. */
    method UnwindIndent(column: int)
      requires Ordered() && !done && column >= -1
      modifies this`indent, this`indents, this`tokens
      ensures View() == C.Unwound(old(View()), column)
      ensures Ordered()
      ensures |indents| <= |old(indents)| && indents + [indent] == old(indents + [indent])[..|indents| + 1]
      ensures flowLevel != 0 ==> tokens == old(tokens) && indents == old(indents)
      ensures flowLevel == 0 ==> indent <= column && forall i :: |indents| < i <= |old(indents)| ==> old(indents + [indent])[i] > column
      ensures old(tokens) <= tokens && |tokens| - |old(tokens)| == |old(indents)| - |indents|
      ensures forall i :: |old(tokens)| <= i < |tokens| ==> tokens[i].BlockEnd?
    {
      hide Nested, Framed, Flow, IndentsOk;
      C.UnwoundIs(View(), column);
      if flowLevel != 0 {
        return;
      }
      ghost var spec := C.Unwound(View(), column);
      while indent > column
        invariant Ordered() && C.Unwound(View(), column) == spec
        decreases |indents|
      {
        IndentsEmpty(indents, indent);
        PopIndent(indents, indent);
        ghost var depth := |indents|;
        indent, indents := indents[|indents| - 1], indents[..|indents| - 1];
        Push(Tok.BlockEnd, depth);
      }
    }

    method AddIndent(column: int) returns (added: bool)
      requires IndentsOk(indents, indent)
      modifies this`indent, this`indents
      ensures flowLevel == 0 ==> View() == C.Deeper(old(View()), column)
      ensures IndentsOk(indents, indent)
      ensures added <==> old(indent) < column
      ensures if added then indent == column && indents == old(indents) + [old(indent)]
              else indent == old(indent) && indents == old(indents)
    {
      if indent < column {
        PushIndent(indents, indent, column);
        indent, indents := column, indents + [indent];
        return true;
      }
      return false;
    }

    // --- fetchers

    /** What every fetch that succeeds leaves: a whole scanner further on in the
        text, with nothing that was settled disturbed. */
    twostate predicate Fetched()
      reads this
    {
      Valid() && Settled() && old(pointer) <= pointer && (old(pointer) < pointer || done)
    }

    method FetchStreamEnd() returns (r: Result<()>)
      requires Valid() && !done
      modifies this
      ensures match C.FetchedStreamEnd(old(View()))
              case Ok(n) => r.Ok? && View() == n
              case Err(_) => r.Err?
      ensures r.Err? <==> old(Held())
      ensures r.Ok? ==> Fetched() && done && pointer == old(pointer) && possibleSimpleKeys == map[]
      ensures r.Ok? ==> old(tokens) <= tokens && tokens[|tokens| - 1] == Tok.StreamEnd
      ensures r.Ok? && flowLevel == 0 ==> indents == []
    {
      hide Nested, Framed, Flow, IndentsOk, KeysOk, Pointed, Kept, LineAt, ColumnAt, Terminated;
      UnwindIndent(-1);
      IndentsEmpty(indents, indent);
      var _ :- RemovePossibleSimpleKey();
      allowSimpleKey := false;
      ghost var more := tokens[|old(tokens)|..] + [Tok.StreamEnd];
      EndStream(old(possibleSimpleKeys), old(tokens), more);
      assert tokens == old(tokens) + more;
      return Ok(());
    }

    /** The last token, with no key left saved. */
    method EndStream(ghost keys: map<int, SimpleKey>, ghost was: seq<Tok>, ghost more: seq<Tok>)
      requires Placed() && Ordered() && !done && more != [] && was + more == tokens + [Tok.StreamEnd]
      requires flowLevel == 0 ==> indents == []
      modifies this`tokens, this`possibleSimpleKeys, this`done
      ensures Valid() && done && Kept(keys, was, possibleSimpleKeys, tokens, |delivered|)
      ensures possibleSimpleKeys == map[] && tokens == old(tokens) + [Tok.StreamEnd]
    {
      hide Nested, Framed, Flow, IndentsOk, KeysOk, Pointed, Kept, LineAt, ColumnAt, Terminated;
      possibleSimpleKeys := map[];
      Push(Tok.StreamEnd, |indents|);
      done := true;
      NoKeys(keys, buffer, delivered, was, more, flowLevel, pointer);
    }

    method FetchFlowCollectionStart(tok: Tok) returns (r: Result<()>)
      requires Valid() && !done && buffer[pointer] != '\0' && (tok.FlowSequenceStart? || tok.FlowMappingStart?)
      modifies this
      ensures match C.FetchedFlowStart(buffer, old(View()), tok)
              case Ok(n) => r.Ok? && View() == n
              case Err(_) => r.Err?
      ensures r.Err? <==> old(allowSimpleKey && Held())
      ensures r.Ok? ==> Fetched() && !done && tokens == old(tokens) + [tok] && flowLevel == old(flowLevel) + 1 && allowSimpleKey
    {
      hide Nested, Framed, Flow, IndentsOk, KeysOk, Pointed, Kept, LineAt, ColumnAt, C.Saved;
      var _ :- SavePossibleSimpleKey();
      LevelKeys(possibleSimpleKeys, buffer, tokensTaken, |tokens| + 1, flowLevel, pointer);
      flowLevel := flowLevel + 1;
      allowSimpleKey := true;
      Mark(tok, 1, old(possibleSimpleKeys), tokens, [tok]);
      return Ok(());
    }

    method FetchDirective() returns (r: Result<()>)
      requires Valid() && !done && buffer[pointer] != '\0'
      modifies this
      ensures match C.FetchedDirective(buffer, old(View()))
              case Ok(n) => r.Ok? && View() == n
              case Err(_) => r.Err?
      ensures r.Err? <==> old(Held()) || L.DirectiveAt(buffer, old(pointer)).Err?
      ensures r.Ok? ==> Fetched() && !done && old(tokens) < tokens
      ensures r.Ok? ==> var read := L.DirectiveAt(buffer, old(pointer)).value;
                        tokens[|tokens| - 1] == Tok.DirectiveTok(read.directive) && pointer == read.next
      ensures r.Ok? && flowLevel == 0 ==> indents == []
    {
      hide L.DirectiveAt;
      hide Nested, Framed, Flow, IndentsOk, KeysOk, Pointed, Kept, LineAt, ColumnAt, C.Unwound;
      UnwindIndent(-1);
      IndentsEmpty(indents, indent);
      var _ :- RemovePossibleSimpleKey();
      allowSimpleKey := false;
      var d :- ScanDirective();
      ghost var more := tokens[|old(tokens)|..] + [Tok.DirectiveTok(d)];
      RemoveKey(old(possibleSimpleKeys), buffer, tokensTaken, delivered + old(tokens), |old(tokens)|, flowLevel, old(pointer));
      Queue(Tok.DirectiveTok(d), old(possibleSimpleKeys), old(tokens), more, flowLevel, old(pointer));
      assert tokens == old(tokens) + more;
      return Ok(());
    }

    /** Whether a document indicator starts here. */
    predicate CheckDocumentIndicator(indicator: string)
      requires pointer <= |buffer|
      reads this`pointer, this`column
    {
      column == 0 && IndicatorHere(indicator)
    }

    predicate IndicatorHere(indicator: string)
      requires pointer <= |buffer|
      reads this`pointer
    {
      Prefix(3) == indicator && BlankzTab(Peek(3))
    }

    lemma IndicatorsHere()
      requires pointer <= |buffer|
      ensures IndicatorHere("---") <==> IndicatorAt(buffer, pointer, "---")
      ensures IndicatorHere("...") <==> IndicatorAt(buffer, pointer, "...")
    {
    }

    method FetchDocumentIndicator(tok: Tok) returns (r: Result<()>)
      requires Valid() && !done && (tok.DocumentStart? || tok.DocumentEnd?)
      requires CheckDocumentIndicator(if tok.DocumentStart? then "---" else "...")
      modifies this
      ensures match C.FetchedIndicator(old(View()), tok)
              case Ok(n) => r.Ok? && View() == n
              case Err(_) => r.Err?
      ensures r.Err? <==> old(Held())
      ensures r.Ok? ==> Fetched() && !done && old(tokens) < tokens && tokens[|tokens| - 1] == tok
      ensures r.Ok? && flowLevel == 0 ==> indents == []
      ensures r.Ok? ==> pointer == old(pointer) + 3
    {
      hide Nested, Framed, Flow, IndentsOk, KeysOk, Pointed, Kept, LineAt, ColumnAt, C.Unwound;
      UnwindIndent(-1);
      IndentsEmpty(indents, indent);
      var _ :- RemovePossibleSimpleKey();
      allowSimpleKey := false;
      assert pointer + 3 < |buffer| by { ThreeAhead(buffer, pointer, Prefix(3)); }
      ghost var more := tokens[|old(tokens)|..] + [tok];
      RemoveKey(old(possibleSimpleKeys), buffer, tokensTaken, delivered + old(tokens), |old(tokens)|, flowLevel, pointer);
      Mark(tok, 3, old(possibleSimpleKeys), old(tokens), more);
      assert tokens == old(tokens) + more;
      return Ok(());
    }

    method FetchFlowCollectionEnd(tok: Tok) returns (r: Result<()>)
      requires Valid() && !done && buffer[pointer] != '\0' && (tok.FlowSequenceEnd? || tok.FlowMappingEnd?)
      modifies this
      ensures match C.FetchedFlowEnd(old(View()), tok)
              case Ok(n) => r.Ok? && View() == n
              case Err(_) => r.Err?
      ensures r.Err? <==> old(Held())
      ensures r.Ok? ==> Fetched() && !done && tokens == old(tokens) + [tok] && flowLevel == old(flowLevel) - 1 && !allowSimpleKey
    {
      hide Nested, Framed, Flow, IndentsOk, KeysOk, Pointed, Kept, LineAt, ColumnAt;
      var _ :- RemovePossibleSimpleKey();
      RemoveKey(old(possibleSimpleKeys), buffer, tokensTaken, delivered + tokens, |tokens|, flowLevel, pointer);
      flowLevel := flowLevel - 1;
      allowSimpleKey := false;
      Mark(tok, 1, old(possibleSimpleKeys), tokens, [tok]);
      return Ok(());
    }

    method FetchFlowEntry() returns (r: Result<()>)
      requires Valid() && !done && buffer[pointer] != '\0'
      modifies this
      ensures match C.FetchedFlowEntry(old(View()))
              case Ok(n) => r.Ok? && View() == n
              case Err(_) => r.Err?
      ensures r.Err? <==> old(Held())
      ensures r.Ok? ==> Fetched() && !done && tokens == old(tokens) + [Tok.FlowEntry] && allowSimpleKey
    {
      hide Nested, Framed, Flow, IndentsOk, KeysOk, Pointed, Kept, LineAt, ColumnAt;
      allowSimpleKey := true;
      var _ :- RemovePossibleSimpleKey();
      RemoveKey(old(possibleSimpleKeys), buffer, tokensTaken, delivered + tokens, |tokens|, flowLevel, pointer);
      Mark(Tok.FlowEntry, 1, old(possibleSimpleKeys), tokens, [Tok.FlowEntry]);
      return Ok(());
    }

    /** The start of a block collection, where the column is deeper than any open one. */
    method StartBlock(start: Tok, column: int) returns (r: Result<()>)
      requires Ordered() && !done && (start.BlockSequenceStart? || start.BlockMappingStart?)
      modifies this`tokens, this`indent, this`indents
      ensures match C.Opened(old(View()), start, column)
              case Ok(n) => r.Ok? && View() == n
              case Err(_) => r.Err?
      ensures r.Err? <==> flowLevel == 0 && !allowSimpleKey
      ensures r.Ok? ==> Ordered()
      ensures r.Ok? ==> tokens == old(tokens) + Opening(start, flowLevel, old(indent), column)
      ensures r.Ok? && flowLevel == 0 ==> indent >= column
    {
      hide Nested, Framed, Flow, IndentsOk, KeysOk, Pointed, Kept, LineAt, ColumnAt;
      if flowLevel == 0 {
        if !allowSimpleKey {
          return Err(ScanFault);
        }
        ghost var depth := |indents|;
        var added := AddIndent(column);
        if added {
          Push(start, depth);
        }
      }
      return Ok(());
    }

    method FetchBlockEntry() returns (r: Result<()>)
      requires Valid() && !done && buffer[pointer] != '\0'
      modifies this
      ensures match C.FetchedBlockEntry(buffer, old(View()))
              case Ok(n) => r.Ok? && View() == n
              case Err(_) => r.Err?
      ensures r.Ok? ==> Fetched() && !done && allowSimpleKey
      ensures r.Ok? ==> tokens == old(tokens) + Opening(Tok.BlockSequenceStart, flowLevel, old(indent), old(column)) + [Tok.BlockEntry]
      ensures r.Err? <==> old((flowLevel == 0 && !allowSimpleKey) || Held())
    {
      hide Nested, Framed, Flow, IndentsOk, KeysOk, Pointed, Kept, LineAt, ColumnAt, C.Opened;
      var _ :- StartBlock(Tok.BlockSequenceStart, column);
      allowSimpleKey := true;
      var _ :- RemovePossibleSimpleKey();
      RemoveKey(old(possibleSimpleKeys), buffer, tokensTaken, delivered + old(tokens), |old(tokens)|, flowLevel, pointer);
      ghost var more := Opening(Tok.BlockSequenceStart, flowLevel, old(indent), old(column)) + [Tok.BlockEntry];
      Mark(Tok.BlockEntry, 1, old(possibleSimpleKeys), old(tokens), more);
      assert tokens == old(tokens) + more;
      return Ok(());
    }

    method FetchKey() returns (r: Result<()>)
      requires Valid() && !done && buffer[pointer] != '\0'
      modifies this
      ensures match C.FetchedKey(buffer, old(View()))
              case Ok(n) => r.Ok? && View() == n
              case Err(_) => r.Err?
      ensures r.Ok? ==> Fetched() && !done && allowSimpleKey == (flowLevel == 0)
      ensures r.Ok? ==> tokens == old(tokens) + Opening(Tok.BlockMappingStart, flowLevel, old(indent), old(column)) + [Tok.Key]
      ensures r.Err? <==> old((flowLevel == 0 && !allowSimpleKey) || Held())
    {
      hide Nested, Framed, Flow, IndentsOk, KeysOk, Pointed, Kept, LineAt, ColumnAt, C.Opened;
      var _ :- StartBlock(Tok.BlockMappingStart, column);
      allowSimpleKey := flowLevel == 0;
      var _ :- RemovePossibleSimpleKey();
      RemoveKey(old(possibleSimpleKeys), buffer, tokensTaken, delivered + old(tokens), |old(tokens)|, flowLevel, pointer);
      ghost var more := Opening(Tok.BlockMappingStart, flowLevel, old(indent), old(column)) + [Tok.Key];
      Mark(Tok.Key, 1, old(possibleSimpleKeys), old(tokens), more);
      assert tokens == old(tokens) + more;
      return Ok(());
    }

    /** A `:`. If a simple key was saved at this level, a `Key`, and the start of
        a block mapping where it is deeper, go into the queue directly before the
        token that opened the key; no other saved key, and nothing settled, moves. */
    method FetchValue() returns (r: Result<()>)
      requires Valid() && !done && buffer[pointer] != '\0'
      modifies this
      ensures match C.FetchedValue(buffer, old(View()))
              case Ok(n) => r.Ok? && View() == n
              case Err(_) => r.Err?
      ensures r.Ok? ==> Fetched() && !done && pointer == old(pointer) + 1 && flowLevel == old(flowLevel)
      ensures r.Ok? ==> possibleSimpleKeys == old(possibleSimpleKeys) - {flowLevel}
      ensures r.Err? <==> old(flowLevel !in possibleSimpleKeys && flowLevel == 0 && !allowSimpleKey)
      ensures r.Ok? && flowLevel in old(possibleSimpleKeys) ==>
                var key := old(possibleSimpleKeys)[flowLevel];
                && tokensTaken <= key.tokenNumber < tokensTaken + |old(tokens)|
                && var at := key.tokenNumber - tokensTaken;
                && OpensKey(old(tokens)[at])
                && tokens == old(tokens)[..at] + (Opening(Tok.BlockMappingStart, flowLevel, old(indent), key.column) + [Tok.Key])
                             + old(tokens)[at..] + [Tok.Value]
      ensures r.Ok? && flowLevel !in old(possibleSimpleKeys) ==>
                tokens == old(tokens) + Opening(Tok.BlockMappingStart, flowLevel, old(indent), old(column)) + [Tok.Value]
    {
      hide Nested, Framed, Flow, IndentsOk, KeysOk, Pointed, Kept, LineAt, ColumnAt;
      ghost var keys := possibleSimpleKeys;
      if flowLevel in possibleSimpleKeys {
        InsertKey();
        allowSimpleKey := false;
        ghost var queue := tokens;
        Forward(1);
        Queue(Tok.Value, possibleSimpleKeys, tokens, [Tok.Value], flowLevel, old(pointer));
        KeptTwice(keys, old(tokens), possibleSimpleKeys, queue, possibleSimpleKeys, tokens, tokensTaken);
      } else {
        r := ValueAlone();
        return;
      }
      return Ok(());
    }

    /** A `:` with no simple key before it. */
    method ValueAlone() returns (r: Result<()>)
      requires Valid() && !done && buffer[pointer] != '\0' && flowLevel !in possibleSimpleKeys
      modifies this
      ensures match C.FetchedValue(buffer, old(View()))
              case Ok(n) => r.Ok? && View() == n
              case Err(_) => r.Err?
      ensures r.Err? <==> old(flowLevel == 0 && !allowSimpleKey)
      ensures r.Ok? ==> Fetched() && !done && pointer == old(pointer) + 1 && flowLevel == old(flowLevel)
      ensures r.Ok? ==> possibleSimpleKeys == old(possibleSimpleKeys) && allowSimpleKey == (flowLevel == 0)
      ensures r.Ok? ==> tokens == old(tokens) + Opening(Tok.BlockMappingStart, flowLevel, old(indent), old(column)) + [Tok.Value]
    {
      hide Nested, Framed, Flow, IndentsOk, KeysOk, Pointed, Kept, LineAt, ColumnAt, C.Opened;
      var _ :- StartBlock(Tok.BlockMappingStart, column);
      allowSimpleKey := flowLevel == 0;
      var _ := RemovePossibleSimpleKey();
      SameMap(possibleSimpleKeys, old(possibleSimpleKeys));
      ghost var more := Opening(Tok.BlockMappingStart, flowLevel, old(indent), old(column)) + [Tok.Value];
      Mark(Tok.Value, 1, old(possibleSimpleKeys), old(tokens), more);
      assert tokens == old(tokens) + more;
      return Ok(());
    }

    /** Makes the simple key saved at this level a key: a `Key`, and before it the
        start of a mapping where it is deeper, in front of the token it began with. */
    method InsertKey()
      requires Valid() && !done && flowLevel in possibleSimpleKeys
      modifies this`tokens, this`indent, this`indents, this`possibleSimpleKeys
      ensures C.KeyInserted.requires(old(View())) && View() == C.KeyInserted(old(View()))
      ensures Valid() && Settled() && possibleSimpleKeys == old(possibleSimpleKeys) - {flowLevel}
      ensures var key := old(possibleSimpleKeys)[flowLevel];
              && tokensTaken <= key.tokenNumber < tokensTaken + |old(tokens)|
              && var at := key.tokenNumber - tokensTaken;
              && OpensKey(old(tokens)[at])
              && tokens == old(tokens)[..at] + (Opening(Tok.BlockMappingStart, flowLevel, old(indent), key.column) + [Tok.Key])
                           + old(tokens)[at..]
    {
      hide Nested, Framed, Flow, IndentsOk, KeysOk, Pointed, Kept, LineAt, ColumnAt;
      var key := possibleSimpleKeys[flowLevel];
      KeyPlace(possibleSimpleKeys, buffer, tokensTaken, |tokens|, flowLevel, pointer);
      var at := key.tokenNumber - tokensTaken;
      ghost var more := Opening(Tok.BlockMappingStart, flowLevel, indent, key.column) + [Tok.Key];
      InsertKeys(possibleSimpleKeys, buffer, delivered, tokens, more, flowLevel, pointer);
      ghost var was := tokens;
      possibleSimpleKeys := possibleSimpleKeys - {flowLevel};
      Insert(at, Tok.Key, |indents|);
      StartInserted(at, key.column);
      Between(was, at, [Tok.Key], Opening(Tok.BlockMappingStart, flowLevel, old(indent), key.column));
    }

    /** The start of a mapping in front of a queued token, where it is deeper. */
    method StartInserted(at: nat, column: int)
      requires Ordered() && !done && at <= |tokens| && |delivered| + at > 0
      modifies this`tokens, this`indent, this`indents
      ensures Ordered() && View() == C.Deeper(old(View()), column).(tokens := tokens)
      ensures tokens == old(tokens)[..at] + Opening(Tok.BlockMappingStart, flowLevel, old(indent), column) + old(tokens)[at..]
    {
      hide Nested, Framed, Flow, IndentsOk;
      ghost var depth := |indents|;
      assert tokens == tokens[..at] + [] + tokens[at..];
      if flowLevel == 0 {
        var added := AddIndent(column);
        if added {
          Insert(at, Tok.BlockMappingStart, depth);
        }
      }
    }

    static lemma Between(ts: seq<Tok>, at: nat, keys: seq<Tok>, starts: seq<Tok>)
      requires at <= |ts|
      ensures var mid := ts[..at] + keys + ts[at..];
              mid[..at] + starts + mid[at..] == ts[..at] + (starts + keys) + ts[at..]
    {
    }

    method FetchAnchor(alias: bool) returns (r: Result<()>)
      requires Valid() && !done && buffer[pointer] != '\0'
      modifies this
      ensures match C.FetchedAnchor(buffer, old(View()), alias)
              case Ok(n) => r.Ok? && View() == n
              case Err(_) => r.Err?
      ensures r.Err? <==> old(allowSimpleKey && Held()) || L.NameAt(buffer, old(pointer) + 1).Err?
      ensures r.Ok? ==> Fetched() && !done && !allowSimpleKey
      ensures r.Ok? ==> var read := L.NameAt(buffer, old(pointer) + 1).value;
                        tokens == old(tokens) + [if alias then Tok.Alias(read.text) else Tok.Anchor(read.text)] && pointer == read.next
    {
      hide Nested, Framed, Flow, IndentsOk, KeysOk, Pointed, Kept, LineAt, ColumnAt, L.NameAt;
      var _ :- SavePossibleSimpleKey();
      allowSimpleKey := false;
      var name :- ScanAnchor();
      var tok := if alias then Tok.Alias(name) else Tok.Anchor(name);
      Queue(tok, old(possibleSimpleKeys), tokens, [tok], flowLevel, old(pointer));
      return Ok(());
    }

    method FetchTag() returns (r: Result<()>)
      requires Valid() && !done && buffer[pointer] == '!'
      modifies this
      ensures match C.FetchedTag(buffer, old(View()))
              case Ok(n) => r.Ok? && View() == n
              case Err(_) => r.Err?
      ensures r.Err? <==> old(allowSimpleKey && Held()) || T.TagAt(buffer, old(pointer)).Err?
      ensures r.Ok? ==> Fetched() && !done && !allowSimpleKey
      ensures r.Ok? ==> var tag := T.TagAt(buffer, old(pointer)).value;
                        tokens == old(tokens) + [Tok.Tag(tag.handle, tag.suffix)] && pointer == tag.next
    {
      hide Nested, Framed, Flow, IndentsOk, KeysOk, Pointed, Kept, LineAt, ColumnAt, T.TagAt;
      var _ :- SavePossibleSimpleKey();
      allowSimpleKey := false;
      var tag :- ScanTag();
      var tok := Tok.Tag(tag.0, tag.1);
      Queue(tok, old(possibleSimpleKeys), tokens, [tok], flowLevel, old(pointer));
      return Ok(());
    }

    method FetchBlockScalar(folded: bool) returns (r: Result<()>)
      requires Valid() && !done && buffer[pointer] != '\0'
      modifies this
      ensures match C.FetchedBlockScalar(buffer, old(View()), folded)
              case Ok(n) => r.Ok? && View() == n
              case Err(_) => r.Err?
      ensures old(indent) >= -1
      ensures r.Err? <==> old(Held()) || O.Block(buffer, old(pointer) + 1, old(indent), folded).Err?
      ensures r.Ok? ==> Fetched() && !done && allowSimpleKey
      ensures r.Ok? ==> var read := O.Block(buffer, old(pointer) + 1, old(indent), folded).value;
                        tokens == old(tokens) + [Tok.Scalar(read.text, false)] && pointer == read.next
    {
      hide Nested, Framed, Flow, KeysOk, Pointed, Kept, LineAt, ColumnAt, IndentsOk, O.Block;
      IndentsEmpty(indents, indent);
      allowSimpleKey := true;
      var _ :- RemovePossibleSimpleKey();
      RemoveKey(old(possibleSimpleKeys), buffer, tokensTaken, delivered + tokens, |tokens|, flowLevel, pointer);
      var value :- ScanBlockScalar(folded);
      var tok := Tok.Scalar(value, false);
      KeysGrow(possibleSimpleKeys, buffer, tokensTaken, |tokens|, flowLevel, old(pointer), |tokens| + 1, pointer);
      Queue(tok, old(possibleSimpleKeys), tokens, [tok], flowLevel, pointer);
      return Ok(());
    }

    method FetchFlowScalar(double: bool) returns (r: Result<()>)
      requires Valid() && !done && buffer[pointer] == if double then '"' else '\''
      modifies this
      ensures match C.FetchedFlowScalar(buffer, old(View()), double)
              case Ok(n) => r.Ok? && View() == n
              case Err(_) => r.Err?
      ensures r.Err? <==> old(allowSimpleKey && Held()) || F.Body(buffer, old(pointer) + 1, double).Err?
      ensures r.Ok? ==> Fetched() && !done && !allowSimpleKey
      ensures r.Ok? ==> var read := F.Body(buffer, old(pointer) + 1, double);
                        read.Ok? && tokens == old(tokens) + [Tok.Scalar(read.value.text, false)] && pointer == read.value.next + 1
    {
      hide F.Body;
      hide Nested, Framed, Flow, IndentsOk, KeysOk, Pointed, Kept, LineAt, ColumnAt;
      var _ :- SavePossibleSimpleKey();
      allowSimpleKey := false;
      var value :- ScanFlowScalar(double);
      var tok := Tok.Scalar(value, false);
      Queue(tok, old(possibleSimpleKeys), tokens, [tok], flowLevel, old(pointer));
      return Ok(());
    }

    method FetchPlain() returns (r: Result<()>)
      requires Valid() && !done && CheckPlain()
      modifies this
      ensures match C.FetchedPlain(buffer, old(View()))
              case Ok(n) => r.Ok? && View() == n
              case Err(_) => r.Err?
      ensures r.Err? <==> old(allowSimpleKey && Held())
      ensures r.Ok? ==> Fetched() && !done
      ensures r.Ok? ==> var read := O.Plain(buffer, old(pointer), flowLevel, old(indent) + 1);
                        && tokens == old(tokens) + [Tok.Scalar(read.text, true)]
                        && pointer == read.next && allowSimpleKey == read.broken
    {
      hide Nested, Framed, Flow, IndentsOk, KeysOk, Pointed, Kept, LineAt, ColumnAt, O.Plain, PlainAt;
      var _ :- SavePossibleSimpleKey();
      allowSimpleKey := false;
      var value := ScanPlain();
      var tok := Tok.Scalar(value, true);
      Queue(tok, old(possibleSimpleKeys), tokens, [tok], flowLevel, old(pointer));
      return Ok(());
    }

    /** What the next token is, if there is one: more of the text is read, or the stream ends. */
    method FetchMoreTokens() returns (r: Result<()>)
      requires Valid() && !done
      modifies this
      ensures match C.Fetched(buffer, old(View()))
              case Ok(n) => r.Ok? && View() == n
              case Err(_) => r.Err?
      ensures r.Ok? ==> Fetched()
      ensures r.Ok? ==> var at := NextToken(buffer, if old(pointer) == 0 && buffer[0] == '\U{feff}' then 1 else old(pointer));
                        at < |buffer| && tokens != [] && Calls(tokens[|tokens| - 1], buffer, at, ColumnAt(buffer, at), old(flowLevel))
    {
      hide Nested, Framed, Flow, IndentsOk, KeysOk, Pointed, Kept, LineAt, ColumnAt, C.Dispatched, C.Unwound, Calls, NextToken;
      ScanToNextToken();
      KeysGrow(possibleSimpleKeys, buffer, tokensTaken, |tokens|, flowLevel, old(pointer), |tokens|, pointer);
      StillKeys(possibleSimpleKeys, buffer, tokensTaken, delivered + tokens, tokens, flowLevel, line, pointer);
      var _ :- StalePossibleSimpleKeys();
      ghost var keys := possibleSimpleKeys;
      UnwindIndent(column);
      Ends(keys, buffer, delivered, old(tokens), tokens, flowLevel, pointer);
      KeptTwice(old(possibleSimpleKeys), old(tokens), keys, old(tokens), keys, tokens, tokensTaken);
      assert Valid();
      label Moved:
      ghost var queue, at := tokens, pointer;
      r := Dispatch();
      if r.Ok? {
        KeptTwice(old(possibleSimpleKeys), old(tokens), keys, queue, possibleSimpleKeys, tokens, tokensTaken);
      }
    }

    /** The fetcher the next characters call for. */
    method Dispatch() returns (r: Result<()>)
      requires Valid() && !done
      modifies this
      ensures match C.Dispatched(buffer, old(View()))
              case Ok(n) => r.Ok? && View() == n
              case Err(_) => r.Err?
      ensures r.Ok? ==> Fetched()
      ensures r.Ok? ==> tokens != [] && Calls(tokens[|tokens| - 1], buffer, old(pointer), old(column), old(flowLevel))
    {
      IndicatorsHere();
      C.MarkerCalls(buffer, View());
      hide Nested, Framed, Flow, IndentsOk, KeysOk, Pointed, Kept, LineAt, ColumnAt, Settled, IndicatorHere, IndicatorAt, PlainAt,
           C.Dispatched, C.FetchedStreamEnd, C.FetchedDirective, C.FetchedIndicator, C.DispatchedStructure, L.DirectiveAt;
      var ch := Peek(0);
      if ch == '\0' {
        r := FetchStreamEnd();
      } else if ch == '%' && column == 0 {
        r := FetchDirective();
      } else if ch == '-' && CheckDocumentIndicator("---") {
        r := FetchDocumentIndicator(Tok.DocumentStart);
      } else if ch == '.' && CheckDocumentIndicator("...") {
        r := FetchDocumentIndicator(Tok.DocumentEnd);
      } else {
        r := DispatchStructure();
      }
    }

    method DispatchStructure() returns (r: Result<()>)
      requires Valid() && !done && buffer[pointer] != '\0'
      requires column == 0 ==> !IndicatorAt(buffer, pointer, "---") && !IndicatorAt(buffer, pointer, "...")
      modifies this
      ensures match C.DispatchedStructure(buffer, old(View()))
              case Ok(n) => r.Ok? && View() == n
              case Err(_) => r.Err?
      ensures r.Ok? ==> Fetched()
      ensures r.Ok? ==> tokens != [] && Calls(tokens[|tokens| - 1], buffer, old(pointer), old(column), old(flowLevel))
    {
      hide Nested, Framed, Flow, IndentsOk, KeysOk, Pointed, Kept, LineAt, ColumnAt, F.Body, O.Plain, O.Block, T.TagAt, L.NameAt, L.DirectiveAt, Settled, IndicatorHere, IndicatorAt, PlainAt,
           C.FetchedStreamEnd, C.FetchedDirective, C.FetchedIndicator, C.FetchedFlowStart, C.FetchedFlowEnd, C.FetchedFlowEntry, C.FetchedBlockEntry,
           C.FetchedKey, C.FetchedValue, C.FetchedAnchor, C.FetchedTag, C.FetchedBlockScalar, C.FetchedFlowScalar, C.FetchedPlain;
      var ch := Peek(0);
      var blank := BlankzTab(Peek(1));
      if ch == '[' {
        r := FetchFlowCollectionStart(Tok.FlowSequenceStart);
      } else if ch == '{' {
        r := FetchFlowCollectionStart(Tok.FlowMappingStart);
      } else if ch == ']' {
        r := FetchFlowCollectionEnd(Tok.FlowSequenceEnd);
      } else if ch == '}' {
        r := FetchFlowCollectionEnd(Tok.FlowMappingEnd);
      } else if ch == ',' {
        r := FetchFlowEntry();
      } else if ch == '-' && blank {
        r := FetchBlockEntry();
      } else if ch == '?' && (flowLevel != 0 || blank) {
        r := FetchKey();
      } else if ch == ':' && (flowLevel != 0 || blank) {
        r := FetchValue();
      } else {
        r := DispatchNode();
      }
    }

    method DispatchNode() returns (r: Result<()>)
      requires Valid() && !done && buffer[pointer] != '\0'
      requires column == 0 ==> !IndicatorAt(buffer, pointer, "---") && !IndicatorAt(buffer, pointer, "...")
      modifies this
      ensures match C.DispatchedNode(buffer, old(View()))
              case Ok(n) => r.Ok? && View() == n
              case Err(_) => r.Err?
      ensures r.Ok? ==> Fetched()
      ensures r.Ok? ==> tokens != [] && Calls(tokens[|tokens| - 1], buffer, old(pointer), old(column), old(flowLevel))
    {
      hide Nested, Framed, Flow, IndentsOk, KeysOk, Pointed, Kept, LineAt, ColumnAt, F.Body, O.Plain, O.Block, T.TagAt, L.NameAt, L.DirectiveAt, Settled, IndicatorHere, IndicatorAt, PlainAt,
           C.FetchedStreamEnd, C.FetchedDirective, C.FetchedIndicator, C.FetchedFlowStart, C.FetchedFlowEnd, C.FetchedFlowEntry, C.FetchedBlockEntry,
           C.FetchedKey, C.FetchedValue, C.FetchedAnchor, C.FetchedTag, C.FetchedBlockScalar, C.FetchedFlowScalar, C.FetchedPlain;
      var ch := Peek(0);
      if ch == '*' {
        r := FetchAnchor(true);
      } else if ch == '&' {
        r := FetchAnchor(false);
      } else if ch == '!' {
        r := FetchTag();
      } else if (ch == '|' || ch == '>') && flowLevel == 0 {
        r := FetchBlockScalar(ch == '>');
      } else if ch == '\'' || ch == '"' {
        r := FetchFlowScalar(ch == '"');
      } else if CheckPlain() {
        r := FetchPlain();
      } else {
        r := Err(ScanFault);
      }
    }

    // --- what the parser asks for

    method NeedMoreTokens() returns (r: Result<bool>)
      requires Valid()
      modifies this`possibleSimpleKeys
      ensures match C.Needed(buffer, old(View()))
              case Ok(needed) => r == Ok(needed.0) && View() == needed.1
              case Err(_) => r.Err?
      ensures r.Ok? ==> Valid() && Settled() && (r.value <==> !Ready())
      ensures old(Ready()) ==> r == Ok(false) && possibleSimpleKeys == old(possibleSimpleKeys)
    {
      hide Nested, Framed, Flow, IndentsOk, KeysOk, Pointed, Kept, LineAt, ColumnAt;
      AppendKept(possibleSimpleKeys, tokens, possibleSimpleKeys, [], tokensTaken);
      assert tokens + [] == tokens;
      if done {
        return Ok(false);
      }
      if tokens == [] {
        return Ok(true);
      }
      StillKeys(possibleSimpleKeys, buffer, tokensTaken, delivered + tokens, tokens, flowLevel, line, pointer);
      SameMap(possibleSimpleKeys, Still(possibleSimpleKeys, line, pointer));
      ghost var was := possibleSimpleKeys;
      var _ :- StalePossibleSimpleKeys();
      assert old(Ready()) ==> possibleSimpleKeys == was;
      var next := NextPossibleSimpleKey();
      Uncommitted(possibleSimpleKeys, buffer, tokensTaken, |tokens|, flowLevel, pointer, next);
      return Ok(next == Some(tokensTaken));
    }

    /** Scans until the front of the queue is settled. */
    method Fill() returns (r: Result<()>)
      requires Valid()
      modifies this
      ensures match C.Filled(buffer, old(View()))
              case Ok(n) => r.Ok? && View() == n
              case Err(_) => r.Err?
      ensures r.Ok? ==> Valid() && Settled() && Ready()
    {
      hide Nested, Framed, Flow, IndentsOk, KeysOk, Pointed, Kept, LineAt, ColumnAt, C.Needed, C.Fetched;
      var more :- NeedMoreTokens();
      while more
        invariant Valid() && Settled() && (more <==> !Ready())
        invariant C.FilledIf(buffer, View(), more) == C.Filled(buffer, old(View()))
        decreases |buffer| - pointer, !done
      {
        ghost var keys, queue := possibleSimpleKeys, tokens;
        var _ :- FetchMoreTokens();
        KeptTwice(old(possibleSimpleKeys), old(tokens), keys, queue, possibleSimpleKeys, tokens, tokensTaken);
        keys, queue := possibleSimpleKeys, tokens;
        more :- NeedMoreTokens();
        KeptTwice(old(possibleSimpleKeys), old(tokens), keys, queue, possibleSimpleKeys, tokens, tokensTaken);
      }
      return Ok(());
    }

    /** Where the front is settled, filling leaves the queue alone. */
    lemma ReadyFilled()
      requires Valid() && Ready()
      ensures C.Filled(buffer, View()) == Ok(View())
    {
      hide Nested, Framed, Flow, IndentsOk, Pointed, Kept, LineAt, ColumnAt;
      if !done {
        SameMap(possibleSimpleKeys, Still(possibleSimpleKeys, line, pointer));
        assert !C.Awaited(View()) by { NoneAwaited(); }
      }
    }

    lemma NoneAwaited()
      requires Valid() && Ready() && !done
      ensures !C.Awaited(View())
    {
      hide Nested, Framed, Flow, IndentsOk, Pointed, Kept, LineAt, ColumnAt;
    }

    /** The next token, if the stream has not ended; once peeked it stays in front. */
    method PeekToken() returns (r: Result<Option<Tok>>)
      requires Valid()
      modifies this
      ensures match C.Filled(buffer, old(View()))
              case Ok(n) => r == Ok(if n.tokens == [] then None else Some(n.tokens[0])) && View() == n
              case Err(_) => r.Err?
      ensures r.Ok? ==> Valid() && Settled() && Ready() && (r.value.None? ==> done)
      ensures old(Ready()) ==> r.Ok? && View() == old(View())
    {
      hide C.Filled;
      if Ready() {
        ReadyFilled();
      }
      var _ :- Fill();
      return Ok(if tokens == [] then None else Some(tokens[0]));
    }

    /** Takes the next token: the one last peeked, and the next of those delivered. */
    method GetToken() returns (r: Result<Tok>)
      requires Valid()
      modifies this
      ensures match C.Filled(buffer, old(View()))
              case Ok(n) => if n.tokens == [] then r == Err(NoMoreTokens) else r == Ok(n.tokens[0]) && View() == C.Took(n)
              case Err(_) => r.Err?
      ensures r.Ok? ==> Valid() && delivered == old(delivered) + [r.value]
      ensures old(Committed(possibleSimpleKeys, tokensTaken, |tokens|, 1)) && r.Ok? ==> r.value == old(tokens)[0]
    {
      hide Nested, Framed, Flow, IndentsOk, KeysOk, Pointed, Kept, LineAt, ColumnAt, C.Filled;
      ghost var sure := Committed(possibleSimpleKeys, tokensTaken, |tokens|, 1);
      var _ :- Fill();
      if tokens == [] {
        return Err(NoMoreTokens);
      }
      if sure {
        SettledFront(old(possibleSimpleKeys), old(tokens), possibleSimpleKeys, tokens, tokensTaken);
      }
      r := Ok(tokens[0]);
      TakeFirst();
    }

    method TakeFirst()
      requires Valid() && tokens != [] && Ready()
      modifies this`tokens, this`tokensTaken, this`delivered
      ensures Valid() && delivered == old(delivered) + [old(tokens)[0]] && View() == C.Took(old(View()))
    {
      hide Nested, Framed, Flow, IndentsOk, KeysOk, Pointed, Kept, LineAt, ColumnAt;
      var t := tokens[0];
      TakeFront(possibleSimpleKeys, buffer, tokensTaken, |tokens|, flowLevel, pointer);
      assert (delivered + [t]) + tokens[1..] == delivered + tokens;
      tokens := tokens[1..];
      tokensTaken := tokensTaken + 1;
      delivered := delivered + [t];
    }

    // --- directives, anchors and tags

    /** Spaces, breaks and comments are passed, and nothing else but a byte order
        mark the text begins with; a break outside flow context lets a simple
        key begin. */
    method ScanToNextToken()
      requires Placed()
      modifies this`pointer, this`line, this`column, this`allowSimpleKey
      ensures Placed() && old(pointer) <= pointer
      ensures pointer == NextToken(buffer, if old(pointer) == 0 && buffer[0] == '\U{feff}' then 1 else old(pointer))
      ensures allowSimpleKey == (old(allowSimpleKey) || (flowLevel == 0 && line > old(line)))
      ensures buffer[pointer] != ' ' && buffer[pointer] != '#' && !Break(buffer[pointer])
    {
      hide LineAt, ColumnAt;
      if pointer == 0 && Peek(0) == '\U{feff}' {
        LineKept(buffer, 0, 1);
        Forward(1);
      }
      ghost var start := pointer;
      while true
        invariant Placed() && old(pointer) <= pointer && old(line) <= line
        invariant NextToken(buffer, pointer) == NextToken(buffer, start)
        invariant allowSimpleKey == (old(allowSimpleKey) || (flowLevel == 0 && line > old(line)))
        decreases |buffer| - pointer
      {
        SkipSpaces();
        SkipComment();
        var s := ScanLineBreak();
        if s == "" {
          return;
        }
        if flowLevel == 0 {
          allowSimpleKey := true;
        }
      }
    }

    method SkipSpaces()
      requires Placed()
      modifies this`pointer, this`line, this`column
      ensures Placed() && old(pointer) <= pointer && line == old(line) && buffer[pointer] != ' '
      ensures forall i :: old(pointer) <= i < pointer ==> buffer[i] == ' '
      ensures NextToken(buffer, pointer) == NextToken(buffer, old(pointer))
      ensures pointer == L.SpacesEnd(buffer, old(pointer))
    {
      SkipWhile((c: char) => c == ' ');
      hide LineAt, ColumnAt;
      L.SpacesEndIs(buffer, old(pointer), pointer);
      LineKept(buffer, old(pointer), pointer);
      SpacesPassed(buffer, old(pointer), pointer);
    }

    /** A comment, if one stands here, up to the end of its line. */
    method SkipComment()
      requires Placed()
      modifies this`pointer, this`line, this`column
      ensures Placed() && line == old(line)
      ensures pointer == if buffer[old(pointer)] == '#' then LineEnd(buffer, old(pointer)) else old(pointer)
      ensures buffer[pointer] != '#' && (buffer[old(pointer)] != ' ' ==> buffer[pointer] != ' ')
      ensures old(pointer) <= pointer && NextToken(buffer, pointer) == NextToken(buffer, old(pointer))
    {
      hide LineAt, ColumnAt;
      if Peek(0) == '#' {
        SkipWhile((c: char) => !Breakz(c));
        LineKept(buffer, old(pointer), pointer);
        LineEndIs(buffer, old(pointer), pointer);
      }
    }

    /** Whether a `---` or `...` line starts here. */
    predicate Separator()
      requires pointer <= |buffer|
      reads this`pointer
    {
      IndicatorHere("---") || IndicatorHere("...")
    }

    method ScanDirective() returns (r: Result<Directive>)
      requires Placed() && buffer[pointer] != '\0'
      modifies this`pointer, this`line, this`column
      ensures Placed() && old(pointer) < pointer
      ensures match L.DirectiveAt(buffer, old(pointer))
              case Ok(read) => r == Ok(read.directive) && pointer == read.next
              case Err(_) => r.Err?
    {
      hide LineAt, ColumnAt, L.SaidAt, L.RestOfLine;
      Forward(1);
      var value :- ScanDirectiveSaid();
      var _ :- ScanIgnoredLine();
      return Ok(value);
    }

    method ScanDirectiveSaid() returns (r: Result<Directive>)
      requires Placed()
      modifies this`pointer, this`line, this`column
      ensures Placed() && old(pointer) <= pointer
      ensures match L.SaidAt(buffer, old(pointer))
              case Ok(read) => r == Ok(read.directive) && pointer == read.next
              case Err(_) => r.Err?
    {
      hide LineAt, ColumnAt, L.VersionAt, L.HandleAndPrefix;
      var name :- ScanDirectiveName();
      if name == "YAML" {
        r := ScanYamlDirectiveValue();
        return;
      } else if name == "TAG" {
        r := ScanTagDirectiveValue();
        return;
      }
      ghost var start := pointer;
      SkipWhile((c: char) => !Breakz(c));
      LineEndIs(buffer, start, pointer);
      return Ok(OtherDirective);
    }

    method ScanDirectiveName() returns (r: Result<string>)
      requires Placed()
      modifies this`pointer, this`line, this`column
      ensures Placed() && old(pointer) <= pointer
      ensures var end := T.WordEnd(buffer, old(pointer));
              if old(pointer) < end <= |buffer| && Blankz(CharAt(buffer, end)) then r == Ok(buffer[old(pointer)..end]) && pointer == end
              else r.Err?
    {
      var length := RunLength(Word, 0);
      T.WordEndIs(buffer, pointer, pointer + length);
      if length == 0 {
        return Err(ScanFault);
      }
      var value := Prefix(length);
      Forward(length);
      if !Blankz(Peek(0)) {
        return Err(ScanFault);
      }
      return Ok(value);
    }

    method ScanYamlDirectiveValue() returns (r: Result<Directive>)
      requires Placed()
      modifies this`pointer, this`line, this`column
      ensures Placed() && old(pointer) <= pointer
      ensures match L.VersionAt(buffer, old(pointer))
              case Ok(read) => r == Ok(read.directive) && pointer == read.next
              case Err(_) => r.Err?
    {
      hide LineAt, ColumnAt, WithoutZeros, L.SpacesEnd, L.DigitsEnd, Digit;
      SkipSpaces();
      var major :- ScanYamlDirectiveNumber();
      if Peek(0) != '.' {
        return Err(ScanFault);
      }
      Forward(1);
      var _ :- ScanYamlDirectiveNumber();
      if !Blankz(Peek(0)) {
        return Err(ScanFault);
      }
      return Ok(YamlDirective(WithoutZeros(major) == "1"));
    }

    method ScanYamlDirectiveNumber() returns (r: Result<string>)
      requires Placed()
      modifies this`pointer, this`line, this`column
      ensures Placed() && old(pointer) <= pointer
      ensures var end := L.DigitsEnd(buffer, old(pointer));
              if old(pointer) < end < |buffer| then r == Ok(buffer[old(pointer)..end]) && pointer == end else r.Err? && end == old(pointer)
    {
      if !Digit(Peek(0)) {
        return Err(ScanFault);
      }
      var length := RunLength(Digit, 0);
      L.DigitsEndIs(buffer, pointer, pointer + length);
      var value := Prefix(length);
      Forward(length);
      return Ok(value);
    }

    method ScanTagDirectiveValue() returns (r: Result<Directive>)
      requires Placed()
      modifies this`pointer, this`line, this`column
      ensures Placed() && old(pointer) <= pointer
      ensures match L.HandleAndPrefix(buffer, old(pointer))
              case Ok(read) => r == Ok(read.directive) && pointer == read.next
              case Err(_) => r.Err?
    {
      hide LineAt, ColumnAt, T.Handle, T.Uri, L.SpacesEnd;
      SkipSpaces();
      var handle :- ScanTagHandle();
      if Peek(0) != ' ' {
        return Err(ScanFault);
      }
      SkipSpaces();
      var prefix :- ScanTagUri();
      if !Blankz(Peek(0)) {
        return Err(ScanFault);
      }
      return Ok(TagDirective(handle, prefix));
    }

    /** To the end of a line on which only a comment may still stand. */
    method ScanIgnoredLine() returns (r: Result<()>)
      requires Placed()
      modifies this`pointer, this`line, this`column
      ensures Placed() && old(pointer) <= pointer
      ensures match L.RestOfLine(buffer, old(pointer))
              case Ok(next) => r.Ok? && pointer == next
              case Err(_) => r.Err?
      ensures r.Ok? ==> buffer[pointer] == '\0' || column == 0
    {
      hide LineAt, ColumnAt, L.SpacesEnd, LineEnd;
      SkipSpaces();
      SkipComment();
      if !Breakz(Peek(0)) {
        return Err(ScanFault);
      }
      var _ := ScanLineBreak();
      return Ok(());
    }

    method ScanAnchor() returns (r: Result<string>)
      requires Placed() && buffer[pointer] != '\0'
      modifies this`pointer, this`line, this`column
      ensures Placed() && old(pointer) < pointer
      ensures match L.NameAt(buffer, old(pointer) + 1)
              case Ok(read) => r == Ok(read.text) && pointer == read.next
              case Err(_) => r.Err?
    {
      hide LineAt, ColumnAt;
      Forward(1);
      var length := RunLength(Word, 0);
      T.WordEndIs(buffer, pointer, pointer + length);
      if length == 0 {
        return Err(ScanFault);
      }
      var value := Prefix(length);
      Forward(length);
      if !BlankzTab(Peek(0)) && Peek(0) !in "?:,]}%@`" {
        return Err(ScanFault);
      }
      return Ok(value);
    }

    method ScanTag() returns (r: Result<(Option<string>, string)>)
      requires Placed() && buffer[pointer] == '!'
      modifies this`pointer, this`line, this`column
      ensures Placed() && old(pointer) < pointer
      ensures match T.TagAt(buffer, old(pointer))
              case Ok(tag) => r == Ok((tag.handle, tag.suffix)) && pointer == tag.next
              case Err(_) => r.Err?
    {
      hide LineAt, ColumnAt, T.Uri, T.Handle, UriChar;
      var ch := Peek(1);
      var handle, suffix := None, "!";
      if ch == '<' {
        Forward(2);
        suffix :- ScanTagUri();
        if Peek(0) != '>' {
          return Err(ScanFault);
        }
        Forward(1);
      } else if BlankzTab(ch) {
        Forward(1);
      } else {
        var h :- ScanTagPrefix();
        handle := Some(h);
        suffix :- ScanTagUri();
      }
      if !Blankz(Peek(0)) {
        return Err(ScanFault);
      }
      return Ok((handle, suffix));
    }

    /** The handle before a suffix: one that ends with a `!`, where one is ahead, or `!` alone. */
    method ScanTagPrefix() returns (r: Result<string>)
      requires Placed() && buffer[pointer] == '!'
      modifies this`pointer, this`line, this`column
      ensures Placed() && old(pointer) < pointer
      ensures match if T.BangAhead(buffer, old(pointer) + 1) then T.Handle(buffer, old(pointer)) else Ok(F.Read("!", old(pointer) + 1))
              case Ok(read) => r == Ok(read.text) && pointer == read.next
              case Err(_) => r.Err?
    {
      var length := 1;
      var ch := Peek(length);
      var useHandle := false;
      while !Blankz(ch)
        invariant ch == Peek(length) && 1 <= length && pointer + length < |buffer|
        invariant T.BangAhead(buffer, pointer + 1) <==> T.BangAhead(buffer, pointer + length)
        decreases |buffer| - length, !useHandle
      {
        if ch == '!' {
          useHandle := true;
          break;
        }
        length := length + 1;
        ch := Peek(length);
      }
      if useHandle {
        r := ScanTagHandle();
        return;
      }
      Forward(1);
      return Ok("!");
    }

    method ScanTagHandle() returns (r: Result<string>)
      requires Placed()
      modifies this`pointer, this`line, this`column
      ensures Placed() && old(pointer) <= pointer && (buffer[old(pointer)] == '!' ==> old(pointer) < pointer)
      ensures match T.Handle(buffer, old(pointer))
              case Ok(read) => r == Ok(read.text) && pointer == read.next && read.text != ""
              case Err(_) => r.Err?
    {
      hide LineAt, ColumnAt;
      if Peek(0) != '!' {
        return Err(ScanFault);
      }
      var length := 1;
      var ch := Peek(length);
      if ch != ' ' {
        length := RunLength(Word, 1);
        T.WordEndIs(buffer, pointer + 1, pointer + length);
        ch := Peek(length);
        if ch != '!' {
          Forward(length);
          return Err(ScanFault);
        }
        length := length + 1;
      } else {
        assert Prefix(1) == "!";
      }
      var value := Prefix(length);
      Forward(length);
      return Ok(value);
    }

    method ScanTagUri() returns (r: Result<string>)
      requires Placed()
      modifies this`pointer, this`line, this`column
      ensures Placed() && old(pointer) <= pointer
      ensures match T.Uri(buffer, old(pointer))
              case Ok(read) => if read.text != "" then r == Ok(read.text) && pointer == read.next else r.Err?
              case Err(_) => r.Err?
    {
      hide LineAt, ColumnAt, Terminated, T.Uri, F.Join, UriChar;
      var chunks := "";
      var length := 0;
      var ch := Peek(length);
      ghost var spec := T.Uri(buffer, pointer);
      F.EmptyJoin(spec);
      assert chunks + Prefix(0) == chunks;
      while UriChar(ch)
        invariant Placed() && old(pointer) <= pointer && pointer + length < |buffer| && ch == Peek(length)
        invariant F.Join(chunks + Prefix(length), T.Uri(buffer, pointer + length)) == spec
        decreases |buffer| - (pointer + length)
      {
        if ch == '%' {
          chunks := chunks + Prefix(length);
          Forward(length);
          length := 0;
          chunks :- ScanTagUriEscapes(chunks);
          assert chunks + Prefix(0) == chunks;
        } else {
          UriMore(chunks, length);
          length := length + 1;
        }
        ch := Peek(length);
      }
      T.UriEnds(buffer, pointer + length, chunks + Prefix(length));
      if length > 0 {
        chunks := chunks + Prefix(length);
        Forward(length);
      } else {
        assert chunks + Prefix(0) == chunks;
      }
      if chunks == "" {
        return Err(ScanFault);
      }
      return Ok(chunks);
    }

    lemma UriMore(chunks: string, length: nat)
      requires Terminated(buffer) && pointer + length < |buffer| && UriChar(Peek(length)) && Peek(length) != '%'
      ensures pointer + length + 1 < |buffer|
      ensures F.Join(chunks + Prefix(length), T.Uri(buffer, pointer + length))
           == F.Join(chunks + Prefix(length + 1), T.Uri(buffer, pointer + length + 1))
    {
      hide T.Uri, F.Join;
      T.UriStep(buffer, pointer + length);
      F.JoinJoin(chunks + Prefix(length), [Peek(length)], T.Uri(buffer, pointer + length + 1));
      assert Prefix(length + 1) == Prefix(length) + [Peek(length)];
      assert chunks + Prefix(length + 1) == chunks + Prefix(length) + [Peek(length)];
    }

    method ScanTagUriEscapes(chunks: string) returns (r: Result<string>)
      requires Placed() && buffer[pointer] == '%'
      modifies this`pointer, this`line, this`column
      ensures Placed() && old(pointer) < pointer
      ensures r.Ok? ==> F.Join(r.value, T.Uri(buffer, pointer)) == F.Join(chunks, T.Uri(buffer, old(pointer)))
      ensures r.Err? ==> F.Join(chunks, T.Uri(buffer, old(pointer))).Err?
    {
      T.EscapeFails(buffer, pointer, chunks);
      assert UriChar('%') by { T.PercentIsUriChar(); }
      T.UriStep(buffer, pointer);
      hide LineAt, ColumnAt, T.Uri, F.Join, UriChar;
      var decoded :- ScanUriEscapes();
      F.JoinJoin(chunks, decoded, T.Uri(buffer, pointer));
      return Ok(chunks + decoded);
    }

    method ScanUriEscapes() returns (r: Result<string>)
      requires Placed() && buffer[pointer] == '%'
      modifies this`pointer, this`line, this`column
      ensures Placed() && old(pointer) < pointer
      ensures match T.EscapedText(buffer, old(pointer))
              case Ok(read) => r == Ok(read.text) && pointer == read.next
              case Err(_) => r.Err?
    {
      hide LineAt, ColumnAt, Utf8.Decode;
      var codes: seq<int> := [];
      ghost var spec := T.Escapes(buffer, pointer);
      T.NoMore(spec);
      while Peek(0) == '%'
        invariant Placed() && old(pointer) <= pointer
        invariant T.More(codes, T.Escapes(buffer, pointer)) == spec
        invariant codes == [] ==> pointer == old(pointer)
        invariant codes != [] ==> pointer > old(pointer)
        decreases |buffer| - pointer
      {
        ghost var start := pointer;
        Forward(1);
        if !Hex(Peek(0)) || !Hex(Peek(1)) {
          return Err(ScanFault);
        }
        var code := HexValue(Peek(0)) * 16 + HexValue(Peek(1));
        T.MoreMore(codes, [code], T.Escapes(buffer, start + 3));
        codes := codes + [code];
        Forward(2);
      }
      assert codes + [] == codes;
      match Utf8.Decode(codes)
      case Some(s) => return Ok(s);
      case None => return Err(ScanFault);
    }

    // --- quoted scalars

    /** Where reading a quoted scalar pauses: at its closing quote, a blank, a break or the end. */
    predicate AtRest(double: bool)
      requires pointer < |buffer|
      reads this`pointer
    {
      var ch := Peek(0);
      if double && ch == '"' then true
      else if !double && ch == '\'' then Peek(1) != '\''
      else F.Blank(ch) || Breakz(ch)
    }

    /** A quoted scalar: what `FlowScalars.Body` reads, and its closing quote taken. */
    method ScanFlowScalar(double: bool) returns (r: Result<string>)
      requires Placed() && buffer[pointer] == if double then '"' else '\''
      modifies this`pointer, this`line, this`column
      ensures Placed() && old(pointer) < pointer
      ensures match F.Body(buffer, old(pointer) + 1, double)
              case Ok(read) => r == Ok(read.text) && pointer == read.next + 1
              case Err(_) => r.Err?
    {
      hide F.Body;
      var quote := Peek(0);
      Forward(1);
      ghost var spec := F.Body(buffer, pointer, double);
      assert F.Join("", spec) == spec by { F.EmptyJoin(spec); }
      var chunks :- ScanFlowScalarNonSpaces(double, "");
      while Peek(0) != quote
        invariant Placed() && old(pointer) < pointer
        invariant F.Join(chunks, F.Body(buffer, pointer, double)) == spec
        invariant AtRest(double)
        decreases |buffer| - pointer
      {
        chunks :- ScanFlowScalarSpaces(double, chunks);
        chunks :- ScanFlowScalarNonSpaces(double, chunks);
      }
      assert F.Body(buffer, pointer, double) == Ok(F.Read("", pointer)) by { AtQuote(double); }
      assert chunks + "" == chunks;
      Forward(1);
      return Ok(chunks);
    }

    lemma AtQuote(double: bool)
      requires Placed() && buffer[pointer] == (if double then '"' else '\'') && AtRest(double)
      ensures F.Body(buffer, pointer, double) == Ok(F.Read("", pointer))
    {
    }

    method ScanFlowScalarNonSpaces(double: bool, chunks: string) returns (r: Result<string>)
      requires Placed()
      modifies this`pointer, this`line, this`column
      ensures Placed() && old(pointer) <= pointer
      ensures r.Err? ==> F.Body(buffer, old(pointer), double).Err?
      ensures r.Ok? ==> F.Join(chunks, F.Body(buffer, old(pointer), double)) == F.Join(r.value, F.Body(buffer, pointer, double))
      ensures r.Ok? ==> AtRest(double)
    {
      hide F.Body;
      var text := chunks;
      ghost var spec := F.Join(chunks, F.Body(buffer, pointer, double));
      while true
        invariant Placed() && old(pointer) <= pointer
        invariant F.Join(text, F.Body(buffer, pointer, double)) == spec
        decreases |buffer| - pointer
      {
        text := ScanFlowScalarRun(double, text);
        var ch := Peek(0);
        if !double && ch == '\'' && Peek(1) == '\'' {
          QuoteStep();
          F.JoinJoin(text, "'", F.Body(buffer, pointer + 2, double));
          text := text + "'";
          Forward(2);
        } else if (double && ch == '\'') || (!double && (ch == '"' || ch == '\\')) {
          OtherQuoteStep(double);
          F.JoinJoin(text, [ch], F.Body(buffer, pointer + 1, double));
          text := text + [ch];
          Forward(1);
        } else if double && ch == '\\' {
          EscapeStep();
          Forward(1);
          text :- ScanFlowScalarEscape(text);
        } else {
          return Ok(text);
        }
      }
    }

    /** The characters up to the next that may mean something else. */
    method ScanFlowScalarRun(double: bool, chunks: string) returns (text: string)
      requires Placed()
      modifies this`pointer, this`line, this`column
      ensures Placed() && old(pointer) <= pointer && F.Special(buffer[pointer])
      ensures F.Join(chunks, F.Body(buffer, old(pointer), double)) == F.Join(text, F.Body(buffer, pointer, double))
    {
      hide F.Body, F.Join;
      text := chunks;
      var length := RunLength((c: char) => !F.Special(c), 0);
      if length > 0 {
        F.RunStep(buffer, pointer, pointer + length, double);
        F.JoinJoin(text, Prefix(length), F.Body(buffer, pointer + length, double));
        text := text + Prefix(length);
        Forward(length);
      }
    }

    lemma QuoteStep()
      requires Placed() && buffer[pointer] == '\'' && Peek(1) == '\''
      ensures F.Body(buffer, pointer, false) == F.Join("'", F.Body(buffer, pointer + 2, false))
    {
    }

    lemma OtherQuoteStep(double: bool)
      requires Placed() && if double then buffer[pointer] == '\'' else buffer[pointer] == '"' || buffer[pointer] == '\\'
      ensures F.Body(buffer, pointer, double) == F.Join([buffer[pointer]], F.Body(buffer, pointer + 1, double))
    {
    }

    lemma EscapeStep()
      requires Placed() && buffer[pointer] == '\\'
      ensures F.Body(buffer, pointer, true) == F.Escape(buffer, pointer + 1)
    {
    }

    /** What stands for the character, or the breaks, after a backslash. */
    method ScanFlowScalarEscape(chunks: string) returns (r: Result<string>)
      requires Placed()
      modifies this`pointer, this`line, this`column
      ensures Placed() && old(pointer) <= pointer
      ensures r.Err? ==> F.Escape(buffer, old(pointer)).Err?
      ensures r.Ok? ==> F.Join(chunks, F.Escape(buffer, old(pointer))) == F.Join(r.value, F.Body(buffer, pointer, true))
    {
      hide F.Body, F.Join;
      var ch := Peek(0);
      var replacement := F.Replacement(ch);
      var length := F.CodeLength(ch);
      if replacement.Some? {
        F.JoinJoin(chunks, [replacement.value], F.Body(buffer, pointer + 1, true));
        Forward(1);
        return Ok(chunks + [replacement.value]);
      } else if length > 0 {
        Forward(1);
        var k := 0;
        while k < length
          invariant 0 <= k <= length && pointer + k < |buffer|
          invariant forall i :: pointer <= i < pointer + k ==> Hex(buffer[i])
        {
          if !Hex(Peek(k)) {
            return Err(ScanFault);
          }
          k := k + 1;
        }
        var c :- F.CodeChar(F.HexNumber(buffer, pointer, length));
        F.JoinJoin(chunks, [c], F.Body(buffer, pointer + length, true));
        Forward(length);
        return Ok(chunks + [c]);
      } else if Break(ch) {
        var _ := ScanLineBreak();
        var breaks :- ScanFlowScalarBreaks();
        F.JoinJoin(chunks, breaks, F.Body(buffer, pointer, true));
        return Ok(chunks + breaks);
      }
      return Err(ScanFault);
    }

    method ScanFlowScalarSpaces(double: bool, chunks: string) returns (r: Result<string>)
      requires Placed() && (F.Blank(buffer[pointer]) || Breakz(buffer[pointer]))
      modifies this`pointer, this`line, this`column
      ensures Placed() && old(pointer) <= pointer && (r.Ok? ==> old(pointer) < pointer)
      ensures r.Err? ==> F.Body(buffer, old(pointer), double).Err?
      ensures r.Ok? ==> F.Join(chunks, F.Body(buffer, old(pointer), double)) == F.Join(r.value, F.Body(buffer, pointer, double))
    {
      hide F.Body, F.Join, LineAt, ColumnAt;
      SpacesStep(double);
      var length := RunLength(F.Blank, 0);
      F.AfterBlanksIs(buffer, pointer, pointer + length);
      var whitespaces := Prefix(length);
      Forward(length);
      var ch := Peek(0);
      if ch == '\0' {
        return Err(ScanFault);
      } else if Break(ch) {
        var lineBreak := ScanLineBreak();
        var breaks :- ScanFlowScalarBreaks();
        var text := F.Folded(lineBreak, breaks);
        F.JoinJoin(chunks, text, F.Body(buffer, pointer, double));
        return Ok(chunks + text);
      } else {
        F.JoinJoin(chunks, whitespaces, F.Body(buffer, pointer, double));
        return Ok(chunks + whitespaces);
      }
    }

    lemma SpacesStep(double: bool)
      requires Placed() && (F.Blank(buffer[pointer]) || Breakz(buffer[pointer]))
      ensures F.Body(buffer, pointer, double) == F.Spaces(buffer, pointer, double)
    {
    }

    /** The breaks from here on, the blanks around them dropped. */
    method ScanFlowScalarBreaks() returns (r: Result<string>)
      requires Placed()
      modifies this`pointer, this`line, this`column
      ensures Placed() && old(pointer) <= pointer
      ensures match F.Breaks(buffer, old(pointer))
              case Ok(read) => r == Ok(read.text) && pointer == read.next
              case Err(_) => r.Err?
    {
      var text := "";
      ghost var spec := F.Breaks(buffer, pointer);
      F.EmptyJoin(spec);
      while true
        invariant Placed() && old(pointer) <= pointer
        invariant F.Join(text, F.Breaks(buffer, pointer)) == spec
        decreases |buffer| - pointer
      {
        if Separator() {
          return Err(ScanFault);
        }
        ghost var start := pointer;
        SkipWhile(F.Blank);
        F.AfterBlanksIs(buffer, start, pointer);
        if !Break(Peek(0)) {
          assert text + "" == text;
          return Ok(text);
        }
        F.JoinJoin(text, F.BreakText(Peek(0)), F.Breaks(buffer, F.AfterBreak(buffer, pointer)));
        var lineBreak := ScanLineBreak();
        text := text + lineBreak;
      }
    }

    // --- block scalars

    /** A block scalar: what `OpenScalars.Block` reads. */
    method ScanBlockScalar(folded: bool) returns (r: Result<string>)
      requires Placed() && buffer[pointer] != '\0' && indent >= -1
      modifies this`pointer, this`line, this`column
      ensures Placed() && old(pointer) < pointer
      ensures match O.Block(buffer, old(pointer) + 1, indent, folded)
              case Ok(read) => r == Ok(read.text) && pointer == read.next
              case Err(_) => r.Err?
    {
      assert pointer + 1 < |buffer|;
      hide LineAt, ColumnAt, Terminated, O.HeaderAt, O.BlockBody, L.RestOfLine;
      Forward(1);
      var header :- ScanBlockScalarIndicators();
      var _ :- ScanIgnoredLine();
      var text := ScanBlockScalarBody(folded, header.0, header.1);
      return Ok(text);
    }

    method ScanBlockScalarBody(folded: bool, chomping: Option<bool>, increment: Option<nat>) returns (text: string)
      requires Placed() && indent >= -1 && (increment.Some? ==> increment.value >= 1)
      modifies this`pointer, this`line, this`column
      ensures Placed() && old(pointer) <= pointer
      ensures O.BlockBody(buffer, old(pointer), indent, folded, chomping, increment) == F.Read(text, pointer)
    {
      hide LineAt, ColumnAt, Terminated, O.BlockText, O.LeadingAt, O.BlockBreaks;
      var minIndent: nat := if indent + 1 > 1 then indent + 1 else 1;
      var breaks, blockIndent := "", minIndent;
      match increment {
        case None =>
          var maxIndent;
          breaks, maxIndent := ScanBlockScalarIndentation();
          blockIndent := if minIndent > maxIndent then minIndent else maxIndent;
        case Some(inc) =>
          blockIndent := minIndent + inc - 1;
          breaks := ScanBlockScalarBreaks(blockIndent);
      }
      text := ScanBlockScalarText(folded, chomping, blockIndent, breaks);
    }

    /** The lines of a block scalar, folded or not, and what chomping leaves of its end. */
    method ScanBlockScalarText(folded: bool, chomping: Option<bool>, indent: nat, leading: string) returns (chunks: string)
      requires Placed()
      modifies this`pointer, this`line, this`column
      ensures Placed() && old(pointer) <= pointer
      ensures var read := O.BlockText(buffer, old(pointer), indent, folded, chomping, leading);
              chunks == read.text && pointer == read.next
    {
      hide LineAt, ColumnAt, Terminated, O.Lines, O.BlockSoFar, O.BlockBreaks, L.BreakEnd, LineEnd;
      chunks := "";
      var breaks, lineBreak := leading, "";
      ghost var spec := O.BlockText(buffer, pointer, indent, folded, chomping, leading);
      BlockBegins(folded, chomping, indent, leading);
      while column == indent && Peek(0) != '\0'
        invariant Placed() && old(pointer) <= pointer
        invariant O.BlockSoFar(buffer, pointer, indent, folded, chomping, chunks, lineBreak, breaks) == spec
        decreases |buffer| - pointer
      {
        O.BlockStep(buffer, pointer, indent, folded, chomping, chunks, lineBreak, breaks);
        var first := Peek(0);
        var leadingNonSpace := !F.Blank(first);
        chunks, lineBreak, breaks := ScanBlockScalarLine(indent, chunks, breaks);
        if column == indent && Peek(0) != '\0' {
          if folded && lineBreak == "\n" && leadingNonSpace && !F.Blank(Peek(0)) {
            if breaks == "" {
              chunks := chunks + " ";
            } else {
              assert chunks + "" == chunks;
            }
          } else {
            chunks := chunks + lineBreak;
          }
        } else {
          break;
        }
      }
      BlockEnds(folded, chomping, indent, chunks, lineBreak, breaks);
      if chomping != Some(false) {
        chunks := chunks + lineBreak;
      }
      if chomping == Some(true) {
        chunks := chunks + breaks;
      }
    }

    lemma BlockBegins(folded: bool, chomping: Option<bool>, indent: nat, leading: string)
      requires pointer <= |buffer|
      ensures O.BlockSoFar(buffer, pointer, indent, folded, chomping, "", "", leading)
           == O.BlockText(buffer, pointer, indent, folded, chomping, leading)
    {
      hide ColumnAt, O.Lines, O.Chomped;
      if O.LineAhead(buffer, pointer, indent) {
        var rest := O.Lines(buffer, pointer, indent, folded, chomping, leading);
        assert "" + rest.text == rest.text;
      } else {
        assert "" + O.Chomped(chomping, "", leading) == O.Chomped(chomping, "", leading);
      }
    }

    lemma BlockEnds(folded: bool, chomping: Option<bool>, indent: nat, chunks: string, lineBreak: string, breaks: string)
      requires Placed() && !(column == indent && buffer[pointer] != '\0')
      ensures O.BlockSoFar(buffer, pointer, indent, folded, chomping, chunks, lineBreak, breaks).next == pointer
      ensures O.BlockSoFar(buffer, pointer, indent, folded, chomping, chunks, lineBreak, breaks).text
           == (if chomping == Some(false) then chunks else chunks + lineBreak) + (if chomping == Some(true) then breaks else "")
    {
      hide LineAt, ColumnAt, O.Lines;
      if chomping != Some(false) {
        var more := if chomping == Some(true) then breaks else "";
        assert chunks + (lineBreak + more) == chunks + lineBreak + more;
      } else {
        assert chunks + ("" + "") == chunks + "";
      }
    }

    /** A line's text after the breaks before it, its own break, and the breaks after it. */
    method ScanBlockScalarLine(indent: nat, chunks: string, breaks: string) returns (text: string, lineBreak: string, next: string)
      requires Placed() && buffer[pointer] != '\0'
      modifies this`pointer, this`line, this`column
      ensures Placed() && old(pointer) < pointer
      ensures var end := LineEnd(buffer, old(pointer));
              && text == chunks + breaks + buffer[old(pointer)..end]
              && lineBreak == O.LineBreakAt(buffer, end)
              && var after := O.BlockBreaks(buffer, L.BreakEnd(buffer, end), indent);
                 next == after.text && pointer == after.next
    {
      hide LineAt, ColumnAt, Terminated, O.BlockBreaks;
      var length := RunLength((c: char) => !Breakz(c), 0);
      LineEndIs(buffer, pointer, pointer + length);
      text := chunks + breaks + Prefix(length);
      Forward(length);
      lineBreak := ScanLineBreak();
      next := ScanBlockScalarBreaks(indent);
    }

    /** Chomping, kept if true and stripped if false, and the indentation a header gives. */
    method ScanBlockScalarIndicators() returns (r: Result<(Option<bool>, Option<nat>)>)
      requires Placed()
      modifies this`pointer, this`line, this`column
      ensures Placed() && old(pointer) <= pointer
      ensures match O.HeaderAt(buffer, old(pointer))
              case Ok(header) => r == Ok((header.chomping, header.increment)) && pointer == header.next
              case Err(_) => r.Err?
    {
      hide LineAt, ColumnAt;
      var chomping, increment := None, None;
      var ch := Peek(0);
      if ch == '+' || ch == '-' {
        chomping := Some(ch == '+');
        Forward(1);
        if Digit(Peek(0)) {
          if Peek(0) == '0' {
            return Err(ScanFault);
          }
          increment := Some(HexValue(Peek(0)));
          Forward(1);
        }
      } else if Digit(ch) {
        if ch == '0' {
          return Err(ScanFault);
        }
        increment := Some(HexValue(ch));
        Forward(1);
        ch := Peek(0);
        if ch == '+' || ch == '-' {
          chomping := Some(ch == '+');
          Forward(1);
        }
      }
      if !Blankz(Peek(0)) {
        return Err(ScanFault);
      }
      return Ok((chomping, increment));
    }

    /** The breaks before a block scalar's text, and the deepest column of the blanks among them. */
    method ScanBlockScalarIndentation() returns (chunks: string, maxIndent: nat)
      requires Placed()
      modifies this`pointer, this`line, this`column
      ensures Placed() && old(pointer) <= pointer
      ensures O.LeadingAt(buffer, old(pointer)) == O.Leading(chunks, maxIndent, pointer)
    {
      hide LineAt, ColumnAt, O.LeadingAt, O.LeadingSoFar;
      chunks, maxIndent := "", 0;
      ghost var spec := O.LeadingAt(buffer, pointer);
      O.NoLeadingYet(spec);
      while Peek(0) == ' ' || Break(Peek(0))
        invariant Placed() && old(pointer) <= pointer
        invariant O.LeadingSoFar(chunks, maxIndent, O.LeadingAt(buffer, pointer)) == spec
        decreases |buffer| - pointer
      {
        O.LeadingStep(buffer, pointer, chunks, maxIndent);
        if Peek(0) != ' ' {
          var s := ScanLineBreak();
          chunks := chunks + s;
        } else {
          Forward(1);
          maxIndent := if maxIndent > column then maxIndent else column;
        }
      }
      O.LeadingStep(buffer, pointer, chunks, maxIndent);
    }

    method ScanBlockScalarBreaks(indent: nat) returns (chunks: string)
      requires Placed()
      modifies this`pointer, this`line, this`column
      ensures Placed() && old(pointer) <= pointer
      ensures O.BlockBreaks(buffer, old(pointer), indent) == F.Read(chunks, pointer)
    {
      hide LineAt, ColumnAt, Terminated, O.BlockBreaks, O.Indented;
      chunks := "";
      ghost var spec := O.BlockBreaks(buffer, pointer, indent);
      assert "" + spec.text == spec.text;
      SkipToColumn(indent);
      while Break(Peek(0))
        invariant Placed() && old(pointer) <= pointer && !(column < indent && buffer[pointer] == ' ')
        invariant chunks + O.BlockBreaks(buffer, pointer, indent).text == spec.text
        invariant O.BlockBreaks(buffer, pointer, indent).next == spec.next
        decreases |buffer| - pointer
      {
        O.BlockBreaksStep(buffer, pointer, indent, chunks);
        var s := ScanLineBreak();
        chunks := chunks + s;
        SkipToColumn(indent);
      }
      O.BlockBreaksStep(buffer, pointer, indent, chunks);
    }

    /** Skips spaces, as far as a column. */
    method SkipToColumn(indent: nat)
      requires Placed()
      modifies this`pointer, this`line, this`column
      ensures Placed() && pointer == O.Indented(buffer, old(pointer), indent) >= old(pointer)
      ensures O.BlockBreaks(buffer, pointer, indent) == O.BlockBreaks(buffer, old(pointer), indent)
      ensures !(column < indent && buffer[pointer] == ' ')
    {
      hide LineAt, ColumnAt, O.BlockBreaks;
      while column < indent && Peek(0) == ' '
        invariant Placed() && old(pointer) <= pointer
        invariant forall i :: old(pointer) <= i < pointer ==> ColumnAt(buffer, i) < indent && buffer[i] == ' '
        decreases |buffer| - pointer
      {
        Forward(1);
      }
      O.IndentedIs(buffer, old(pointer), pointer, indent);
      O.BlockBreaksIndented(buffer, old(pointer), indent);
    }

    // --- plain scalars

    /** Whether a plain scalar may start here. */
    predicate CheckPlain()
      requires pointer <= |buffer|
      reads this`pointer, this`flowLevel
    {
      PlainAt(buffer, pointer, flowLevel)
    }

    /** A plain scalar: what `OpenScalars.Plain` reads; a simple key may begin
        after it just where a line has ended. */
    method ScanPlain() returns (value: string)
      requires Placed() && CheckPlain()
      modifies this`pointer, this`line, this`column, this`allowSimpleKey
      ensures Placed() && old(pointer) < pointer
      ensures var read := O.Plain(buffer, old(pointer), flowLevel, indent + 1);
              value == read.text != "" && pointer == read.next && allowSimpleKey == read.broken
    {
      hide LineAt, ColumnAt, Terminated, PlainAt, O.Plain, O.PlainSoFar, O.BetweenLines, O.RunEnd;
      value := "";
      var blockIndent := indent + 1;
      var spaces := "";
      ghost var spec := O.Plain(buffer, pointer, flowLevel, blockIndent);
      PlainStarts();
      assert O.PlainSoFar(value, spaces, allowSimpleKey, spec) == spec by { O.NothingYet(spaces, allowSimpleKey, spec); }
      while true
        invariant Placed() && old(pointer) <= pointer && (value == "" <==> pointer == old(pointer))
        invariant value == "" ==> spaces == ""
        invariant O.PlainSoFar(value, spaces, allowSimpleKey, O.Plain(buffer, pointer, flowLevel, blockIndent)) == spec
        decreases |buffer| - pointer
      {
        ghost var start := pointer;
        if Peek(0) == '#' {
          O.PlainStops(buffer, start, flowLevel, blockIndent, value, spaces, allowSimpleKey);
          return;
        }
        var length := PlainRun();
        if length == 0 {
          O.PlainStops(buffer, start, flowLevel, blockIndent, value, spaces, allowSimpleKey);
          return;
        }
        O.PlainGoes(buffer, start, flowLevel, blockIndent, value, spaces, allowSimpleKey);
        allowSimpleKey := false;
        value := value + spaces + Prefix(length);
        Forward(length);
        var more := ScanPlainSpaces();
        if more.None? {
          return;
        }
        spaces := more.value;
        if spaces == "" || Peek(0) == '#' || (flowLevel == 0 && column < blockIndent) {
          return;
        }
      }
    }

    /** How many characters are left on a plain scalar's line. */
    method PlainRun() returns (length: nat)
      requires Placed()
      ensures pointer + length == O.RunEnd(buffer, pointer, flowLevel) < |buffer|
    {
      length := 0;
      while !O.Stops(buffer, pointer + length, flowLevel)
        invariant pointer + length < |buffer|
        invariant forall i :: pointer <= i < pointer + length ==> !O.Stops(buffer, i, flowLevel)
        decreases |buffer| - length
      {
        length := length + 1;
      }
      O.RunEndIs(buffer, pointer, pointer + length, flowLevel);
    }

    /** Where a plain scalar may start, its first line is not empty. */
    lemma PlainStarts()
      requires Placed() && CheckPlain()
      ensures buffer[pointer] != '#' && O.RunEnd(buffer, pointer, flowLevel) > pointer
      ensures O.Plain(buffer, pointer, flowLevel, indent + 1).text != ""
    {
      hide LineAt, ColumnAt;
    }

    /** What joins two lines of a plain scalar, folded, unless `---` or `...` comes
        between. */
    method ScanPlainSpaces() returns (r: Option<string>)
      requires Placed()
      modifies this`pointer, this`line, this`column, this`allowSimpleKey
      ensures Placed() && old(pointer) <= pointer
      ensures var between := O.BetweenLines(buffer, old(pointer));
              r == between.text && pointer == between.next && allowSimpleKey == (old(allowSimpleKey) || between.broken)
    {
      hide LineAt, ColumnAt, EndsLine, Terminated, F.Folded, L.SpacesEnd;
      var length := RunLength((c: char) => c == ' ', 0);
      L.SpacesEndIs(buffer, pointer, pointer + length);
      var whitespaces := Prefix(length);
      Forward(length);
      var ch := Peek(0);
      if Break(ch) {
        var lineBreak := ScanLineBreak();
        allowSimpleKey := true;
        if Separator() {
          return None;
        }
        var breaks := ScanPlainBreaks();
        if breaks.None? {
          return None;
        }
        return Some(F.Folded(lineBreak, breaks.value));
      }
      return Some(whitespaces);
    }

    /** The empty lines, unless `---` or `...` comes after one. */
    method ScanPlainBreaks() returns (r: Option<string>)
      requires Placed()
      modifies this`pointer, this`line, this`column
      ensures Placed() && old(pointer) <= pointer
      ensures var more := O.MoreBreaks(buffer, old(pointer)); r == more.text && pointer == more.next && more.broken
    {
      hide LineAt, ColumnAt, O.MoreBreaks, O.Before, Separator, F.SeparatorAt;
      var breaks := "";
      ghost var spec := O.MoreBreaks(buffer, pointer);
      O.NothingBefore(spec);
      while Peek(0) == ' ' || Break(Peek(0))
        invariant Placed() && old(pointer) <= pointer
        invariant O.Before(breaks, O.MoreBreaks(buffer, pointer)) == spec
        decreases |buffer| - pointer
      {
        O.MoreBreaksStep(buffer, pointer, breaks);
        if Peek(0) == ' ' {
          Forward(1);
        } else {
          var s := ScanLineBreak();
          breaks := breaks + s;
          SeparatorHere();
          if Separator() {
            return None;
          }
        }
      }
      O.MoreBreaksStep(buffer, pointer, breaks);
      return Some(breaks);
    }

    lemma SeparatorHere()
      requires pointer <= |buffer|
      ensures Separator() <==> F.SeparatorAt(buffer, pointer)
    {
      IndicatorsHere();
      hide IndicatorHere, IndicatorAt;
    }
  }

  /** A scanner of a text every character of which is allowed. */
  method New(text: string) returns (r: Result<Scanner>)
    ensures r.Ok? <==> forall i :: 0 <= i < |text| ==> Printable(text[i])
    ensures r.Ok? ==> fresh(r.value) && r.value.Valid() && r.value.View() == C.START && r.value.delivered == [] && r.value.buffer == text + ['\0']
  {
    var i := 0;
    while i < |text|
      invariant i <= |text| && forall j :: 0 <= j < i ==> Printable(text[j])
    {
      if !Printable(text[i]) {
        return Err(ScanFault);
      }
      i := i + 1;
    }
    var scanner := new Scanner(text);
    return Ok(scanner);
  }

  /** Every token of a text, as the parser takes them: those of `TokensOf`, or
      an error just where that has none. Whatever the text: the walk ends; the
      tokens are framed by the stream's start and end; no prefix of them ends a
      block it did not begin, late insertions included; and outside flow context
      every block is ended. */
  method Tokenise(text: string) returns (r: Result<seq<Tok>>)
    ensures match C.TokensOf(text)
            case Ok(ts) => r == Ok(ts)
            case Err(_) => r.Err?
    ensures r.Ok? ==> forall i :: 0 <= i < |text| ==> Printable(text[i])
    ensures r.Ok? ==> Framed(r.value, true)
    ensures r.Ok? ==> forall i :: 0 <= i <= |r.value| ==> Depth(r.value[..i]) >= 0
    ensures r.Ok? && Flow(r.value) == 0 ==> Depth(r.value) == 0
  {
    hide KeysOk, Pointed, Kept, LineAt, ColumnAt, Flow, C.Filled, C.TokensFrom;
    var scanner :- New(text);
    ghost var b, spec := scanner.buffer, C.TokensFrom(scanner.buffer, scanner.View());
    var ts: seq<Tok> := [];
    C.BehindBehind([], [], spec);
    C.FillStep(b, scanner.View());
    var peeked := scanner.PeekToken();
    var next := peeked.value;
    while next.Some?
      invariant fresh(scanner) && scanner.Valid() && scanner.Ready() && scanner.buffer == b && ts == scanner.delivered
      invariant next == if scanner.tokens == [] then None else Some(scanner.tokens[0])
      invariant next.None? ==> scanner.done
      invariant C.Behind(ts, C.TokensFrom(b, scanner.View())) == spec
      decreases |scanner.buffer| - scanner.pointer, !scanner.done, |scanner.tokens|
    {
      scanner.ReadyFilled();
      C.TakeStep(b, scanner.View(), ts);
      var got := scanner.GetToken();
      ts := ts + [got.value];
      C.FillStep(b, scanner.View());
      next :- scanner.PeekToken();
    }
    scanner.ReadyFilled();
    C.NoneLeft(b, scanner.View(), ts);
    assert scanner.delivered + scanner.tokens == ts;
    return Ok(ts);
  }

  /** A scanner's first state. */
  lemma Begun(text: string)
    requires forall i :: 0 <= i < |text| ==> Printable(text[i])
    ensures Terminated(text + ['\0']) && LineAt(text + ['\0'], 0) == 0 == ColumnAt(text + ['\0'], 0)
    ensures IndentsOk([], -1) && Nested([Tok.StreamStart], 0) && Framed([Tok.StreamStart], false) && Flow([Tok.StreamStart]) == 0
  {
    var b := text + ['\0'];
    assert b[|b| - 1] == '\0';
    forall i | 0 <= i < |b| - 1 ensures b[i] != '\0' {
      assert b[i] == text[i] && Printable(text[i]);
    }
    assert IndentsOk([], -1) by { assert [] + [-1] == [-1]; }
    assert Nested([], 0);
    AppendNested([], Tok.StreamStart, 0);
    FlowInsert([], Tok.StreamStart, []);
    assert [] + [Tok.StreamStart] == [Tok.StreamStart] && [] + [Tok.StreamStart] + [] == [Tok.StreamStart];
    assert Flow([]) == 0;
  }

  lemma ThreeAhead(b: seq<char>, p: nat, s: string)
    requires Terminated(b) && p < |b| && |s| == 3 && s[0] != '\0' && s[1] != '\0' && s[2] != '\0'
    requires s == b[p..if p + 3 <= |b| then p + 3 else |b|]
    ensures p + 3 < |b|
  {
  }
}
