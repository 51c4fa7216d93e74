/** What the scanner's state means: where it is in the text, which simple keys
    may still turn out to be keys, how its indentation stands to the tokens it
    has produced. */
module ScannerState {
  import opened Results
  import opened YamlTokens

  // --- character classes

  predicate Break(c: char) {
    c == '\r' || c == '\n' || c == '\U{0085}' || c == '\U{2028}' || c == '\U{2029}'
  }

  predicate Breakz(c: char) {
    c == '\0' || Break(c)
  }

  predicate Blankz(c: char) {
    c == ' ' || Breakz(c)
  }

  predicate BlankzTab(c: char) {
    c == '\t' || Blankz(c)
  }

  predicate Digit(c: char) {
    '0' <= c <= '9'
  }

  predicate Hex(c: char) {
    Digit(c) || 'A' <= c <= 'F' || 'a' <= c <= 'f'
  }

  predicate Alphanumeric(c: char) {
    Digit(c) || 'A' <= c <= 'Z' || 'a' <= c <= 'z'
  }

  predicate Word(c: char) {
    Alphanumeric(c) || c == '-' || c == '_'
  }

  predicate Printable(c: char) {
    || c == '\t' || c == '\n' || c == '\r' || ' ' <= c <= '~' || c == '\U{0085}'
    || '\U{00a0}' <= c <= '\U{d7ff}' || '\U{e000}' <= c <= '\U{fffd}' || '\U{10000}' <= c
  }

  predicate UriChar(c: char) {
    Alphanumeric(c) || c in "-;/?:@&=+$,_.!~*'()[]%"
  }

  function HexValue(c: char): (n: int)
    requires Hex(c)
    ensures 0 <= n < 16
  {
    if Digit(c) then c as int - '0' as int
    else if c <= 'F' then c as int - 'A' as int + 10
    else c as int - 'a' as int + 10
  }

  function WithoutZeros(s: string): string {
    if s != "" && s[0] == '0' then WithoutZeros(s[1..]) else s
  }

  // --- places in the text

  /** A text with the NUL that closes it, and no other. */
  predicate Terminated(b: seq<char>) {
    && |b| > 0 && b[|b| - 1] == '\0'
    && forall i :: 0 <= i < |b| - 1 ==> b[i] != '\0'
  }

  function CharAt(b: seq<char>, i: nat): char {
    if i < |b| then b[i] else '\0'
  }

  /** Whether a line ends with the character at `i`: a CR does unless an LF follows. */
  predicate EndsLine(b: seq<char>, i: nat)
    requires i < |b|
  {
    || b[i] == '\n' || b[i] == '\U{0085}' || b[i] == '\U{2028}' || b[i] == '\U{2029}'
    || (b[i] == '\r' && CharAt(b, i + 1) != '\n')
  }

  /** The number of lines ended before `p`. */
  function LineAt(b: seq<char>, p: nat): nat
    requires p <= |b|
  {
    if p == 0 then 0 else LineAt(b, p - 1) + if EndsLine(b, p - 1) then 1 else 0
  }

  /** The characters of its line before `p`, byte order marks not counted. */
  function ColumnAt(b: seq<char>, p: nat): nat
    requires p <= |b|
  {
    if p == 0 || EndsLine(b, p - 1) then 0
    else ColumnAt(b, p - 1) + if b[p - 1] == '\U{feff}' then 0 else 1
  }

  lemma {:induction false} LinesGrow(b: seq<char>, p: nat, q: nat)
    requires p <= q <= |b|
    ensures LineAt(b, p) <= LineAt(b, q)
    ensures LineAt(b, p) == LineAt(b, q) ==> forall i :: p <= i < q ==> !EndsLine(b, i)
    decreases q - p
  {
    if p < q {
      LinesGrow(b, p, q - 1);
    }
  }

  /** No line ends among characters that are no breaks. */
  lemma {:induction false} LineKept(b: seq<char>, p: nat, q: nat)
    requires p <= q <= |b| && forall i :: p <= i < q ==> !Break(b[i])
    ensures LineAt(b, q) == LineAt(b, p)
    decreases q - p
  {
    if p < q {
      LineKept(b, p, q - 1);
    }
  }

  // --- between tokens

  function LineEnd(b: seq<char>, p: nat): (q: nat)
    ensures p <= q && (p <= |b| ==> q <= |b|)
    ensures Breakz(CharAt(b, q))
    decreases |b| - p
  {
    if p < |b| && !Breakz(b[p]) then LineEnd(b, p + 1) else p
  }

  /** Where the next token begins: past spaces, breaks and comments. */
  function NextToken(b: seq<char>, p: nat): (q: nat)
    ensures p <= q
    decreases |b| - p
  {
    if p >= |b| then p
    else if b[p] == ' ' || Break(b[p]) then NextToken(b, p + 1)
    else if b[p] == '#' then
      assert LineEnd(b, p) == LineEnd(b, p + 1);
      NextToken(b, LineEnd(b, p))
    else p
  }

  lemma {:induction false} LineEndIs(b: seq<char>, p: nat, q: nat)
    requires p <= q < |b| && Breakz(b[q]) && forall i :: p <= i < q ==> !Breakz(b[i])
    ensures LineEnd(b, p) == q
    decreases q - p
  {
    if p < q {
      LineEndIs(b, p + 1, q);
    }
  }

  lemma {:induction false} SpacesPassed(b: seq<char>, p: nat, q: nat)
    requires p <= q < |b| && forall i :: p <= i < q ==> b[i] == ' '
    ensures NextToken(b, p) == NextToken(b, q)
    decreases q - p
  {
    if p < q {
      SpacesPassed(b, p + 1, q);
    }
  }

  // --- what stands where a token begins

  predicate IndicatorAt(b: seq<char>, p: nat, indicator: string) {
    p + 3 <= |b| && b[p..p + 3] == indicator && BlankzTab(CharAt(b, p + 3))
  }

  predicate PlainAt(b: seq<char>, p: nat, flowLevel: int) {
    var c := CharAt(b, p);
    || (!BlankzTab(c) && c !in "-?:,[]{}#&*!|>'\"%@`")
    || (!BlankzTab(CharAt(b, p + 1)) && (c == '-' || (flowLevel == 0 && (c == '?' || c == ':'))))
  }

  /** Whether the text at `p`, a column and a flow level call for a token. */
  predicate Calls(t: Tok, b: seq<char>, p: nat, column: nat, flowLevel: int) {
    var c := CharAt(b, p);
    var ends := flowLevel != 0 || BlankzTab(CharAt(b, p + 1));
    match t
    case StreamEnd => c == '\0'
    case DirectiveTok(_) => c == '%' && column == 0
    case DocumentStart => column == 0 && IndicatorAt(b, p, "---")
    case DocumentEnd => column == 0 && IndicatorAt(b, p, "...")
    case FlowSequenceStart => c == '['
    case FlowMappingStart => c == '{'
    case FlowSequenceEnd => c == ']'
    case FlowMappingEnd => c == '}'
    case FlowEntry => c == ','
    case BlockEntry => c == '-' && BlankzTab(CharAt(b, p + 1))
    case Key => c == '?' && ends
    case Value => c == ':' && ends
    case Alias(_) => c == '*'
    case Anchor(_) => c == '&'
    case Tag(_, _) => c == '!'
    case Scalar(_, plain) =>
      if plain then PlainAt(b, p, flowLevel) && !(column == 0 && (IndicatorAt(b, p, "---") || IndicatorAt(b, p, "...")))
      else c == '\'' || c == '"' || (flowLevel == 0 && (c == '|' || c == '>'))
    case _ => false
  }

  /** The kinds of token: two of one kind differ only in what they say. */
  function Kind(t: Tok): nat {
    match t
    case StreamStart => 0
    case StreamEnd => 1
    case DirectiveTok(_) => 2
    case DocumentStart => 3
    case DocumentEnd => 4
    case BlockSequenceStart => 5
    case BlockMappingStart => 6
    case BlockEnd => 7
    case FlowSequenceStart => 8
    case FlowMappingStart => 9
    case FlowSequenceEnd => 10
    case FlowMappingEnd => 11
    case FlowEntry => 12
    case BlockEntry => 13
    case Key => 14
    case Value => 15
    case Alias(_) => 16
    case Anchor(_) => 17
    case Tag(_, _) => 18
    case Scalar(_, plain) => if plain then 19 else 20
  }

  /** A place calls for one kind of token at most, in whatever order one asks. */
  lemma OneCalled(t: Tok, u: Tok, b: seq<char>, p: nat, column: nat, flowLevel: int)
    requires Calls(t, b, p, column, flowLevel) && Calls(u, b, p, column, flowLevel)
    ensures Kind(t) == Kind(u)
  {
    if IndicatorAt(b, p, "---") {
      assert b[p..p + 3][0] == b[p] == '-' && b[p..p + 3][1] == b[p + 1] == '-';
    }
    if IndicatorAt(b, p, "...") {
      assert b[p..p + 3][0] == b[p] == '.';
    }
  }

  // --- simple keys

  /** Where a simple key may have begun: the number its first token has among
      all tokens, and its place. */
  datatype SimpleKey = SimpleKey(tokenNumber: nat, required: bool, index: nat, line: nat, column: nat)

  /** Every saved key points at a token still in the queue, was saved at its
      place in the text, and sits no deeper than the flow level; keys saved
      deeper were saved later. */
  predicate KeysOk(keys: map<int, SimpleKey>, b: seq<char>, taken: nat, queued: nat, flowLevel: int, pointer: nat) {
    && (forall l :: l in keys ==>
          && l <= flowLevel && 0 < keys[l].tokenNumber
          && taken <= keys[l].tokenNumber < taken + queued
          && keys[l].index <= pointer && keys[l].index <= |b|
          && keys[l].line == LineAt(b, keys[l].index)
          && keys[l].column == ColumnAt(b, keys[l].index))
    && (forall l, h :: l in keys && h in keys && l < h ==> keys[l].tokenNumber < keys[h].tokenNumber)
  }

  /** The tokens a simple key can begin with. */
  predicate OpensKey(t: Tok) {
    t.Alias? || t.Anchor? || t.Tag? || t.Scalar? || t.FlowSequenceStart? || t.FlowMappingStart?
  }

  /** Every saved key whose token is there points at one that can begin a key. */
  predicate Pointed(keys: map<int, SimpleKey>, ts: seq<Tok>) {
    forall l :: l in keys && keys[l].tokenNumber < |ts| ==> OpensKey(ts[keys[l].tokenNumber])
  }

  /** The stream's start is its first token and no other; its end, once there, is its last. */
  predicate Framed(ts: seq<Tok>, done: bool) {
    && ts != [] && ts[0].StreamStart?
    && (forall i :: 0 < i < |ts| ==> !ts[i].StreamStart?)
    && (forall i :: 0 <= i < |ts| - 1 ==> !ts[i].StreamEnd?)
    && (done <==> ts[|ts| - 1].StreamEnd?)
  }

  /** No later insertion can reach the first `k` queued tokens. */
  predicate Committed(keys: map<int, SimpleKey>, taken: nat, queued: nat, k: nat) {
    k <= queued && forall l :: l in keys ==> taken + k <= keys[l].tokenNumber
  }

  /** What insertions can no longer reach stays as it was, and out of reach. */
  ghost predicate Kept(before: map<int, SimpleKey>, was: seq<Tok>, keys: map<int, SimpleKey>, queue: seq<Tok>, taken: nat) {
    forall k: nat :: Committed(before, taken, |was|, k) ==> Committed(keys, taken, |queue|, k) && queue[..k] == was[..k]
  }

  lemma KeptTwice(a: map<int, SimpleKey>, as_: seq<Tok>, b: map<int, SimpleKey>, bs: seq<Tok>,
                  c: map<int, SimpleKey>, cs: seq<Tok>, taken: nat)
    requires Kept(a, as_, b, bs, taken) && Kept(b, bs, c, cs, taken)
    ensures Kept(a, as_, c, cs, taken)
  {
    forall k: nat | Committed(a, taken, |as_|, k) ensures Committed(c, taken, |cs|, k) && cs[..k] == as_[..k] {
      assert Committed(b, taken, |bs|, k);
    }
  }

  /** Dropping keys, adding ones that begin past the queue, and appending tokens keeps what is settled. */
  lemma AppendKept(before: map<int, SimpleKey>, was: seq<Tok>, keys: map<int, SimpleKey>, more: seq<Tok>, taken: nat)
    requires forall l :: l in keys ==> (l in before && keys[l] == before[l]) || taken + |was| <= keys[l].tokenNumber
    ensures Kept(before, was, keys, was + more, taken)
  {
    forall k: nat | Committed(before, taken, |was|, k)
      ensures Committed(keys, taken, |was + more|, k) && (was + more)[..k] == was[..k]
    {
    }
  }

  /** So does an insertion before the token of a key, which is given up. */
  lemma InsertKept(before: map<int, SimpleKey>, was: seq<Tok>, level: int, more: seq<Tok>, taken: nat)
    requires level in before && taken <= before[level].tokenNumber <= taken + |was|
    ensures var at := before[level].tokenNumber - taken;
            Kept(before, was, before - {level}, was[..at] + more + was[at..], taken)
  {
    var at := before[level].tokenNumber - taken;
    var queue := was[..at] + more + was[at..];
    forall k: nat | Committed(before, taken, |was|, k)
      ensures Committed(before - {level}, taken, |queue|, k) && queue[..k] == was[..k]
    {
      assert k <= at;
      assert queue[..at] == was[..at];
      assert queue[..k] == queue[..at][..k] == was[..at][..k] == was[..k];
    }
  }

  lemma KeysGrow(keys: map<int, SimpleKey>, b: seq<char>, taken: nat, queued: nat, flowLevel: int, pointer: nat, more: nat, next: nat)
    requires KeysOk(keys, b, taken, queued, flowLevel, pointer) && queued <= more && pointer <= next
    ensures KeysOk(keys, b, taken, more, flowLevel, next)
  {
  }

  /** A key saved where the scanner is, for the token pushed next. */
  lemma SaveKey(keys: map<int, SimpleKey>, b: seq<char>, taken: nat, queued: nat, flowLevel: int, pointer: nat, key: SimpleKey)
    requires KeysOk(keys, b, taken, queued, flowLevel, pointer)
    requires key.tokenNumber == taken + queued > 0 && key.index == pointer <= |b|
    requires key.line == LineAt(b, pointer) && key.column == ColumnAt(b, pointer)
    ensures KeysOk(keys[flowLevel := key], b, taken, queued + 1, flowLevel, pointer)
  {
    hide LineAt, ColumnAt;
  }

  /** A key that is still on its line, and near. */
  predicate Fresh(key: SimpleKey, line: nat, pointer: nat) {
    key.line == line && pointer - key.index <= 1024
  }

  /** The saved keys that may still turn out to be keys. */
  function Still(keys: map<int, SimpleKey>, line: nat, pointer: nat): map<int, SimpleKey> {
    map l | l in keys && Fresh(keys[l], line, pointer) :: keys[l]
  }

  /** A key that had to be one no longer can. */
  predicate Lost(keys: map<int, SimpleKey>, line: nat, pointer: nat) {
    exists l :: l in keys && !Fresh(keys[l], line, pointer) && keys[l].required
  }

  // --- indentation

  /** The columns of the open block collections, outermost first: each deeper
      than the one before, all below the -1 they start from. */
  predicate IndentsOk(indents: seq<int>, indent: int) {
    var all := indents + [indent];
    && all[0] == -1
    && forall i, j :: 0 <= i < j < |all| ==> all[i] < all[j]
  }

  function Delta(t: Tok): int {
    match t
    case BlockSequenceStart => 1
    case BlockMappingStart => 1
    case BlockEnd => -1
    case _ => 0
  }

  /** Block collections begun and not ended. */
  function Depth(ts: seq<Tok>): int {
    if ts == [] then 0 else Depth(ts[..|ts| - 1]) + Delta(ts[|ts| - 1])
  }

  /** No block end without its start, in any prefix; `depth` left open. */
  predicate Nested(ts: seq<Tok>, depth: int) {
    && Depth(ts) == depth
    && forall i :: 0 <= i <= |ts| ==> Depth(ts[..i]) >= 0
  }

  function FlowDelta(t: Tok): int {
    match t
    case FlowSequenceStart => 1
    case FlowMappingStart => 1
    case FlowSequenceEnd => -1
    case FlowMappingEnd => -1
    case _ => 0
  }

  /** Flow collections begun less those ended. */
  function Flow(ts: seq<Tok>): int {
    if ts == [] then 0 else Flow(ts[..|ts| - 1]) + FlowDelta(ts[|ts| - 1])
  }

  lemma {:induction false} FlowConcat(a: seq<Tok>, b: seq<Tok>)
    ensures Flow(a + b) == Flow(a) + Flow(b)
    decreases |b|
  {
    if b == [] {
      assert a + b == a;
    } else {
      var init := b[..|b| - 1];
      assert (a + b)[..|a + b| - 1] == a + init;
      FlowConcat(a, init);
    }
  }

  lemma FlowInsert(a: seq<Tok>, t: Tok, b: seq<Tok>)
    ensures Flow(a + [t] + b) == Flow(a + b) + FlowDelta(t)
  {
    FlowConcat(a, b);
    FlowConcat(a, [t]);
    FlowConcat(a + [t], b);
    assert [t][..0] == [];
  }

  lemma {:induction false} DepthConcat(a: seq<Tok>, b: seq<Tok>)
    ensures Depth(a + b) == Depth(a) + Depth(b)
    decreases |b|
  {
    if b == [] {
      assert a + b == a;
    } else {
      var init := b[..|b| - 1];
      assert (a + b)[..|a + b| - 1] == a + init;
      DepthConcat(a, init);
    }
  }

  lemma DepthOne(t: Tok)
    ensures Depth([t]) == Delta(t)
  {
    assert [t][..0] == [];
  }

  /** A token put anywhere that does not end a block keeps every prefix nested. */
  lemma InsertNested(a: seq<Tok>, t: Tok, b: seq<Tok>, depth: int)
    requires Nested(a + b, depth) && Delta(t) >= 0
    ensures Nested(a + [t] + b, depth + Delta(t))
  {
    DepthOne(t);
    DepthConcat(a, b);
    DepthConcat(a, [t]);
    DepthConcat(a + [t], b);
    var all := a + [t] + b;
    forall i | 0 <= i <= |all| ensures Depth(all[..i]) >= 0 {
      if i <= |a| {
        assert all[..i] == (a + b)[..i];
      } else {
        var j := i - |a| - 1;
        assert all[..i] == a + [t] + b[..j];
        assert (a + b)[..|a| + j] == a + b[..j];
        DepthConcat(a, b[..j]);
        DepthConcat(a + [t], b[..j]);
      }
    }
  }

  /** A token at the end. */
  lemma AppendNested(a: seq<Tok>, t: Tok, depth: int)
    requires Nested(a, depth) && depth + Delta(t) >= 0
    ensures Nested(a + [t], depth + Delta(t))
  {
    DepthOne(t);
    DepthConcat(a, [t]);
    var all := a + [t];
    forall i | 0 <= i <= |all| ensures Depth(all[..i]) >= 0 {
      if i <= |a| {
        assert all[..i] == a[..i];
      } else {
        assert all[..i] == all;
      }
    }
  }

  lemma AppendFramed(ts: seq<Tok>, t: Tok)
    requires Framed(ts, false) && !t.StreamStart?
    ensures Framed(ts + [t], t.StreamEnd?)
  {
  }

  lemma InsertFramed(a: seq<Tok>, t: Tok, b: seq<Tok>)
    requires Framed(a + b, false) && a != [] && !t.StreamStart? && !t.StreamEnd?
    ensures Framed(a + [t] + b, false)
  {
    var was, all := a + b, a + [t] + b;
    assert was[0] == a[0] == all[0];
    forall i | 0 < i < |all| ensures !all[i].StreamStart? && !all[i].StreamEnd? {
      assert all[i] == if i < |a| then was[i] else if i == |a| then t else was[i - 1];
    }
  }

  /** The token, if any, that starts a block collection at a column. */
  function Opening(start: Tok, flowLevel: int, indent: int, column: int): seq<Tok> {
    if flowLevel == 0 && indent < column then [start] else []
  }

  // --- what a fetch does to the keys and the queue

  /** Tokens pushed at the end: keys that were saved point where they did, and
      the one saved last, if any, at the first of them. */
  lemma PushKeys(before: map<int, SimpleKey>, keys: map<int, SimpleKey>, b: seq<char>, delivered: seq<Tok>, was: seq<Tok>,
                 more: seq<Tok>, flowLevel: int, pointer: nat, next: nat)
    requires more != [] && pointer <= next
    requires KeysOk(keys, b, |delivered|, |was| + (if OpensKey(more[0]) then 1 else 0), flowLevel, pointer)
    requires Pointed(keys, delivered + was)
    requires forall l :: l in keys ==> (l in before && keys[l] == before[l]) || |delivered| + |was| <= keys[l].tokenNumber
    ensures KeysOk(keys, b, |delivered|, |was + more|, flowLevel, next)
    ensures Pointed(keys, delivered + (was + more))
    ensures Kept(before, was, keys, was + more, |delivered|)
  {
    hide LineAt, ColumnAt, OpensKey;
    AppendKept(before, was, keys, more, |delivered|);
    var ts, all := delivered + was, delivered + (was + more);
    forall l | l in keys && keys[l].tokenNumber < |all| ensures OpensKey(all[keys[l].tokenNumber]) {
      var n := keys[l].tokenNumber;
      if n < |ts| {
        assert all[n] == ts[n];
      } else {
        assert n == |ts| && all[n] == more[0];
      }
    }
  }

  /** Tokens inserted before the token of the innermost key, which is given up:
      no other key can see it. */
  lemma InsertKeys(keys: map<int, SimpleKey>, b: seq<char>, delivered: seq<Tok>, was: seq<Tok>, more: seq<Tok>, level: int, pointer: nat)
    requires KeysOk(keys, b, |delivered|, |was|, level, pointer) && level in keys && Pointed(keys, delivered + was)
    ensures var at := keys[level].tokenNumber - |delivered|;
            var queue := was[..at] + more + was[at..];
            && KeysOk(keys - {level}, b, |delivered|, |queue|, level, pointer)
            && Pointed(keys - {level}, delivered + queue)
            && Kept(keys, was, keys - {level}, queue, |delivered|)
            && OpensKey(was[at])
  {
    hide LineAt, ColumnAt, OpensKey;
    var at := keys[level].tokenNumber - |delivered|;
    var queue := was[..at] + more + was[at..];
    InsertKept(keys, was, level, more, |delivered|);
    assert (delivered + was)[keys[level].tokenNumber] == was[at];
    forall l | l in keys - {level} ensures keys[l].tokenNumber < |delivered| + at && OpensKey((delivered + queue)[keys[l].tokenNumber]) {
      var n := keys[l].tokenNumber;
      assert l < level;
      assert (delivered + queue)[n] == (delivered + was)[n];
    }
  }

  lemma RemoveKey(keys: map<int, SimpleKey>, b: seq<char>, taken: nat, ts: seq<Tok>, queued: nat, flowLevel: int, pointer: nat)
    requires KeysOk(keys, b, taken, queued, flowLevel, pointer) && Pointed(keys, ts)
    ensures KeysOk(keys - {flowLevel}, b, taken, queued, flowLevel - 1, pointer)
    ensures KeysOk(keys - {flowLevel}, b, taken, queued, flowLevel, pointer)
    ensures Pointed(keys - {flowLevel}, ts)
  {
    hide LineAt, ColumnAt;
  }

  lemma StillKeys(keys: map<int, SimpleKey>, b: seq<char>, taken: nat, ts: seq<Tok>, was: seq<Tok>, flowLevel: int, line: nat, pointer: nat)
    requires KeysOk(keys, b, taken, |was|, flowLevel, pointer) && Pointed(keys, ts)
    ensures KeysOk(Still(keys, line, pointer), b, taken, |was|, flowLevel, pointer)
    ensures Pointed(Still(keys, line, pointer), ts)
    ensures Kept(keys, was, Still(keys, line, pointer), was, taken)
  {
    hide LineAt, ColumnAt;
    assert was + [] == was;
    AppendKept(keys, was, Still(keys, line, pointer), [], taken);
  }

  lemma NoKeys(before: map<int, SimpleKey>, b: seq<char>, delivered: seq<Tok>, was: seq<Tok>, more: seq<Tok>, flowLevel: int, pointer: nat)
    requires more != []
    ensures KeysOk(map[], b, |delivered|, |was + more|, flowLevel, pointer)
    ensures Pointed(map[], delivered + (was + more))
    ensures Kept(before, was, map[], was + more, |delivered|)
  {
    AppendKept(before, was, map[], more, |delivered|);
  }

  lemma LevelKeys(keys: map<int, SimpleKey>, b: seq<char>, taken: nat, queued: nat, flowLevel: int, pointer: nat)
    requires KeysOk(keys, b, taken, queued, flowLevel, pointer)
    ensures KeysOk(keys, b, taken, queued, flowLevel + 1, pointer)
  {
    hide LineAt, ColumnAt;
  }

  lemma KeyPlace(keys: map<int, SimpleKey>, b: seq<char>, taken: nat, queued: nat, flowLevel: int, pointer: nat)
    requires KeysOk(keys, b, taken, queued, flowLevel, pointer) && flowLevel in keys
    ensures taken <= keys[flowLevel].tokenNumber < taken + queued && keys[flowLevel].tokenNumber > 0
  {
  }

  /** Block ends pushed after the queue. */
  lemma Ends(keys: map<int, SimpleKey>, b: seq<char>, delivered: seq<Tok>, was: seq<Tok>, queue: seq<Tok>, flowLevel: int, pointer: nat)
    requires KeysOk(keys, b, |delivered|, |was|, flowLevel, pointer) && Pointed(keys, delivered + was) && was <= queue
    ensures KeysOk(keys, b, |delivered|, |queue|, flowLevel, pointer) && Pointed(keys, delivered + queue)
    ensures Kept(keys, was, keys, queue, |delivered|)
  {
    hide LineAt, ColumnAt, OpensKey;
    assert queue == was + queue[|was|..];
    AppendKept(keys, was, keys, queue[|was|..], |delivered|);
    forall l | l in keys ensures OpensKey((delivered + queue)[keys[l].tokenNumber]) {
      assert (delivered + queue)[keys[l].tokenNumber] == (delivered + was)[keys[l].tokenNumber];
    }
  }

  /** The least number among the keys decides whether the front of the queue is settled. */
  lemma Uncommitted(keys: map<int, SimpleKey>, b: seq<char>, taken: nat, queued: nat, flowLevel: int, pointer: nat, next: Option<nat>)
    requires KeysOk(keys, b, taken, queued, flowLevel, pointer) && queued > 0
    requires next.None? <==> keys == map[]
    requires next.Some? ==> (exists l :: l in keys && keys[l].tokenNumber == next.value)
    requires next.Some? ==> forall l :: l in keys ==> next.value <= keys[l].tokenNumber
    ensures next == Some(taken) <==> !Committed(keys, taken, queued, 1)
  {
    hide LineAt, ColumnAt;
  }

  lemma SettledFront(before: map<int, SimpleKey>, was: seq<Tok>, keys: map<int, SimpleKey>, queue: seq<Tok>, taken: nat)
    requires Kept(before, was, keys, queue, taken) && Committed(before, taken, |was|, 1)
    ensures queue != [] && queue[0] == was[0]
  {
    assert queue[..1] == was[..1];
    assert queue[0] == queue[..1][0] == was[..1][0] == was[0];
  }

  /** A settled front can be taken. */
  lemma TakeFront(keys: map<int, SimpleKey>, b: seq<char>, taken: nat, queued: nat, flowLevel: int, pointer: nat)
    requires KeysOk(keys, b, taken, queued, flowLevel, pointer) && queued > 0
    requires keys == map[] || Committed(keys, taken, queued, 1)
    ensures KeysOk(keys, b, taken + 1, queued - 1, flowLevel, pointer)
  {
    hide LineAt, ColumnAt;
  }

  lemma PopIndent(indents: seq<int>, indent: int)
    requires IndentsOk(indents, indent) && indents != []
    ensures IndentsOk(indents[..|indents| - 1], indents[|indents| - 1])
  {
    var all := indents + [indent];
    var less := indents[..|indents| - 1] + [indents[|indents| - 1]];
    assert less == indents;
    assert forall i :: 0 <= i < |less| ==> less[i] == all[i];
  }

  lemma PushIndent(indents: seq<int>, indent: int, column: int)
    requires IndentsOk(indents, indent) && indent < column
    ensures IndentsOk(indents + [indent], column)
  {
    var all := indents + [indent];
    assert forall i :: 0 <= i < |all| ==> all[i] <= all[|all| - 1];
  }

  lemma IndentsEmpty(indents: seq<int>, indent: int)
    requires IndentsOk(indents, indent)
    ensures indent >= -1 && (indents == [] <==> indent == -1)
  {
    var all := indents + [indent];
    assert all[0] <= all[|all| - 1];
  }

  // --- what a scalar keeps of its text

  predicate Gap(c: char) {
    c == ' ' || c == '\t' || Break(c)
  }

  /** A text without its blanks and breaks. */
  function Dense(s: string): string {
    if s == "" then "" else (if Gap(s[0]) then "" else [s[0]]) + Dense(s[1..])
  }

  lemma {:induction false} DenseConcat(s: string, t: string)
    ensures Dense(s + t) == Dense(s) + Dense(t)
    decreases |s|
  {
    if s == "" {
      assert s + t == t;
    } else {
      assert (s + t)[1..] == s[1..] + t;
      DenseConcat(s[1..], t);
    }
  }

  lemma {:induction false} DenseOfGaps(s: string)
    requires forall i :: 0 <= i < |s| ==> Gap(s[i])
    ensures Dense(s) == ""
  {
    if s != "" {
      DenseOfGaps(s[1..]);
    }
  }

  /** Whether the text from `p` to `q` is blanks and breaks. */
  predicate GapsOnly(b: seq<char>, p: nat, q: nat) {
    p <= q <= |b| && forall i :: p <= i < q ==> Gap(b[i])
  }

  lemma DenseOverGaps(b: seq<char>, start: nat, p: nat, q: nat)
    requires start <= p && GapsOnly(b, p, q)
    ensures Dense(b[start..q]) == Dense(b[start..p])
  {
    assert b[start..q] == b[start..p] + b[p..q];
    DenseConcat(b[start..p], b[p..q]);
    DenseOfGaps(b[p..q]);
  }
}
