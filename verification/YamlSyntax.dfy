/** The grammar the parser reads, independent of its states: a syntax tree, the
    tokens it is written with and the node it stands for. */
module YamlSyntax {
  import opened Results
  import opened YamlTree
  import opened YamlTokens
  import YamlParser

  datatype Style = BlockSeq | DashSeq | BlockMap | FlowSeq | FlowMap

  datatype Props =
    | Bare
    | Anchored(anchor: string)
    | Tagged(handle: Option<string>, suffix: string)
    | AnchoredTagged(anchor: string, handle: Option<string>, suffix: string)
    | TaggedAnchored(anchor: string, handle: Option<string>, suffix: string)

  datatype Syntax =
    | Ref(name: string)
    | Empty(props: Props)
    | Text(props: Props, value: string, plain: bool)
    | Coll(style: Style, props: Props, parts: seq<Part>, comma: bool)

  /** An entry of a collection: a node alone, or a key after a `?` or a `key:`
      with the value that may follow its `:`. */
  datatype Part =
    | Item(node: Syntax)
    | Couple(key: Syntax, value: Option<Syntax>)

  const NOTHING: Syntax := Empty(Bare)
  const NULL_NODE: Node := ScalarNode(None, None, true, "")

  predicate Flow(style: Style) {
    style.FlowSeq? || style.FlowMap?
  }

  predicate Sequence(style: Style) {
    style.BlockSeq? || style.DashSeq? || style.FlowSeq?
  }

  // --- tokens

  function PropTokens(p: Props): seq<Tok> {
    match p
    case Bare => []
    case Anchored(a) => [Tok.Anchor(a)]
    case Tagged(h, s) => [Tok.Tag(h, s)]
    case AnchoredTagged(a, h, s) => [Tok.Anchor(a), Tok.Tag(h, s)]
    case TaggedAnchored(a, h, s) => [Tok.Tag(h, s), Tok.Anchor(a)]
  }

  function OpenTokens(style: Style): seq<Tok> {
    match style
    case BlockSeq => [Tok.BlockSequenceStart]
    case DashSeq => []
    case BlockMap => [Tok.BlockMappingStart]
    case FlowSeq => [Tok.FlowSequenceStart]
    case FlowMap => [Tok.FlowMappingStart]
  }

  function CloseTokens(style: Style): seq<Tok> {
    match style
    case BlockSeq => [Tok.BlockEnd]
    case DashSeq => []
    case BlockMap => [Tok.BlockEnd]
    case FlowSeq => [Tok.FlowSequenceEnd]
    case FlowMap => [Tok.FlowMappingEnd]
  }

  function CommaTokens(comma: bool): seq<Tok> {
    if comma then [Tok.FlowEntry] else []
  }

  /** What goes before a lone node in a collection. */
  function Dash(style: Style): seq<Tok> {
    if Flow(style) then [] else [Tok.BlockEntry]
  }

  function Tokens(s: Syntax): seq<Tok>
    decreases s, 1
  {
    match s
    case Ref(name) => [Tok.Alias(name)]
    case Empty(props) => PropTokens(props)
    case Text(props, value, plain) => PropTokens(props) + [Tok.Scalar(value, plain)]
    case Coll(style, props, parts, comma) =>
      PropTokens(props) + OpenTokens(style) + PartsTokens(style, parts, true) + CommaTokens(comma) + CloseTokens(style)
  }

  function PartsTokens(style: Style, parts: seq<Part>, first: bool): seq<Tok>
    decreases parts, 0
  {
    if parts == [] then []
    else CommaTokens(Flow(style) && !first) + PartTokens(style, parts[0]) + PartsTokens(style, parts[1..], false)
  }

  function PartTokens(style: Style, p: Part): seq<Tok>
    decreases p, 0
  {
    match p
    case Item(node) => Dash(style) + Tokens(node)
    case Couple(key, value) => [Tok.Key] + Tokens(key) + ValueTokens(value)
  }

  function ValueTokens(value: Option<Syntax>): seq<Tok>
    decreases value, 0
  {
    match value
    case None => []
    case Some(v) => [Tok.Value] + Tokens(v)
  }

  // --- nodes

  function AnchorOf(p: Props): Option<string> {
    match p
    case Bare => None
    case Anchored(a) => Some(a)
    case Tagged(_, _) => None
    case AnchoredTagged(a, _, _) => Some(a)
    case TaggedAnchored(a, _, _) => Some(a)
  }

  predicate HandleOk(h: Option<string>, handles: map<string, string>) {
    h.Some? ==> h.value in handles
  }

  predicate PropsOk(p: Props, handles: map<string, string>) {
    p.Tagged? || p.AnchoredTagged? || p.TaggedAnchored? ==> HandleOk(p.handle, handles)
  }

  function Expand(h: Option<string>, suffix: string, handles: map<string, string>): string {
    if h.Some? && h.value in handles then handles[h.value] + suffix else suffix
  }

  /** The tag a node carries, its handle replaced by what it stands for. */
  function TagOf(p: Props, handles: map<string, string>): Option<string> {
    match p
    case Bare => None
    case Anchored(_) => None
    case Tagged(h, s) => Some(Expand(h, s, handles))
    case AnchoredTagged(_, h, s) => Some(Expand(h, s, handles))
    case TaggedAnchored(_, h, s) => Some(Expand(h, s, handles))
  }

  function NodeOf(s: Syntax, handles: map<string, string>): Node
    decreases s, 1
  {
    match s
    case Ref(name) => AliasNode(name)
    case Empty(props) =>
      var tag := TagOf(props, handles);
      ScalarNode(AnchorOf(props), tag, tag.None? || tag == Some("!"), "")
    case Text(props, value, plain) =>
      var tag := TagOf(props, handles);
      ScalarNode(AnchorOf(props), tag, (plain && tag.None?) || tag == Some("!"), value)
    case Coll(style, props, parts, comma) =>
      if Sequence(style) then SequenceNode(AnchorOf(props), TagOf(props, handles), ItemsOf(parts, handles))
      else MappingNode(AnchorOf(props), TagOf(props, handles), PairsOf(parts, handles))
  }

  /** The nodes of a sequence; a key and value in one are a mapping of one pair. */
  function ItemsOf(parts: seq<Part>, handles: map<string, string>): seq<Node>
    decreases parts, 0
  {
    if parts == [] then [] else [ItemOf(parts[0], handles)] + ItemsOf(parts[1..], handles)
  }

  function ItemOf(p: Part, handles: map<string, string>): Node
    decreases p, 1
  {
    match p
    case Item(node) => NodeOf(node, handles)
    case Couple(key, value) => MappingNode(None, None, [PairOf(p, handles)])
  }

  function PairsOf(parts: seq<Part>, handles: map<string, string>): seq<Pair>
    decreases parts, 0
  {
    if parts == [] then [] else [PairOf(parts[0], handles)] + PairsOf(parts[1..], handles)
  }

  /** The pair of a mapping; a lone node is a key with a null value. */
  function PairOf(p: Part, handles: map<string, string>): Pair
    decreases p, 0
  {
    match p
    case Item(node) => Pair(NodeOf(node, handles), NULL_NODE)
    case Couple(key, value) => Pair(NodeOf(key, handles), ValueOf(value, handles))
  }

  function ValueOf(value: Option<Syntax>, handles: map<string, string>): Node
    decreases value, 0
  {
    match value
    case None => NULL_NODE
    case Some(v) => NodeOf(v, handles)
  }

  // --- which trees are grammatical

  /** Whether `s` may stand where block collections are (not) allowed, and
      where a sequence may (not) sit at its parent's indentation. */
  predicate SyntaxOk(s: Syntax, block: bool, indentless: bool, handles: map<string, string>)
    decreases s, 1
  {
    match s
    case Ref(_) => true
    case Empty(props) => PropsOk(props, handles)
    case Text(props, _, _) => PropsOk(props, handles)
    case Coll(style, props, parts, comma) =>
      && PropsOk(props, handles)
      && StyleOk(style, block, indentless)
      && (style.DashSeq? ==> parts != [])
      && (comma ==> Flow(style) && parts != [])
      && PartsOk(style, parts, handles)
  }

  predicate StyleOk(style: Style, block: bool, indentless: bool) {
    match style
    case BlockSeq => block
    case DashSeq => indentless
    case BlockMap => block
    case FlowSeq => true
    case FlowMap => true
  }

  predicate PartsOk(style: Style, parts: seq<Part>, handles: map<string, string>)
    decreases parts, 0
  {
    parts == [] || (PartOk(style, parts[0], handles) && PartsOk(style, parts[1..], handles))
  }

  /** Keys and values of block mappings may hold sequences at the mapping's own
      indentation; a flow entry is never nothing at all. */
  predicate PartOk(style: Style, p: Part, handles: map<string, string>)
    decreases p, 0
  {
    var block := !Flow(style);
    match p
    case Item(node) =>
      && !style.BlockMap?
      && (Flow(style) ==> node != NOTHING)
      && SyntaxOk(node, block, false, handles)
    case Couple(key, value) =>
      && !style.BlockSeq? && !style.DashSeq?
      && SyntaxOk(key, block, style.BlockMap?, handles)
      && ValueOk(value, block, style.BlockMap?, handles)
  }

  predicate ValueOk(value: Option<Syntax>, block: bool, indentless: bool, handles: map<string, string>)
    decreases value, 0
  {
    match value
    case None => true
    case Some(v) => SyntaxOk(v, block, indentless, handles)
  }

  // --- documents

  /** A document: its directives and `---` unless it is the implicit first one,
      its node, and the `...` lines after it. */
  datatype Doc = Doc(header: Option<seq<Directive>>, root: Syntax, ends: nat)

  function DirectiveTokens(ds: seq<Directive>): seq<Tok> {
    if ds == [] then [] else [Tok.DirectiveTok(ds[0])] + DirectiveTokens(ds[1..])
  }

  function HeaderTokens(header: Option<seq<Directive>>): seq<Tok> {
    match header
    case None => []
    case Some(ds) => DirectiveTokens(ds) + [Tok.DocumentStart]
  }

  function EndTokens(ends: nat): seq<Tok> {
    if ends == 0 then [] else [Tok.DocumentEnd] + EndTokens(ends - 1)
  }

  function DocTokens(d: Doc): seq<Tok> {
    HeaderTokens(d.header) + Tokens(d.root) + EndTokens(d.ends)
  }

  function DocsTokens(docs: seq<Doc>): seq<Tok> {
    if docs == [] then [] else DocTokens(docs[0]) + DocsTokens(docs[1..])
  }

  /** The handles `%TAG` lines declare, each once. */
  function Declared(ds: seq<Directive>, before: map<string, string>): map<string, string> {
    if ds == [] then before
    else match ds[0]
      case TagDirective(h, p) => Declared(ds[1..], before[h := p])
      case _ => Declared(ds[1..], before)
  }

  predicate DirectivesOk(ds: seq<Directive>, before: map<string, string>, version: bool) {
    if ds == [] then true
    else match ds[0]
      case YamlDirective(one) => one && !version && DirectivesOk(ds[1..], before, true)
      case TagDirective(h, p) => h !in before && DirectivesOk(ds[1..], before[h := p], version)
      case OtherDirective => DirectivesOk(ds[1..], before, version)
  }

  function HandlesOf(header: Option<seq<Directive>>): map<string, string> {
    match header
    case None => YamlParser.DEFAULT_TAGS
    case Some(ds) => YamlParser.DEFAULT_TAGS + Declared(ds, map[])
  }

  predicate HeaderOk(header: Option<seq<Directive>>) {
    header.Some? ==> DirectivesOk(header.value, map[], false)
  }

  /** Only the first document may go without its `---`, and then it is not empty. */
  predicate DocOk(d: Doc, first: bool) {
    && HeaderOk(d.header)
    && SyntaxOk(d.root, true, false, HandlesOf(d.header))
    && (d.header.None? ==> first && d.root != NOTHING)
  }

  predicate DocsOk(docs: seq<Doc>) {
    forall i :: 0 <= i < |docs| ==> DocOk(docs[i], i == 0)
  }

  function DocNodes(docs: seq<Doc>): seq<Node> {
    if docs == [] then [] else [NodeOf(docs[0].root, HandlesOf(docs[0].header))] + DocNodes(docs[1..])
  }

  // --- adding a part or a document at the end

  lemma {:induction false} PartsTokensSnoc(style: Style, parts: seq<Part>, p: Part, first: bool)
    ensures PartsTokens(style, parts + [p], first)
         == PartsTokens(style, parts, first) + CommaTokens(Flow(style) && !(first && parts == [])) + PartTokens(style, p)
  {
    if parts == [] {
      assert parts + [p] == [p] && [p][1..] == [];
    } else {
      assert (parts + [p])[1..] == parts[1..] + [p];
      PartsTokensSnoc(style, parts[1..], p, false);
    }
  }

  lemma {:induction false} PartsOkSnoc(style: Style, parts: seq<Part>, p: Part, handles: map<string, string>)
    ensures PartsOk(style, parts + [p], handles) == (PartsOk(style, parts, handles) && PartOk(style, p, handles))
  {
    if parts == [] {
      assert parts + [p] == [p] && [p][1..] == [];
    } else {
      assert (parts + [p])[1..] == parts[1..] + [p];
      PartsOkSnoc(style, parts[1..], p, handles);
    }
  }

  lemma {:induction false} ItemsOfSnoc(parts: seq<Part>, p: Part, handles: map<string, string>)
    ensures ItemsOf(parts + [p], handles) == ItemsOf(parts, handles) + [ItemOf(p, handles)]
  {
    if parts == [] {
      assert parts + [p] == [p] && [p][1..] == [];
    } else {
      assert (parts + [p])[1..] == parts[1..] + [p];
      ItemsOfSnoc(parts[1..], p, handles);
    }
  }

  lemma {:induction false} PairsOfSnoc(parts: seq<Part>, p: Part, handles: map<string, string>)
    ensures PairsOf(parts + [p], handles) == PairsOf(parts, handles) + [PairOf(p, handles)]
  {
    if parts == [] {
      assert parts + [p] == [p] && [p][1..] == [];
    } else {
      assert (parts + [p])[1..] == parts[1..] + [p];
      PairsOfSnoc(parts[1..], p, handles);
    }
  }

  lemma {:induction false} DocsTokensSnoc(docs: seq<Doc>, d: Doc)
    ensures DocsTokens(docs + [d]) == DocsTokens(docs) + DocTokens(d)
  {
    if docs == [] {
      assert docs + [d] == [d] && [d][1..] == [];
    } else {
      assert (docs + [d])[1..] == docs[1..] + [d];
      DocsTokensSnoc(docs[1..], d);
    }
  }

  lemma {:induction false} DocNodesSnoc(docs: seq<Doc>, d: Doc)
    ensures DocNodes(docs + [d]) == DocNodes(docs) + [NodeOf(d.root, HandlesOf(d.header))]
  {
    if docs == [] {
      assert docs + [d] == [d] && [d][1..] == [];
    } else {
      assert (docs + [d])[1..] == docs[1..] + [d];
      DocNodesSnoc(docs[1..], d);
    }
  }
}
