# unbidden, modelled and verified

unbidden lists what starts by itself on a Linux host and says which of it no
package accounts for. This project models the parts of it where a mistake would
be hardest to see, and proves what they promise:

- **YAML.** A scanner that inserts tokens behind tokens already queued, a parser
  that is a machine of 21 states over a stack of return states, and a builder
  that turns events into a tree under a node budget and a depth bound. The
  parser is proved to accept exactly the token sequences of a grammar stated
  without its states (`YamlSyntax`), with the events of the nodes the grammar
  gives them; the builder to compute what the tree composes to, within its
  bounds at every event; the scanner to give exactly the tokens a recursive
  reading of the text gives (`Scanning.TokensOf`), to keep its queue, its possible
  keys and its indentation, and every loop of it to end. Scalars are read as they
  were written, and what a text can cost is bounded by its characters.
- **In-root resolution.** The worklist loop of `resolve`, against a walk written
  by recursion, on any tree of directories, files and links; the rule that
  keeps a path inside its home, and the open that refuses links.
- **Baseline comparison.** Which differences may be asserted: coverage as an
  order, conservation of ids, soundness of what is asserted, the mirror law.
- **Fast forms against definitions.** Glob matching that remembers one star,
  base64, include walks, names of duplicate entries and of cron jobs, shell
  quoting, the words verdicts are stored in.
- **The verdict pipeline.** `apply_target`, `apply_provenance`, the answers of
  service managers, and the rule that hides a row.

Objects the program updates in place are classes here (`Scanner`, `Parser`,
`Builder`, the `Entry` being enriched) or arrays, and its loops are loops; each
method is proved against a function, and the properties are lemmas about those
functions. Code made of expressions is functions. `dafny verify dfyconfig.toml`
checks everything.

What comes from outside is a parameter: the tree of files (`Resolution.Tree`),
the disk and the package answers of enrichment, the bus answers, the host behind
a scan (`Baseline.Host`), the hash (assumed injective where a theorem says so),
the construction of one scalar (`YamlBuilder.Loader`, of which `Sound` is
assumed) and the files an include names. Errors are kept as kinds
(`Results.Fault`), not as wording.

Where the code does not do what its comments or its purpose suggest, the code is
modelled and the gap is stated exactly:

- `glob_match` tries equal characters before a star, so it is the definition for
  all strings only of star-free patterns, and for all patterns only of star-free
  strings (`Glob.GlobMissesStars`); a yes is always right (`Glob.GlobSound`).
- `resolve` lets `file/..` through where a walk in the kernel fails; that is the
  only difference (`Resolution.StrictWalk`).
- The node budget is explained in the source by one node taking a byte of text
  at least, so that no file a collector reads whole is refused. `[?,?]` is seven
  nodes in five characters, and so on without end
  (`YamlMarks.NodesOutnumberCharacters`): a file of 699063 characters, within
  READ_CAP, is refused for the budget and nothing else (`YamlMarks.MarksRefused`,
  `YamlBudget.LoadableBudget`). What holds is one node more than there are
  characters, and one more for each `?` (`YamlCosts.NodesPerCharacter`); so a text
  with no `&` is never refused for the budget while its characters, each `?`
  counted twice, are fewer than MAX_NODES (`YamlBudget.TextFits`).
- The first holder of an id can be renamed, when an earlier entry's suffixed
  name came to the same id (`Dedup.FirstHolderRenamed`). Where no name is
  another's with `#` and a number, of one kind and source, it is not: an entry is
  kept if and only if none before it has its id (`Dedup.FirstHoldersKept`,
  `Dedup.ClashIsName`); and any name that is another's so is renamed in some list
  in which it is first (`Dedup.DisplacedIffClash`).
- A stored verdict comes back from its words unless a package's name begins like
  another verdict's words (`Verdicts.VerdictRead`); a name with a space can make
  a modified package read as absent by design (`Verdicts.NameThatHides`).
- Swapping two scans mirrors every verdict except a change to an entry that moved
  between collectors of which just one saw differently (`Baseline.SwapMirrors`).
- A user manager that lists a template instance's own path takes the template's
  answer away from it (`Bus.InstanceBlocked`); nothing else a user manager says
  reaches a system unit (`Bus.UsersDoNotSpeak`).
- Of twelve files in a row, each including the next, the last is never read
  (`Includes.TwelfthUnread`); where no chain of includes from the first file goes
  through twelve different ones, all it can reach is read
  (`Includes.ShortChainsSeen`).
- base64 ignores the spare bits of the last group (`Base64.SpareBitsIgnored`): a
  text it accepts is the one its bytes are encoded as if and only if those bits
  are zero (`Base64.BytesDetermineText`).
- An asserted addition was absent at the baseline, unless the entry's collector or
  what it depends on changed in between (`Baseline.TrustIsAbsence`): an id on both
  hosts that no longer depends on an unreadable path is asserted added
  (`Baseline.MovedDepsAdded`).

## Model

| member | source | states |
|---|---|---|
| YamlGrammar.ParserReadsItsGrammar | src/pyyaml.rs:1153-1531 | For every token sequence whatever, broken off or not: the parser gets to the end of the stream without an error, having emitted given events, if and only if the tokens are those of grammatical documents whose nodes the events spell. |
| YamlCompleteness.EveryStreamIsRead | src/pyyaml.rs:1183-1513 | Any stream of grammatical documents is accepted, whatever token stands first and whatever follows its end, and its events are those of the nodes. |
| YamlCompleteness.NodeRuns | src/pyyaml.rs:1386-1461 | From any state, with any stack, a node's tokens are read to the last one and its events emitted, and the parser is back in the state on top of its stack. |
| YamlCompleteness.PartsRun | src/pyyaml.rs:1204-1353 | The entries of a collection that are left and its end are read as written, in each of the five collection styles. |
| YamlSoundness.StepAdvances | src/pyyaml.rs:1183-1353 | Every step of every run keeps what has been read grammatical: the tokens taken are those of a document under construction, the events emitted are its events, and the return stack holds one state for each open collection. |
| YamlSoundness.ParseNodeKeeps | src/pyyaml.rs:1386-1461 | A node, or the start of one, wherever the parser awaits a node, keeps that correspondence. |
| YamlSoundness.CloseKeeps | src/pyyaml.rs:1204-1290 | At the end of a collection the node it stands for goes into the collection around it, which is the one whose state was pushed. |
| YamlGrammar.StackNeverEmpty | src/pyyaml.rs:1179-1181 | No step after anything read so far pops an empty stack. |
| YamlGrammar.RunsKeepTheirStack | src/pyyaml.rs:1179-1181 | Wherever a run over any tokens has got to, its next step does not find its stack empty. |
| YamlGrammar.StepWorks | src/pyyaml.rs:1183-1353 | Every step takes a token or goes down a finite rank. |
| YamlGrammar.EveryRunEnds | src/pyyaml.rs:1519-1530 | A run emits at most eight events for each token, so every run ends. |
| YamlGrammar.StoppedAcceptsNothing | src/pyyaml.rs:1519-1530 | Tokens on which a run stops with an error are grammatical in no way: there is no other run. |
| PullParser.Parser.Next | src/pyyaml.rs:1519-1530 | The event of one step of the specified machine and its state afterwards; after an error or the end, nothing more, ever. |
| PullParser.Parser.Step | src/pyyaml.rs:1183-1353 | The object in each of its states does what the specified machine does, state, stack, handles and tokens left included. |
| PullParser.Parser.ParseNode | src/pyyaml.rs:1386-1461 | The same for a node. |
| PullParser.Parser.ProcessDirectives | src/pyyaml.rs:1356-1384 | The loop over directives leaves the handles a recursive reading of the lines gives, or its error. |
| PullParser.AllEvents | src/pyyaml.rs:1519-1531 | Running the object to its end decides the grammar: events of a grammatical stream, or an error, which is never the empty stack, and then no events make the tokens grammatical. |
| YamlPrefixes.ParsedNeverUnbalanced | src/yaml.rs:217-279 | For every token sequence and every point of its run, the builder given the events so far never meets an end with nothing open, a mapping ended after a key, or the branch marked unreachable. |
| YamlScanner.Scanner.constructor | src/pyyaml.rs:128-156 | The first state: the stream's start queued, nothing saved, the text closed by its NUL. |
| YamlScanner.New | src/pyyaml.rs:128-156 | A scanner exists for a text if and only if every character of it is printable in the sense of YAML 1.1. |
| YamlScanner.Scanner.Forward | src/pyyaml.rs:167-178 | Line and column remain those of the pointer, CR LF being one break and a byte order mark no column. |
| YamlScanner.Scanner.NeedMoreTokens | src/pyyaml.rs:189-198 | It says no exactly when the front of the queue is settled: no saved key can still have anything inserted before it. |
| YamlScanner.Scanner.PeekToken | src/pyyaml.rs:200-205 | The front of a settled queue; nothing that was settled has moved. |
| YamlScanner.Scanner.GetToken | src/pyyaml.rs:207-214 | What is taken is the token last peeked, and the sequence taken grows by just it. |
| YamlScanner.Scanner.FetchMoreTokens | src/pyyaml.rs:216-256 | A fetch that succeeds consumes a character or ends the stream, queues the token called for where the next one begins, keeps the whole invariant of queue, keys and indentation, and moves nothing settled. |
| ScannerState.OneCalled | src/pyyaml.rs:222-256 | At any place of any text, in any column and at any flow level, no two kinds of token are called for. |
| YamlScanner.Scanner.NextPossibleSimpleKey | src/pyyaml.rs:258-260 | The least token number among the saved keys, if there is one. |
| YamlScanner.Scanner.StalePossibleSimpleKeys | src/pyyaml.rs:262-274 | Keeps exactly the keys still on their line and within 1024 characters; fails exactly when a required one is lost. |
| YamlScanner.Scanner.SavePossibleSimpleKey | src/pyyaml.rs:276-291 | The key saved at the current level is for the token pushed next; keys of other levels stay. |
| YamlScanner.Scanner.RemovePossibleSimpleKey | src/pyyaml.rs:293-302 | Drops the key of the current level and no other; fails exactly when it was required. |
| YamlScanner.Scanner.UnwindIndent | src/pyyaml.rs:304-313 | Pops exactly the indents deeper than the column and pushes one block end for each; in flow context does nothing. |
| YamlScanner.Scanner.AddIndent | src/pyyaml.rs:315-324 | Adds an indent if and only if the column is deeper; the indents stay strictly increasing from -1. |
| YamlScanner.Scanner.FetchStreamEnd | src/pyyaml.rs:326-335 | Ends every open block, then the stream; no key is left saved. |
| YamlScanner.Scanner.FetchFlowCollectionEnd | src/pyyaml.rs:371-379 | Gives up the key of the level it leaves, and no other. |
| YamlScanner.Scanner.FetchBlockEntry | src/pyyaml.rs:390-406 | A `-`, with the start of a block sequence before it where the column is deeper than any open block. |
| YamlScanner.Scanner.FetchKey | src/pyyaml.rs:408-424 | A `?`, with the start of a block mapping before it where the column is deeper. |
| YamlScanner.Scanner.FetchValue | src/pyyaml.rs:426-451 | A `:` after a saved key puts a key token, and a mapping start where it is deeper, in range and directly before the token that opened the key; nothing settled and no other saved key moves. It fails only where no key was saved, outside flow context, where none is allowed. |
| YamlScanner.Scanner.InsertKey | src/pyyaml.rs:426-438 | The insertion itself: the queue before and after the key's token is kept, and the token can begin a key. |
| ScannerState.InsertKept | src/pyyaml.rs:189-214 | An insertion before the token of a saved key cannot reach the settled front of the queue, now or later. |
| ScannerState.InsertKeys | src/pyyaml.rs:426-438 | After it every other saved key still points at the token it was saved for. |
| ScannerState.InsertNested | src/pyyaml.rs:315-324 | A block start put anywhere into the tokens leaves every prefix with no more block ends than starts. |
| ScannerState.Uncommitted | src/pyyaml.rs:189-198 | The least number among the saved keys alone decides whether the front of the queue is settled. |
| YamlScanner.Tokenise | src/pyyaml.rs:189-256 | The tokens of a text are those its reading by recursion gives, and it fails exactly where that fails; they are framed by one stream start and one stream end; no prefix ends a block it did not begin, late insertions included; and where the flow brackets balance, every block is ended. |
| YamlScanner.Scanner.ScanToNextToken | src/pyyaml.rs:506-526 | Stops before the closing NUL, at a character that is neither space nor break nor a comment's. |
| YamlScanner.Scanner.ScanFlowScalar | src/pyyaml.rs:797-809 | A quoted scalar is what a recursive reading of its characters gives, escapes and folded breaks included, or fails where that fails. |
| YamlScanner.Scanner.ScanFlowScalarNonSpaces | src/pyyaml.rs:811-888 | The part of it between blanks. |
| YamlScanner.Scanner.ScanFlowScalarSpaces | src/pyyaml.rs:890-914 | The folding of a run of blanks and breaks. |
| FlowScalars.SingleQuotedReadsBack | src/pyyaml.rs:811-888 | Any string with no line break, its quotes doubled, is read back from between single quotes. |
| FlowScalars.EveryStringCanBeWritten | src/pyyaml.rs:811-888 | Every string at all, escaped, is read back whole from between double quotes, whatever stands around it. |
| YamlScanner.Scanner.ScanPlain | src/pyyaml.rs:933-971 | A plain scalar is what a recursive reading of its lines gives, and it is read to the same place. |
| OpenScalars.PlainKeepsText | src/pyyaml.rs:933-1013 | A plain scalar and the text it was read from differ in nothing but blanks and breaks; it begins with the text's first character and ends with no blank. |
| YamlScanner.Scanner.ScanBlockScalar | src/pyyaml.rs:687-735 | A block scalar is what a recursive reading of its header and lines gives, folding and chomping included, or fails where that fails. |
| OpenScalars.BlockKeepsText | src/pyyaml.rs:687-735 | A block scalar and the text under its header differ in nothing but blanks and breaks; one whose header strips ends with no break. |
| OpenScalars.HeaderChomps | src/pyyaml.rs:737-767 | A header strips if and only if it has a `-` in it, and keeps if and only if it has a `+`. |
| LiteralText.EveryTextIsBlock | src/pyyaml.rs:687-795 | Any text whose only breaks are line feeds, each line of it ended by one, is read back whole from a block scalar, literal or folded: the header with an indentation digit and `+`, then its lines indented, with an empty line more wherever folding takes one away, whatever stands around them, empty lines before the first one included. |
| LiteralText.EveryTextIsLiteral | src/pyyaml.rs:687-795 | Of a literal scalar the lines written are the text's own. |
| LiteralText.NoDigitNeeded | src/pyyaml.rs:687-781 | Every other such text is read back from under one, indented as deep as the block asks or deeper, literal or folded. |
| LiteralText.DigitNeeded | src/pyyaml.rs:687-781 | A header without a digit gives no text whose first character that is no break is a space, whatever stands under it. |
| YamlScanner.Scanner.ScanUriEscapes | src/pyyaml.rs:1063-1080 | A run of percent escapes is the UTF-8 text its bytes spell, or an error. |
| Utf8.DecodeInvertsEncode | src/pyyaml.rs:1063-1080 | Bytes are a text by the UTF-8 rules of section 4 of RFC 3629 if and only if the text is encoded as those bytes: no overlong form, surrogate or cut sequence is let through. |
| YamlScanner.Scanner.ScanDirective | src/pyyaml.rs:528-627 | So are a directive's name, version, handle and prefix. |
| YamlScanner.Scanner.ScanTag | src/pyyaml.rs:647-685 | A tag's handle and suffix are those a recursive reading gives, or it fails where that fails. |
| TagText.EveryTextIsUri | src/pyyaml.rs:1038-1080 | Every text at all, each byte of its UTF-8 percent escaped, is read back whole as a tag's URI. |
| YamlFlatten.FlattenIs | src/yaml.rs:274-306 | No key twice in the result; own pairs beat merged ones and the last own pair wins; a later `<<` beats an earlier one; of a list of mappings the earliest that has the key wins. |
| YamlFlatten.FlattenKeepsFirst | src/yaml.rs:274-306 | Keys stand in the order, and the form, of their first occurrence, merged pairs before own ones. |
| YamlFlatten.FlattenFails | src/yaml.rs:274-306 | It fails if and only if a `<<` names something other than a mapping or a list of mappings, or a key is a sequence or a mapping. |
| YamlFlatten.DictIs | src/yaml.rs:291-306 | Insertion through the index is a dict: distinct keys, each with the last value given for it, and no others. |
| YamlFlatten.Flatten | src/yaml.rs:274-306 | The loops compute the specified flattening. |
| YamlFlatten.Insertions | src/yaml.rs:291-306 | The index of places agrees with looking the key up. |
| YamlBuilder.Builder.AnchorId | src/yaml.rs:190-198 | A new id for a new name, an error for a name defined before, 0 for no name. |
| YamlBuilder.Builder.Open | src/yaml.rs:208-215 | A level opened and charged, or refused past the depth bound or the budget. |
| YamlBuilder.Builder.Close | src/yaml.rs:217-238 | The innermost collection finished by its shape and placed in the one around it. |
| YamlBuilder.Builder.Push | src/yaml.rs:240-269 | An item recorded under its anchor, at a charge, and placed as key, value, entry or document. |
| YamlBuilder.Builder.Take | src/yaml.rs:73-124 | One event does to the object what the specified step does. |
| YamlBuilder.Builder.Load | src/yaml.rs:73-124 | A run over any events, its result or its first error. |
| YamlCompose.BuilderComposes | src/yaml.rs:73-124 | On the events of any stream the stack machine ends with exactly what composing the tree by recursion gives, error for error. |
| YamlCompose.BuilderFaults | src/yaml.rs:217-279 | On the events of any stream the only errors are a second document and those a document's content can cause. |
| YamlBounds.EveryBuildIsBounded | src/yaml.rs:200-269 | At every event of every build: nodes on the stack, in the finished tree and in all kept copies are together at most the counter, itself at most MAX_NODES; their text is at most the scalars' text and 64 bytes a charged node; and nothing nests deeper than MAX_DEPTH, through chains of aliases either. |
| YamlBounds.NoValueContainsItself | src/yaml.rs:107-124 | An alias to a collection still open is an error, so no value contains itself. |
| YamlValue.ChargeCovers | src/yaml.rs:377-384 | The size charged for a copy covers its nodes, and its text at 64 bytes a node. |
| YamlLoad.Parse | src/yaml.rs:73-128 | Text to value: on success the tokens are a grammatical stream of at most one document and the value is what its node composes to, within the bounds; on failure after scanning the tokens are no grammatical stream, or the tree composes to that very error, which is the budget's only for a text with a `&` or as many characters, each `?` counted twice, as there may be nodes. |
| YamlMarks.NodesOutnumberCharacters | src/yaml.rs:21-27 | For every number of commas: the text `[?,?,..,?]`, `[?,?]` among them, has tokens that are a grammatical stream, of one document with as many nodes as the text has characters, commas, and one. |
| YamlMarks.MarksRefused | src/yaml.rs:21-27 | If an empty scalar can be constructed at all, that document is refused for the budget just when thrice its commas and four are more than MAX_NODES, and loaded otherwise; 349530 commas, well within READ_CAP characters, are enough. |
| ScanCosts.TextPays | src/pyyaml.rs:216-256 | The tokens of every text can be paid for with its characters, and one for each `?`: all but those that only mark indentation and the stream's ends cost one, a `?` two, and a key put in late nothing, and it has its `:` after one simple node. |
| YamlCosts.NodesPerCharacter | src/yaml.rs:21-27 | The nodes of every text whose tokens are grammatical are at most its characters, one, and as many more as there are `?` in it. |
| YamlBudget.UnanchoredBudget | src/yaml.rs:200-215 | A document with no anchors is loaded only if its nodes are at most MAX_NODES, and exhausts the budget only if they are more. |
| YamlBudget.LoadableBudget | src/yaml.rs:200-215 | Of a document with no anchors, aliases or merges, every scalar of which can be constructed, every key of which is a scalar, with no tags but for lists, dicts and sets, and not too deep: the fault is the budget's if and only if it has more than MAX_NODES nodes, and else it is loaded. |
| YamlBudget.TextFits | src/yaml.rs:21-27 | A text with no `&` whose characters, each `?` counted twice, are fewer than MAX_NODES is never refused for the budget. |
| YamlCounts.NodesPerToken | src/yaml.rs:21-27 | The nodes of every grammatical stream are at most thrice its tokens. |
| Paths.NormalIsNormal | src/text.rs:59-72 | A path normalised by its text has no `..` left and is its own normal form. |
| Paths.Normalize | src/text.rs:59-72 | The loop computes it. |
| Resolution.ResolveNotingLinks | src/root.rs:214-255 | The worklist loop ends on every tree and path and computes the specified resolution, links counted and root's told from others'. |
| Resolution.ResolveIsWalk | src/root.rs:208-255 | The worklist is a walk by recursion that resolves a link's target before what follows it, on every tree, path and error. |
| Resolution.StrictWalk | src/root.rs:208-255 | Wherever a walk as the kernel's in the root gets to, with at most 40 links and 256 components, the loop gets to as well; and where the loop gets somewhere the walk fails if and only if a `..` stands on a file. |
| Resolution.FileDotDot | src/root.rs:226-240 | `file/..` resolves, and the walk refuses it. |
| Resolution.ResolvedStands | src/root.rs:200-255 | Every prefix of an answer exists and is not a link, no `..` is left, and it resolves to itself with no link followed. |
| Resolution.NoLinksIsNormal | src/text.rs:54-72 | Where no link is followed, as on a tree without links, the answer is the path normalised by its text. |
| Confinement.HomeIsLongest | src/root.rs:320-330 | The home of a path is the longest home it lies under. |
| Confinement.ConfinementOf | src/root.rs:320-366 | The judgement computed: inside, escaping, unresolvable, or under no home. |
| Confinement.OpenResolved | src/root.rs:259-285 | Opening component by component succeeds if and only if every component is there, the last aside a directory, and none a link. |
| Confinement.OpenUnder | src/root.rs:391-402 | What an open gives for each judgement, on a tree that may have changed since. |
| Confinement.HomeRule | src/root.rs:320-402 | However the tree changed between judgement and open: what is opened for a path under a home is the very place judged, reached through no link, and lies in the home, or a link of root's alone led out of it. |
| Confinement.NothingElseRefused | src/root.rs:320-402 | On a tree left alone an open is refused if and only if the path escapes its home or does not resolve. |
| Confinement.OneLinkSpoils | src/root.rs:214-255 | A resolution is marked as led by another if and only if one of the links it followed is not root's. |
| Baseline.CoversPreorder | src/diff.rs:95-116 | Coverage is ordered: reflexive, transitive, antisymmetric. |
| Baseline.CoversIsSeeing | src/diff.rs:95-116 | One coverage covers another if and only if it sees every entry the other sees, but that a partial collector with nothing unreadable is not held to cover all. |
| Baseline.TrustBetween | src/diff.rs:125-155 | The loop over both headers computes the trust of exactly the collectors whose coverage differs. |
| Baseline.TrustIs | src/diff.rs:125-155 | Additions are trusted if and only if the baseline covered what the current scan saw, removals if and only if the other way round. |
| Baseline.TrustIsSound | src/diff.rs:86-278 | If a scan shows an entry exactly when its collector missed none of the paths it depends on: an asserted addition was not on the host at the baseline with the collector and dependencies it has now; nor is an asserted removal there now with those it had; a change is asserted only where both scans had the same coverage. |
| Baseline.TrustIsAbsence | src/diff.rs:86-278 | Of an id that keeps its collector and dependencies, an asserted addition was absent at the baseline and an asserted removal is absent now. |
| Baseline.MovedDepsAdded | src/diff.rs:86-278 | An id on both hosts that depended, at the baseline only, on a path neither scan could read is asserted added. |
| Baseline.Index | src/diff.rs:176-192 | Entries by id, or an error if and only if two share one. |
| Baseline.DiffWith | src/diff.rs:213-278 | Every id of either scan once, with the delta its two records define. |
| Baseline.Compare | src/diff.rs:201-278 | A comparison is made if and only if the headers compare, a differing coverage can be attributed, and ids are distinct; and then it conserves every id. |
| Baseline.SwapMirrors | src/diff.rs:213-326 | Swapping the scans swaps added with removed, certain or not, and leaves the rest, except for a change between collectors of which one alone saw differently; never where the collector is the same. |
| Baseline.MirrorNeedsOneCollector | src/diff.rs:230-262 | Such a change, asserted one way and uncertain the other. |
| Baseline.ChangedMirrors | src/diff.rs:292-326 | The changed fields are the same seen from either scan. |
| Glob.GlobMatch | src/text.rs:29-52 | The loop with one remembered star computes the specified answer and ends. |
| Glob.GlobSound | src/text.rs:29-52 | A yes means the recursive definition of `*` and `?` matches. |
| Glob.GlobIsMatching | src/text.rs:29-52 | Unless a star stands in both pattern and string the loop is the definition, though it forgets every star but the last. |
| Glob.GlobMissesStars | src/text.rs:29-52 | It is the definition on all strings exactly for patterns with no star, and for all patterns exactly on strings with none. |
| Glob.StarMissesStar | src/text.rs:33-36 | Pattern `*` refuses `*a`. |
| Base64.Base64Decode | src/text.rs:99-118 | The accumulator loop computes the specified decoding, refusals included. |
| Base64.Base64EncodeUnpadded | src/text.rs:121-131 | The loop over chunks computes the specified letters. |
| Base64.Base64RoundTrip | src/text.rs:99-131 | Every sequence of bytes, encoded and its padding restored, decodes to itself (section 4 of RFC 4648). |
| Base64.SpareBitsIgnored | src/text.rs:99-118 | `YQ==` and `YR==` decode to the same byte. |
| Base64.DecodeAccepts | src/text.rs:99-118 | A text decodes if and only if its padding is right for its length and every other character of it is a letter of the alphabet. |
| Base64.BytesDetermineText | src/text.rs:99-118 | Of every text that decodes: its bytes, encoded and padded, are that text if and only if the spare bits of its last letter are zero. |
| Includes.EqLines | src/collect/agents.rs:620-648 | The recursive reader over a shared visited set computes the specified walk and ends on any graph of includes. |
| Includes.WalkSeesReachable | src/collect/agents.rs:620-648 | Each file is read at most once; each read has all its settings out, once and in order, no other has any; all seen is reachable; and all reachable is seen if and only if what was cut for depth was seen otherwise. |
| Includes.ShortChainsSeen | src/collect/agents.rs:620-648 | Where no chain of includes from the first file goes through twelve different files, the files seen are those reachable. |
| Includes.FewFilesUncut | src/collect/agents.rs:620-648 | Where at most ten files can be read nothing is cut, and the files seen are those reachable. |
| Includes.TwelfthUnread | src/collect/agents.rs:620-630 | The last of twelve files in a row is reachable and never seen. |
| Verdicts.WordsKept | src/entry.rs:344-386 | Whatever words a record holds, the verdict read from them is written as those words. |
| Verdicts.VerdictRead | src/entry.rs:344-386 | A verdict comes back from its words if and only if no package name in it begins like another verdict. |
| Verdicts.VerifiedKept | src/entry.rs:331-386 | With no space in a package's name every verdict of a file comes back. |
| Verdicts.NameThatHides | src/entry.rs:358-386 | A modified package named like a guard reads as fit to be quiet. |
| Rows.TargetJudged | src/enrich.rs:785-921 | After both passes a separate target is quiet if and only if it is packaged and intact, reproduced or a packaged directory by the answers and through its link, or absent behind a guard. |
| Rows.HiddenOnlyIfGood | src/render.rs:49-116 | An entry with no earlier verdict on its separate target, of a kind the general rule judges, is hidden only if that target is so, or an empty-file note stands; and a missing answer never hides it. |
| Rows.LookedVerdict | src/enrich.rs:980-1038 | The first pass writes a verdict for an absent target behind a guard, and for nothing else. |
| Rows.SeparateIsGood | src/enrich.rs:886-918 | The verdict the second pass leaves on a target is fit to be quiet exactly when the answers make it so, through the words it is stored in. |
| Rows.RuleReadsNothingElse | src/render.rs:49-116 | Rows that differ only in enablement, the caveat about it and notes the rule does not read are hidden or shown alike. |
| Enrichment.Entry.ApplyTarget | src/enrich.rs:980-1038 | The pass over a mutable entry leaves what the specified pass gives. |
| Enrichment.Entry.ThroughLink | src/enrich.rs:785-812 | The verdict of the file a link leads to, and the note of it, unless the link itself was changed or its end has no answer. |
| Enrichment.Entry.TakeVerdict | src/enrich.rs:821-885 | The entry's own verdict and the flag it raises, only where there is an answer for its subject. |
| Enrichment.Entry.JudgeTarget | src/enrich.rs:886-918 | The verdict on a separate target, or that there was no answer. |
| Enrichment.Entry.ApplyProvenance | src/enrich.rs:821-921 | The whole second pass on a mutable entry. |
| Bus.AgreedBy | src/dbus.rs:52-67 | The system manager's word where it may speak and is heard; else the one state all heard agree on, and nothing where two disagree. |
| Bus.Apply | src/dbus.rs:324-412 | Every entry in place as specified, those no manager knows untouched. |
| Bus.AppliedTells | src/dbus.rs:324-412 | An answer touches enablement, the caveat about it and a fixed set of notes, and nothing else. |
| Bus.NoAnswerHides | src/dbus.rs:324-412 | Whatever any manager answers, a row is hidden or shown as it was. |
| Bus.UsersDoNotSpeak | src/dbus.rs:324-412 | Answers that differ only in what user managers say give a system unit the same enablement, flags and notes, but for the list of who answered; an instance of a template too, unless its own path is listed on one side only. |
| Bus.InstanceBlocked | src/dbus.rs:335-342 | A user manager listing an instance's own path takes the template's answer away. |
| Merging.Merge | src/dbus.rs:269-274 | Another manager's answers folded in path by path, both kept where they cover one path. |
| Merging.QueryUsers | src/dbus.rs:174-190 | The loop leaves in the slot all the answers of the buses asked before the budget is spent, merged, and no other. |
| Merging.SlotIsAnswers | src/dbus.rs:148-190 | However the steps of the asking and the waiting thread interleave, and whenever the deadline passes: never both hold the lock, and what is taken is all the answers of the buses asked until then, merged, and no other. |
| Merging.TakerGetsAway | src/dbus.rs:148-167 | From any point of any run, the asking thread standing still but for an addition it has begun, the waiting thread gets away in at most three steps. |
| Merging.MergeAnyOrder | src/dbus.rs:174-190 | Answers of different managers merge to one result in whatever order they come. |
| Framing.FrameInjective | src/entry.rs:512-519 | Two lists of parts with one hash input are one list, so ordinary and declared ids never share an input. |
| Dedup.DedupIds | src/entry.rs:524-545 | The pass in place ends and computes the specified renaming. |
| Dedup.DedupLeavesDistinct | src/entry.rs:521-545 | Ids are pairwise distinct and in order; an entry keeps name and id if and only if none before it has come to hold that id; any other has a suffix and the id made of it. |
| Dedup.DedupTwice | src/entry.rs:524-545 | A second pass changes nothing. |
| Dedup.FirstHolderRenamed | src/entry.rs:524-545 | Of an entry, its like and one named as the second will be, the third, first holder of its id, is renamed, whatever path the first two are keyed on: `x`, `x` and `x#2`. |
| Dedup.FirstHoldersKept | src/entry.rs:524-545 | Where no entry's name, suffixed, has another's id: an entry keeps name and id if and only if no entry before it has its id. |
| Dedup.ClashIsName | src/entry.rs:512-545 | Of an entry keyed on any path that is so if and only if the path is the source the other reports, of the same kind, and its name is the other's with `#` and a number from 2 on; keyed on another path it never is. |
| Dedup.DeclaredApart | src/entry.rs:505-519 | No suffix comes to the id of an entry that another declares. |
| Dedup.DisplacedIffClash | src/entry.rs:524-545 | An entry that is first to hold its id is renamed after some number of copies of another entry if and only if that other's name, suffixed, has its id. |
| ShellWords.Shellify | src/collect/cloudinit.rs:234-243 | The loop writes each word between quotes, its quotes taken out of them and escaped. |
| ShellWords.ShellifyReadsBack | src/collect/cloudinit.rs:234-243 | Read by the quoting rules of sections 2.2.1 and 2.2.2 of POSIX.1-2017 (XCU), the line is exactly the list of words, empty ones and ones with quotes, blanks and newlines included. |
| CronNames.NormaliseWs | src/collect/cron.rs:774-783 | The loop joins the fields of a schedule by one space each. |
| CronNames.NameIsTheJob | src/collect/cron.rs:762-772 | Two jobs have one base name if and only if their schedules have the same fields, however spaced, and their commands are the same. |
| CronNames.UniqueNames | src/collect/cron.rs:785-792 | The counters give each repetition of a name its number. |
| CronNames.NamesDistinct | src/collect/cron.rs:785-792 | No two lines of one crontab have one name, identical lines included. |
| CronNames.NamesAnyOrder | src/collect/cron.rs:785-792 | As a set the names do not depend on the order of the lines. |
| CronNames.LineAdded | src/collect/cron.rs:785-792 | A line put in anywhere adds one name and changes none. |
| CronNames.CrontabNames | src/collect/cron.rs:762-792 | The names of a crontab's jobs are distinct, and as a set the same under any order of jobs and any spacing of schedule fields. |
| Crontab.TakeFields | src/collect/cron.rs:843-864 | The loops compute it. |
| Crontab.TakenFields | src/collect/cron.rs:843-864 | So many fields can be taken if and only if there are as many, and they are the first ones, with what is between them. |
| Crontab.SplitJob | src/collect/cron.rs:650-670 | The split computed. |
| Crontab.SplitIs | src/collect/cron.rs:650-670 | A line is a job if and only if it has a field more than its schedule and user take and no `@` but a shortcut's; its fields are those of the schedule, the user and the command, and the command is the end of the line as it stands. |
| Crontab.NameLines | src/collect/cron.rs:415-476 | The loop over lines names just those that are neither blank, comment nor assignment, each by its job, or as a malformed line by its text, with a number for each repetition. |
| Crontab.LinesAnyOrder | src/collect/cron.rs:415-476 | The names of a crontab's lines are pairwise distinct, malformed lines included, and as a set the same under any order of the lines. |
| Crontab.IgnoredLine | src/collect/cron.rs:425-432 | A blank line, a comment or an assignment put in anywhere changes no name. |
| Crontab.SpacingIsNothing | src/collect/cron.rs:762-783 | Lines with the same fields, whatever white space is around and between them, are passed over alike, as blanks, comments and assignments are, and split alike; jobs of the same command among them are the same job and have one name. |

## Left out

- YamlScanner.Tokenise: marks and messages of errors are dropped, a failure is only a failure.
- YamlLoad.Parse: a text is scanned to its end before it is parsed, where the program parses as it scans; the specification of the parser allows tokens that break off, so the two differ only in which of two errors comes first.
- LiteralText.EveryTextIsBlock: texts with other breaks than line feeds, or a last line without one, are read as the source reads them; that they can be written so is not stated.
- YamlBuilder.ScalarItem: the construction of a scalar (integers, floats, timestamps, binary) is a parameter that never grows the text and gives no collection.
- YamlBudget.TextFits: characters are counted, of which a file has no more than bytes; for a text with a `&`, whose copies are charged too, there is no bound by characters.
- Baseline.TrustIsSound: an entry whose collector or dependencies differ between the two hosts counts as another entry, since it may have been there and unseen (`Baseline.MovedDepsAdded`).
- Baseline.DiffWith: the order of the output is not stated.
- Resolution.Resolve: the tree does not change during one resolution; permissions, mount points and a trailing `/.` are not modelled.
- Includes.EqLines: a file is its list of name and value pairs; cutting lines out of bytes, and what an include pattern expands to, are parameters. `monit_read` and `collectd_read` walk the same way and are not repeated.
- Merging.SlotIsAnswers: a panic of the asking thread while it holds the lock is not a step of the model, and time is only that the deadline may pass at any step.
- Bus.Apply: `canonical`, which renames paths before answers are used, is not modelled; lists of managers are spelled by a parameter.
- Rows.HiddenOnlyIfGood: package names are taken to hold no space, without which it is false (`Verdicts.NameThatHides`); name service modules, plugins, package sources and inittab lines have rules of their own and are excluded.
- Dedup.DedupIds: counters are unbounded where the program has 32 bits, and the hash is injective; so too for CronNames.UniqueNames.
- Crontab.NameLines: a crontab is its list of lines; what is noted of a job besides its name (user, target, environment, standard input) is not modelled.
- The node counter saturates in the program and is unbounded here; a count past the budget is an error in both.
- Paths and texts are sequences of characters, without an encoding; bytes that are no text are not modelled outside base64 and percent escapes.
- `encoded_run`, `path_components`, the recursion of `programs` and `unwrap`, and what collectors other than those named parse.
- `query.rs` (search terms), `tui.rs` (key decoding, the cursor and its window), `incron_line`, `busybox_tokens`, `split_stdin`.
- The winner and superseded logic of cloud-init's commands, and `Gate::apply`.
- Input and output: opening and reading files, the bus itself, threads, rendering of tables, JSON and HTML, package databases, signatures and digests.
