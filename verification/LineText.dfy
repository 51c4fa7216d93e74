/** What directives and the rest of a line read as. */
module LineText {
  import opened Results
  import opened YamlTokens
  import opened ScannerState
  import F = FlowScalars
  import T = TagText

  function SpacesEnd(b: seq<char>, p: nat): (q: nat)
    ensures p <= q && (p <= |b| ==> q <= |b|)
    decreases |b| - p
  {
    if p < |b| && b[p] == ' ' then SpacesEnd(b, p + 1) else p
  }

  function DigitsEnd(b: seq<char>, p: nat): (q: nat)
    ensures p <= q && (p <= |b| ==> q <= |b|)
    decreases |b| - p
  {
    if p < |b| && Digit(b[p]) then DigitsEnd(b, p + 1) else p
  }

  function CommentEnd(b: seq<char>, p: nat): (q: nat) {
    if CharAt(b, p) == '#' then LineEnd(b, p) else p
  }

  function BreakEnd(b: seq<char>, p: nat): (q: nat) {
    if Break(CharAt(b, p)) then F.AfterBreak(b, p) else p
  }

  /** Past a line with nothing but spaces and a comment left on it. */
  function RestOfLine(b: seq<char>, p: nat): (r: Result<nat>)
    ensures r.Ok? ==> p <= r.value && (p <= |b| ==> r.value <= |b|)
  {
    var q := CommentEnd(b, SpacesEnd(b, p));
    if Breakz(CharAt(b, q)) then Ok(BreakEnd(b, q)) else Err(ScanFault)
  }

  /** The name of an anchor or an alias. */
  function NameAt(b: seq<char>, p: nat): Result<F.Read> {
    var end := T.WordEnd(b, p);
    if p < end <= |b| && (BlankzTab(CharAt(b, end)) || CharAt(b, end) in "?:,]}%@`")
    then Ok(F.Read(b[p..end], end)) else Err(ScanFault)
  }

  datatype ReadDirective = ReadDirective(directive: Directive, next: nat)

  /** `major.minor`, of which only whether the major is one is kept. */
  function VersionAt(b: seq<char>, p: nat): Result<ReadDirective> {
    var start := SpacesEnd(b, p);
    var dot := DigitsEnd(b, start);
    var end := DigitsEnd(b, dot + 1);
    if start < dot <= |b| && CharAt(b, dot) == '.' && dot + 1 < end && Blankz(CharAt(b, end))
    then Ok(ReadDirective(YamlDirective(WithoutZeros(b[start..dot]) == "1"), end))
    else Err(ScanFault)
  }

  function HandleAndPrefix(b: seq<char>, p: nat): Result<ReadDirective> {
    var handle :- T.Handle(b, SpacesEnd(b, p));
    var prefix :- T.Uri(b, SpacesEnd(b, handle.next));
    if CharAt(b, handle.next) == ' ' && prefix.text != "" && Blankz(CharAt(b, prefix.next))
    then Ok(ReadDirective(TagDirective(handle.text, prefix.text), prefix.next))
    else Err(ScanFault)
  }

  /** What a directive says, from past its `%` on. */
  function SaidAt(b: seq<char>, p: nat): Result<ReadDirective> {
    var q := T.WordEnd(b, p);
    if !(p < q <= |b| && Blankz(CharAt(b, q))) then Err(ScanFault)
    else if b[p..q] == "YAML" then VersionAt(b, q)
    else if b[p..q] == "TAG" then HandleAndPrefix(b, q)
    else Ok(ReadDirective(OtherDirective, LineEnd(b, q)))
  }

  function DirectiveAt(b: seq<char>, p: nat): Result<ReadDirective> {
    var said :- SaidAt(b, p + 1);
    var next :- RestOfLine(b, said.next);
    Ok(ReadDirective(said.directive, next))
  }

  lemma {:induction false} SpacesEndIs(b: seq<char>, p: nat, q: nat)
    requires p <= q < |b| && b[q] != ' ' && forall i :: p <= i < q ==> b[i] == ' '
    ensures SpacesEnd(b, p) == q
    decreases q - p
  {
    if p < q {
      SpacesEndIs(b, p + 1, q);
    }
  }

  lemma {:induction false} DigitsEndIs(b: seq<char>, p: nat, q: nat)
    requires p <= q < |b| && !Digit(b[q]) && forall i :: p <= i < q ==> Digit(b[i])
    ensures DigitsEnd(b, p) == q
    decreases q - p
  {
    if p < q {
      DigitsEndIs(b, p + 1, q);
    }
  }
}
