/** The scanner's tokens. */
module YamlTokens {
  import opened Results

  datatype Directive =
    | YamlDirective(majorIsOne: bool)
    | TagDirective(handle: string, prefix: string)
    | OtherDirective

  datatype Tok =
    | StreamStart
    | StreamEnd
    | DirectiveTok(directive: Directive)
    | DocumentStart
    | DocumentEnd
    | BlockSequenceStart
    | BlockMappingStart
    | BlockEnd
    | FlowSequenceStart
    | FlowMappingStart
    | FlowSequenceEnd
    | FlowMappingEnd
    | Key
    | Value
    | BlockEntry
    | FlowEntry
    | Alias(name: string)
    | Anchor(name: string)
    | Tag(handle: Option<string>, suffix: string)
    | Scalar(value: string, plain: bool)
}
