/** Outcomes shared by every component: an optional value, and a value or the
    class of error that stopped it. Error wording is not modelled. */
module Results {

  datatype Option<+T> = None | Some(value: T)

  /** Why a run stopped. Only the class of an error is kept; the ones that the
      proofs show unreachable have a class of their own. */
  datatype Fault =
    | ScanFault          // the scanner refused the text
    | NoMoreTokens       // a token was taken past the end of the stream
    | SyntaxFault        // the tokens do not fit the grammar
    | EmptyStackFault    // the parser popped a state from an empty stack
    | UnbalancedFault    // a collection ended that was never opened
    | DanglingKeyFault   // a mapping ended after a key
    | AnchorFault        // an anchor defined twice, or an alias to none
    | DepthFault         // nested deeper than the bound
    | BudgetFault        // more nodes than the budget
    | ValueFault         // a node SafeLoader cannot construct
    | UnreachableFault   // a branch the source marks as unreachable
    | DocumentFault      // a second document

  datatype Result<+T> = Ok(value: T) | Err(fault: Fault) {
    predicate IsFailure() {
      Err?
    }

    function PropagateFailure<U>(): Result<U>
      requires Err?
    {
      Err(fault)
    }

    function Extract(): T
      requires Ok?
    {
      value
    }
  }
}
