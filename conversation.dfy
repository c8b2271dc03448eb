/** Conversation turns, the per-user history list, and the exceptions
    that the pipeline can raise. */
module Conversation {

  datatype Role = User | Assistant

  /** One `{"role": ..., "content": ...}` entry of a history list. */
  datatype Turn = Turn(role: Role, content: string)

  /** A Python history list: shared by reference between the router's
      store and the translator functions, and only ever appended to. */
  class History {
    var turns: seq<Turn>

    /** `[]` */
    constructor ()
      ensures turns == []
    {
      turns := [];
    }

    /** `history.append(t)` */
    method Append(t: Turn)
      modifies this
      ensures turns == old(turns) + [t]
    {
      turns := turns + [t];
    }
  }

  /** The exceptions a request can end in.  `External` stands for every
      failure of a collaborator the model does not see into: transport
      errors and timeouts, a non-success status, a response body without
      the expected JSON path, or an archive's own exception.  The others
      are raised by the code that is modelled. */
  datatype Error =
    | External(message: string)
    | UnexpectedClassification(result: string)
    | InvalidQuery(dialect: string, query: string)
    | NoFirstLine
    | NameNotDefined(name: string)

  /** `str(e)` for each exception. */
  function Message(e: Error): string {
    match e
    case External(m) => m
    case UnexpectedClassification(r) => "Unexpected classification: " + r
    case InvalidQuery(d, q) => "Invalid " + d + " from Claude: " + q
    case NoFirstLine => "list index out of range"
    case NameNotDefined(n) => "name '" + n + "' is not defined"
  }

  /** A value or the exception that was raised instead. */
  datatype Result<T> = Ok(value: T) | Err(error: Error)
}
