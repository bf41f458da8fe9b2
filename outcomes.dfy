/** The error vocabulary of the use-case layer (backend/app/app/use_case/exceptions.py)
    and the small failure-carrying datatypes the rest of the model returns. */
module Outcomes {

  datatype Option<+T> = None | Some(value: T)

  /** Every exception the core raises, plus the two foreign ones it lets escape:
      a failing statement (sqlalchemy's DatabaseError) and a missing dictionary key. */
  datatype Error =
    | NoSuchObject(name: string)
    | ObjectAlreadyExists(name: string)
    | DoneWithErrors(objectName: Option<string>)
    | FailedToParseACLRule(rule: string)
    | FailedToParseACLSymbols(symbols: seq<string>)
    | FailedToParseTextPrivileges(privileges: seq<string>)
    | TypeNotImplemented(what: string)
    | DatabaseError
    | KeyError
    | ValueError(message: string)
  {
    /** FailedToParseACLSymbols, FailedToParseTextPrivileges and TypeNotImplemented
        are subclasses of FailedToParseACLRule. */
    predicate IsParseFailure() {
      FailedToParseACLRule? || FailedToParseACLSymbols? || FailedToParseTextPrivileges? || TypeNotImplemented?
    }
  }

  datatype Result<+T> = Ok(value: T) | Err(error: Error) {
    predicate IsFailure() { Err? }

    function PropagateFailure<U>(): Result<U>
      requires Err?
    {
      Err(error)
    }

    function Extract(): T
      requires Ok?
    {
      value
    }
  }

  /** The result of a procedure that returns nothing or raises. */
  datatype Outcome = Done | Raised(error: Error)

  /** Python truthiness of an optional string: None and "" are false. */
  predicate Truthy(s: Option<string>) {
    s.Some? && s.value != ""
  }
}
