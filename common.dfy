/** Values shared by every layer: identifiers, clock readings, the exceptions the
    services raise, and the usual Option/Result/Outcome wrappers. */
module Common {

  /** A template id (a UUID in the service); only equality matters. */
  type Id = nat

  /** A wall-clock reading; only the order of readings matters. */
  type Timestamp = int

  /** The exceptions raised across the core, one constructor per Python exception class. */
  datatype Error =
    | InvalidTemplateValue          // domain validation failed
    | TemplateDoesNotExist          // repository lookup found no template with that id
    | IntegrityError                // two rows with one primary key reached the table
    | NotImplemented                // NotImplementedError: the bus has no handler for the type
    | KeyError                      // a dict lookup failed
    | AttributeError                // an attribute does not exist (yet)
    | RuntimeError                  // the session guard of a unit of work
    | TypeError                     // int() applied to something that is not a number
    | ValueError(message: string)   // raised by the pagination DTO with its message
    | HandlerFailure(name: string)  // any other exception a handler raises
    | OutOfFuel                     // the model's step budget ran out (see README)

  datatype Option<+T> = None | Some(value: T)

  datatype Result<+T> = Ok(value: T) | Err(error: Error) {
    /** The same success or failure, forgetting the value. */
    function ToOutcome(): Outcome {
      match this
      case Ok(_) => Pass
      case Err(e) => Fail(e)
    }
  }

  /** The result of an operation that returns nothing or raises. */
  datatype Outcome = Pass | Fail(error: Error) {
    /** The exception that escapes, if any. */
    function Raised(): Option<Error> {
      match this
      case Pass => None
      case Fail(e) => Some(e)
    }
  }
}
