/** Option and Result, used for Python's None and for raised exceptions. */
module Wrappers {

  datatype Option<+T> = None | Some(value: T) {
    function GetOr(default: T): T {
      match this
      case Some(v) => v
      case None => default
    }
  }

  /** The exceptions the modelled code can raise and does not catch itself. */
  datatype Error =
    | FetchFailed(what: string)        // a remote call failed or answered with an error status
    | KeyMissing(key: string)          // a dict lookup raised KeyError
    | BadValue(what: string)           // a conversion raised ValueError
    | AssertionFailed(what: string)    // an `assert` statement failed
    | IntegrityError(what: string)     // the database refused an insert (unique constraint)
    | MultipleObjectsReturned          // get()/get_or_create() found more than one row
    | TypeFailure(what: string)        // an operator was applied to None

  datatype Result<+R> = Ok(value: R) | Err(error: Error) {
    function ToOption(): Option<R> {
      match this
      case Ok(v) => Some(v)
      case Err(_) => None
    }
  }

  /**
   * What a Python generator produced before it finished: the items it yielded,
   * and the exception that ended it early, if any.
   */
  datatype Stream<+T> = Stream(items: seq<T>, failure: Option<Error>)
}
