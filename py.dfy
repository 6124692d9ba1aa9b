/** The Python notions the model needs: `None`, truthiness, `str()` of an
    optional value, and the exceptions the modelled code can raise. */
module Py {

  datatype Option<+T> = None | Some(value: T)

  /** A computation that returns a value or raises. */
  datatype Result<+T> = Ok(value: T) | Raised(error: Exception)

  /** What the run distinguishes when it aborts. */
  datatype Exception =
    | IndexError                      // `parts[k]` past the end of a split
    | KeyError                        // `respon['handle']` missing
    | AttributeError                  // a method called on `None` or on a list
    | TypeError                       // `len(None)`
    | NameError(name: string)         // a name that is never bound
    | UnboundLocalError(name: string) // a local read before its first assignment
    | CountError(kind: string, found: int)   // `ValueError`: wrong number of sections
    | HintAmbiguous(kind: string, found: int) // `ValueError`: a hint with several sections
    | PidClash(kind: string)          // `ValueError`: a hint disagrees with the document
    | HTTPError(status: int)          // `raise_for_status()`
    | UnreadableRecord                // the fetched registry record has no DataObject list

  /** Python's truthiness of an optional string (`None` and `''` are false). */
  predicate Given(o: Option<string>) {
    o.Some? && o.value != ""
  }

  /** `str(x)` of an optional string: `None` prints as `'None'`. */
  function PyStr(o: Option<string>): string {
    match o
    case Some(s) => s
    case None => "None"
  }
}
