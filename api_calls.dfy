/**
 * How a call from a page to the back end ended, as the page's `try`/`catch` sees it.
 */
module ApiCalls {
  import opened Wrappers
  import opened Json

  /** The reply's data, or a failure carrying `err.response?.data`. */
  datatype CallOutcome = Answered(data: JsonValue) | Failed(errorData: Option<JsonValue>)

  /** A reply whose fields can be read: reading a field of a `null` reply throws into the `catch`. */
  predicate Usable(c: CallOutcome) {
    c.Answered? && !c.data.JNull?
  }

  /** `err.response?.data` of the error the `catch` receives. */
  function FailureData(c: CallOutcome): (d: Option<JsonValue>)
    ensures c.Answered? ==> d.None?
  {
    if c.Failed? then c.errorData else None
  }
}
