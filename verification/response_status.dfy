/** The `HTTPResponseStatus` record handed from the network service to the screen. */
module ResponseStatus {
  import opened Wrappers

  /**
   * A Swift struct, so a value: callers build it field by field on a local
   * copy.  The code and the message are optional; `availableData` is a
   * plain Bool and so always has a value.
   */
  datatype HTTPResponseStatus = HTTPResponseStatus(
    responseCode: Option<int>,
    responseMessage: Option<string>,
    availableData: bool)

  /** `init()`: no code, no message, no data. */
  function Init(): (s: HTTPResponseStatus)
    ensures s.responseCode == None
    ensures s.responseMessage == None
    ensures s.availableData == false
  {
    HTTPResponseStatus(None, None, false)
  }
}
