/**
 * The network service: the status-code table and the two request handlers,
 * one per transport (URLSession and Alamofire).  The transports themselves
 * are not modelled; each handler receives what its transport hands to its
 * callback and returns what it passes to `completion`:
 *   None             -- completion is never called
 *   Some(None)       -- completion called with nil
 *   Some(Some(s))    -- completion called with the status s
 */
module NetworkService {
  import opened Wrappers
  import opened ResponseStatus

  type Bytes = seq<bv8>

  // ---------------------------------------------------------------------
  // Status-code classification
  // ---------------------------------------------------------------------

  const Success := "Succès"
  const Redirection := "Redirection"
  const InvalidRequest := "Requête invalide"
  const AuthenticationRequired := "Identification requise"
  const Forbidden := "Accès interdit"
  const NotFound := "Aucun résultat (Not found)"
  const ClientError := "Erreur"
  const ServerError := "Erreur serveur"
  const UnknownStatus := "Statut inconnu"

  /** The nine labels the table can produce. */
  const StatusLabels: seq<string> := [Success, Redirection, InvalidRequest, AuthenticationRequired,
                                      Forbidden, NotFound, ClientError, ServerError, UnknownStatus]

  /**
   * The `switch statusCode` table: arms tried in order, first match wins,
   * every other integer falls to the default arm.
   */
  function Classify(code: int): (category: string)
    ensures category in StatusLabels
  {
    if 200 <= code <= 299 then Success
    else if 300 <= code <= 399 then Redirection
    else if code == 400 then InvalidRequest
    else if code == 401 then AuthenticationRequired
    else if code == 403 then Forbidden
    else if code == 404 then NotFound
    else if code == 402 || 405 <= code <= 499 then ClientError
    else if 500 <= code <= 599 then ServerError
    else UnknownStatus
  }

  /** The nine labels are pairwise different strings. */
  lemma StatusLabelsDistinct()
    ensures forall i, j :: 0 <= i < j < |StatusLabels| ==> StatusLabels[i] != StatusLabels[j]
  {
  }

  /**
   * Each label is produced by exactly the codes of its arm, so every integer
   * gets exactly one label, and the four special client codes never get
   * the generic "Erreur".
   */
  lemma ClassifyExactly(code: int)
    ensures Classify(code) == Success <==> 200 <= code <= 299
    ensures Classify(code) == Redirection <==> 300 <= code <= 399
    ensures Classify(code) == InvalidRequest <==> code == 400
    ensures Classify(code) == AuthenticationRequired <==> code == 401
    ensures Classify(code) == Forbidden <==> code == 403
    ensures Classify(code) == NotFound <==> code == 404
    ensures Classify(code) == ClientError <==> code == 402 || 405 <= code <= 499
    ensures Classify(code) == ServerError <==> 500 <= code <= 599
    ensures Classify(code) == UnknownStatus <==> code < 200 || code > 599
  {
    StatusLabelsDistinct();
  }

  /** The status class of section 15 of RFC 9110: the hundreds digit of a code in 100..599. */
  function StatusClass(code: int): (c: Option<int>)
    ensures c.Some? <==> 100 <= code <= 599
    ensures c.Some? ==> 1 <= c.value <= 5 && 100 * c.value <= code < 100 * c.value + 100
  {
    if 100 <= code <= 599 then Some(code / 100) else None
  }

  /**
   * An independent statement of the table by status class: 1xx
   * (informational) and anything outside 100..599 is unknown, 2xx is
   * success, 3xx redirection, 5xx server error, and 4xx splits into the
   * four named codes and the generic client error.
   */
  function LabelByClass(code: int): (category: string)
  {
    match StatusClass(code)
    case None => UnknownStatus
    case Some(1) => UnknownStatus
    case Some(2) => Success
    case Some(3) => Redirection
    case Some(4) =>
      (match code
       case 400 => InvalidRequest
       case 401 => AuthenticationRequired
       case 403 => Forbidden
       case 404 => NotFound
       case _ => ClientError)
    case Some(_) => ServerError
  }

  /** The ordered switch and the class-based reading agree on every integer. */
  lemma ClassifyFollowsStatusClasses(code: int)
    ensures Classify(code) == LabelByClass(code)
  {
  }

  // ---------------------------------------------------------------------
  // What the transports hand to the callbacks
  // ---------------------------------------------------------------------

  datatype HTTPURLResponse = HTTPURLResponse(statusCode: int)

  /** A `URLResponse`: an HTTP one, or another kind (for instance for a file URL). */
  datatype URLResponse = HTTP(http: HTTPURLResponse) | NonHTTP

  /** A transport error; the handlers only print it, so its contents are not modelled. */
  datatype TransportError = TransportError

  /** The three arguments of the `dataTask` callback: data, response, error. */
  datatype DataTaskCallback = DataTaskCallback(
    data: Option<Bytes>,
    response: Option<URLResponse>,
    error: Option<TransportError>)

  /** `response.result` of Alamofire's untyped `.response`: the data, itself optional, or an error. */
  datatype AFResult = AFSuccess(data: Option<Bytes>) | AFFailure(error: TransportError)

  /** Alamofire's `AFDataResponse<Data?>`: the HTTP response, if any, and the result. */
  datatype AFDataResponse = AFDataResponse(response: Option<HTTPURLResponse>, result: AFResult) {
    /** `response.value`: the success value, which is itself a `Data?`. */
    function Value(): (v: Option<Option<Bytes>>)
      ensures v.Some? <==> result.AFSuccess?
      ensures v.Some? ==> v.value == result.data
    {
      match result
      case AFSuccess(d) => Some(d)
      case AFFailure(_) => None
    }
  }

  /** A status whose code and message are both present or both absent, the message being the code's label. */
  predicate Classified(s: HTTPResponseStatus)
  {
    (s.responseCode.Some? <==> s.responseMessage.Some?) &&
    (s.responseCode.Some? ==> s.responseMessage.value == Classify(s.responseCode.value))
  }

  // ---------------------------------------------------------------------
  // URLSession handler
  // ---------------------------------------------------------------------

  /** What the URLSession handler delivers, as a function of its callback's arguments. */
  function URLSessionCompletion(cb: DataTaskCallback): (r: Option<Option<HTTPResponseStatus>>)
    ensures r.None? <==> cb.error.Some?
    ensures r.Some? ==> r.value.Some?
    ensures r.Some? ==> Classified(r.value.value)
    ensures r.Some? ==> (r.value.value.responseCode.Some? <==> cb.response.Some? && cb.response.value.HTTP?)
    ensures r.Some? && cb.response.Some? && cb.response.value.HTTP? ==>
              r.value.value.responseCode == Some(cb.response.value.http.statusCode)
    ensures r.Some? ==> r.value.value.availableData == cb.data.Some?
  {
    if cb.error.Some? then None
    else
      var code := if cb.response.Some? && cb.response.value.HTTP?
                  then Some(cb.response.value.http.statusCode) else None;
      var message := if code.Some? then Some(Classify(code.value)) else None;
      Some(Some(HTTPResponseStatus(code, message, cb.data.Some?)))
  }

  /** The URLSession handler never calls completion with nil. */
  lemma URLSessionNeverDeliversNil(cb: DataTaskCallback)
    ensures URLSessionCompletion(cb) != Some(None)
  {
  }

  /** `HTTPRequestURLSession`'s `dataTask` callback body, building the status field by field. */
  method HTTPRequestURLSession(cb: DataTaskCallback) returns (completion: Option<Option<HTTPResponseStatus>>)
    ensures completion == URLSessionCompletion(cb)
  {
    if cb.error.Some? {
      // the error is printed and completion is not called
      return None;
    }

    var responseStatus := Init();

    if cb.response.Some? && cb.response.value.HTTP? {
      var httpResponse := cb.response.value.http;
      responseStatus := responseStatus.(responseCode := Some(httpResponse.statusCode));
      var code := httpResponse.statusCode;
      if 200 <= code <= 299 {
        responseStatus := responseStatus.(responseMessage := Some("Succès"));
      } else if 300 <= code <= 399 {
        responseStatus := responseStatus.(responseMessage := Some("Redirection"));
      } else if code == 400 {
        responseStatus := responseStatus.(responseMessage := Some("Requête invalide"));
      } else if code == 401 {
        responseStatus := responseStatus.(responseMessage := Some("Identification requise"));
      } else if code == 403 {
        responseStatus := responseStatus.(responseMessage := Some("Accès interdit"));
      } else if code == 404 {
        responseStatus := responseStatus.(responseMessage := Some("Aucun résultat (Not found)"));
      } else if code == 402 || 405 <= code <= 499 {
        responseStatus := responseStatus.(responseMessage := Some("Erreur"));
      } else if 500 <= code <= 599 {
        responseStatus := responseStatus.(responseMessage := Some("Erreur serveur"));
      } else {
        responseStatus := responseStatus.(responseMessage := Some("Statut inconnu"));
      }
    }

    if cb.data.Some? {
      responseStatus := responseStatus.(availableData := true);
    } else {
      responseStatus := responseStatus.(availableData := false);
    }

    completion := Some(Some(responseStatus));
  }

  // ---------------------------------------------------------------------
  // Alamofire handler
  // ---------------------------------------------------------------------

  /**
   * What the Alamofire handler delivers, as written: `if let data =
   * response.value` unwraps only the outer optional, so on every success
   * `availableData` is true, whether or not data arrived.
   */
  function AlamofireCompletion(resp: AFDataResponse): (r: Option<Option<HTTPResponseStatus>>)
    ensures r.None? <==> resp.result.AFSuccess? && resp.response.None?
    ensures r.Some? ==> r.value.Some?
    ensures r.Some? ==> Classified(r.value.value)
    ensures resp.result.AFFailure? ==> r == Some(Some(Init()))
    ensures resp.result.AFSuccess? && resp.response.Some? ==>
              r.value.value.responseCode == Some(resp.response.value.statusCode) &&
              r.value.value.availableData == resp.Value().Some?
  {
    match resp.result
    case AFFailure(_) => Some(Some(Init()))
    case AFSuccess(_) =>
      if resp.response.None? then None
      else
        var code := resp.response.value.statusCode;
        Some(Some(HTTPResponseStatus(Some(code), Some(Classify(code)), resp.Value().Some?)))
  }

  /** `HTTPRequestAlamofire`'s response closure body, building the status field by field. */
  method HTTPRequestAlamofire(resp: AFDataResponse) returns (completion: Option<Option<HTTPResponseStatus>>)
    ensures completion == AlamofireCompletion(resp)
  {
    var responseStatus := Init();

    match resp.result {
      case AFSuccess(_) =>
        if resp.response.None? {
          // "ERREUR" is printed and completion is not called
          return None;
        }
        var httpResponse := resp.response.value;
        responseStatus := responseStatus.(responseCode := Some(httpResponse.statusCode));
        var code := httpResponse.statusCode;
        if 200 <= code <= 299 {
          responseStatus := responseStatus.(responseMessage := Some("Succès"));
        } else if 300 <= code <= 399 {
          responseStatus := responseStatus.(responseMessage := Some("Redirection"));
        } else if code == 400 {
          responseStatus := responseStatus.(responseMessage := Some("Requête invalide"));
        } else if code == 401 {
          responseStatus := responseStatus.(responseMessage := Some("Identification requise"));
        } else if code == 403 {
          responseStatus := responseStatus.(responseMessage := Some("Accès interdit"));
        } else if code == 404 {
          responseStatus := responseStatus.(responseMessage := Some("Aucun résultat (Not found)"));
        } else if code == 402 || 405 <= code <= 499 {
          responseStatus := responseStatus.(responseMessage := Some("Erreur"));
        } else if 500 <= code <= 599 {
          responseStatus := responseStatus.(responseMessage := Some("Erreur serveur"));
        } else {
          responseStatus := responseStatus.(responseMessage := Some("Statut inconnu"));
        }

        var value := resp.Value();
        if value.Some? {
          responseStatus := responseStatus.(availableData := true);
        } else {
          responseStatus := responseStatus.(availableData := false);
        }
      case AFFailure(error) =>
        // the error code and description are printed; the default record goes on
    }

    completion := Some(Some(responseStatus));
  }

  /**
   * As written, a successful Alamofire response that carried no data still
   * reports data as available (here a 204 with nil data).
   */
  lemma AlamofireReportsDataWithoutData()
    ensures var resp := AFDataResponse(Some(HTTPURLResponse(204)), AFSuccess(None));
            AlamofireCompletion(resp) == Some(Some(HTTPResponseStatus(Some(204), Some(Success), true)))
  {
  }

  /**
   * The handler as evidently intended: `availableData` tells whether the
   * data value itself is non-nil, as in the URLSession handler.
   */
  function AlamofireCompletionIntended(resp: AFDataResponse): (r: Option<Option<HTTPResponseStatus>>)
    ensures r.None? <==> resp.result.AFSuccess? && resp.response.None?
    ensures r.Some? ==> r.value.Some? && Classified(r.value.value)
    ensures resp.result.AFFailure? ==> r == Some(Some(Init()))
    ensures resp.result.AFSuccess? && r.Some? ==>
              r.value.value.availableData == resp.result.data.Some?
    ensures resp.result.AFSuccess? && resp.response.Some? ==>
              r == Some(Some(AlamofireCompletion(resp).value.value.(availableData := resp.result.data.Some?)))
  {
    match resp.result
    case AFFailure(_) => Some(Some(Init()))
    case AFSuccess(data) =>
      if resp.response.None? then None
      else
        var code := resp.response.value.statusCode;
        Some(Some(HTTPResponseStatus(Some(code), Some(Classify(code)), data.Some?)))
  }

  /**
   * The two tables agree: an HTTP response with the same status code gets
   * the same code and the same label from both handlers.
   */
  lemma TablesAgree(code: int, data: Option<Bytes>, afData: Option<Bytes>)
    ensures var u := URLSessionCompletion(DataTaskCallback(data, Some(HTTP(HTTPURLResponse(code))), None));
            var a := AlamofireCompletion(AFDataResponse(Some(HTTPURLResponse(code)), AFSuccess(afData)));
            u.Some? && a.Some? &&
            u.value.value.responseCode == a.value.value.responseCode == Some(code) &&
            u.value.value.responseMessage == a.value.value.responseMessage == Some(Classify(code))
  {
  }

  /**
   * With the intended data check, the two backends deliver the very same
   * status for the same successful HTTP exchange; as written they differ
   * exactly when the data is nil.
   */
  lemma BackendsAgreeAsIntended(code: int, data: Option<Bytes>)
    ensures var u := URLSessionCompletion(DataTaskCallback(data, Some(HTTP(HTTPURLResponse(code))), None));
            var resp := AFDataResponse(Some(HTTPURLResponse(code)), AFSuccess(data));
            u == AlamofireCompletionIntended(resp) &&
            (u == AlamofireCompletion(resp) <==> data.Some?)
  {
  }
}
