/**
 * The URL test screen: the two input guards of `testURLbutton`, the
 * request it issues, and the label texts its completion handler writes.
 * UIKit itself (outlets, visibility, colours, keyboard) is not modelled;
 * a label is reduced to its optional `text`.
 */
module Controller {
  import opened Wrappers
  import opened Decimal
  import opened ResponseStatus
  import opened NetworkService

  /** What `URL(string:)` yields, reduced to the three properties the guard looks at. */
  datatype URL = URL(isFileURL: bool, host: Option<string>, scheme: Option<string>)

  /** The outcome of the two guards. */
  datatype Validation = EmptyField | InvalidFormat | Dispatch(url: URL)

  const EmptyFieldMessage := "Le champ de l'URL est obligatoire."
  const InvalidFormatMessage := "Le format est invalide."
  const RequestMessage := "Résultats de la requête HTTP"
  const NoResponseMessage := "ERREUR: Pas de réponse."
  const UnknownMessage := "Inconnu"
  const DataSuffix := ". Données disponibles"

  /** A parsed URL the second guard accepts: a file URL, or one with both a host and a scheme. */
  predicate Acceptable(parsed: Option<URL>): (ok: bool)
    ensures ok ==> parsed.Some?
    ensures parsed.Some? && parsed.value.isFileURL ==> ok
    ensures parsed.Some? && !parsed.value.isFileURL ==>
              (ok <==> parsed.value.host.Some? && parsed.value.scheme.Some?)
  {
    parsed.Some? && (parsed.value.isFileURL || (parsed.value.host.Some? && parsed.value.scheme.Some?))
  }

  /** The guard sequence of `testURLbutton`; `parse` stands for `URL(string:)`. */
  function Validate(urlText: Option<string>, parse: string -> Option<URL>): (v: Validation)
    ensures v.EmptyField? <==> urlText == None || urlText == Some("")
    ensures v.InvalidFormat? <==> urlText.Some? && urlText.value != "" && !Acceptable(parse(urlText.value))
    ensures v.Dispatch? <==> urlText.Some? && urlText.value != "" && Acceptable(parse(urlText.value))
    ensures v.Dispatch? ==> parse(urlText.value) == Some(v.url)
  {
    if urlText.None? || urlText.value == "" then EmptyField
    else
      var parsed := parse(urlText.value);
      if !Acceptable(parsed) then InvalidFormat else Dispatch(parsed.value)
  }

  /** The empty-field guard comes first: an empty field is reported whatever the parser would say. */
  lemma EmptyFieldTakesPrecedence(urlText: Option<string>, parse1: string -> Option<URL>, parse2: string -> Option<URL>)
    ensures urlText == None || urlText == Some("") ==>
              Validate(urlText, parse1) == Validate(urlText, parse2) == EmptyField
  {
  }

  /** The text `resultMessage` shows once the guards have run. */
  function ValidationMessage(v: Validation): (text: string)
    ensures v.EmptyField? ==> text == EmptyFieldMessage
    ensures v.InvalidFormat? ==> text == InvalidFormatMessage
    ensures v.Dispatch? ==> text == RequestMessage
  {
    match v
    case EmptyField => EmptyFieldMessage
    case InvalidFormat => InvalidFormatMessage
    case Dispatch(_) => RequestMessage
  }

  /** The three guard outcomes, and a missing response, are told apart by their texts. */
  lemma ValidationMessagesDistinct(v: Validation, w: Validation)
    ensures ValidationMessage(v) == ValidationMessage(w) <==>
              (v.EmptyField? && w.EmptyField?) || (v.InvalidFormat? && w.InvalidFormat?) ||
              (v.Dispatch? && w.Dispatch?)
    ensures ValidationMessage(v) != NoResponseMessage
  {
  }

  /** The text of `responseMessageLabel` for a delivered status. */
  function MessageLabel(s: HTTPResponseStatus): (text: string)
    ensures var shown := s.responseMessage.GetOr(UnknownMessage);
            |shown| <= |text| && text[..|shown|] == shown &&
            (s.availableData ==> EndsWith(text, DataSuffix) && |text| == |shown| + |DataSuffix|) &&
            (!s.availableData ==> text == shown)
  {
    if s.availableData then s.responseMessage.GetOr(UnknownMessage) + DataSuffix
    else s.responseMessage.GetOr(UnknownMessage)
  }

  predicate EndsWith(s: string, suffix: string)
  {
    |suffix| <= |s| && s[|s| - |suffix|..] == suffix
  }

  /**
   * Reading the message label back: whether data was reported, and the
   * message shown (or "Inconnu"), when that message does not itself end
   * with the data suffix.
   */
  lemma MessageLabelDecodes(s: HTTPResponseStatus)
    requires !EndsWith(s.responseMessage.GetOr(UnknownMessage), DataSuffix)
    ensures var text := MessageLabel(s);
            EndsWith(text, DataSuffix) == s.availableData &&
            (if s.availableData then text[..|text| - |DataSuffix|] else text) ==
              s.responseMessage.GetOr(UnknownMessage)
  {
    var m := s.responseMessage.GetOr(UnknownMessage);
    if s.availableData {
      var text := m + DataSuffix;
      assert text[|text| - |DataSuffix|..] == DataSuffix;
      assert text[..|text| - |DataSuffix|] == m;
    }
  }

  /** No label of the table, nor "Inconnu", ends with the data suffix. */
  lemma NoLabelEndsWithDataSuffix(text: string)
    requires text in StatusLabels || text == UnknownMessage
    ensures !EndsWith(text, DataSuffix)
  {
  }

  /**
   * For every status either handler builds, the message label shows the
   * code's category (or "Inconnu" when there is no code) and carries the
   * data suffix exactly when data was reported.
   */
  lemma ClassifiedMessageLabel(s: HTTPResponseStatus)
    requires Classified(s)
    ensures var text := MessageLabel(s);
            var shown := if s.responseCode.Some? then Classify(s.responseCode.value) else UnknownMessage;
            EndsWith(text, DataSuffix) == s.availableData &&
            (if s.availableData then text[..|text| - |DataSuffix|] else text) == shown
  {
    NoLabelEndsWithDataSuffix(s.responseMessage.GetOr(UnknownMessage));
    MessageLabelDecodes(s);
  }

  /** The text of `responseCodeLabel`: the code in decimal, "0" when there is none. */
  function CodeLabel(s: HTTPResponseStatus): (text: string)
    ensures s.responseCode.None? ==> text == "0"
    ensures ParseInt(text) == Some(s.responseCode.GetOr(0))
  {
    IntStringRoundTrip(s.responseCode.GetOr(0));
    IntString(s.responseCode.GetOr(0))
  }

  /** The screen's state that the model follows: the stored status and three label texts. */
  class URLSessionViewController {
    var responseStatus: Option<HTTPResponseStatus>
    var resultMessageText: Option<string>
    var responseMessageText: Option<string>
    var responseCodeText: Option<string>

    /** A freshly loaded screen: no status yet; the labels hold whatever the storyboard gave them. */
    constructor(resultText: Option<string>, messageText: Option<string>, codeText: Option<string>)
      ensures responseStatus == None
      ensures resultMessageText == resultText
      ensures responseMessageText == messageText
      ensures responseCodeText == codeText
    {
      responseStatus := None;
      resultMessageText := resultText;
      responseMessageText := messageText;
      responseCodeText := codeText;
    }

    /** The body of the completion closure passed to the URLSession request. */
    method HandleResponseStatus(status: Option<HTTPResponseStatus>)
      modifies this
      ensures responseStatus == status
      ensures status.None? ==>
                resultMessageText == Some(NoResponseMessage) &&
                responseMessageText == old(responseMessageText) &&
                responseCodeText == old(responseCodeText)
      ensures status.Some? ==>
                resultMessageText == old(resultMessageText) &&
                responseMessageText == Some(MessageLabel(status.value)) &&
                responseCodeText == Some(CodeLabel(status.value))
    {
      responseStatus := status;
      if responseStatus.None? {
        resultMessageText := Some(NoResponseMessage);
        return;
      }
      if responseStatus.value.availableData {
        responseMessageText := Some(responseStatus.value.responseMessage.GetOr(UnknownMessage) + DataSuffix);
      } else {
        responseMessageText := Some(responseStatus.value.responseMessage.GetOr(UnknownMessage));
      }
      responseCodeText := Some(IntString(responseStatus.value.responseCode.GetOr(0)));
    }

    /**
     * `testURLbutton`: run the guards on the field's text, and when both
     * pass issue one URLSession request, whose callback is what `transport`
     * gives for the URL.  Returns the URL requested, if any.  The closure
     * runs synchronously here.
     */
    method TestURLButton(urlText: Option<string>, parse: string -> Option<URL>,
                         transport: URL -> DataTaskCallback)
      returns (request: Option<URL>)
      modifies this
      ensures var v := Validate(urlText, parse);
              request == (if v.Dispatch? then Some(v.url) else None)
      ensures request.None? ==>
                resultMessageText == Some(ValidationMessage(Validate(urlText, parse))) &&
                responseStatus == old(responseStatus) &&
                responseMessageText == old(responseMessageText) &&
                responseCodeText == old(responseCodeText)
      // a transport error: completion never runs, the screen keeps the request text
      ensures request.Some? && transport(request.value).error.Some? ==>
                resultMessageText == Some(RequestMessage) &&
                responseStatus == old(responseStatus) &&
                responseMessageText == old(responseMessageText) &&
                responseCodeText == old(responseCodeText)
      // otherwise the status arrives; "ERREUR: Pas de réponse." is never shown
      ensures request.Some? && transport(request.value).error.None? ==>
                URLSessionCompletion(transport(request.value)) == Some(responseStatus) &&
                responseStatus.Some? &&
                resultMessageText == Some(RequestMessage) &&
                responseMessageText == Some(MessageLabel(responseStatus.value)) &&
                responseCodeText == Some(CodeLabel(responseStatus.value))
    {
      // empty field
      if urlText.None? || urlText.value == "" {
        resultMessageText := Some(EmptyFieldMessage);
        return None;
      }

      // invalid URL
      var parsed := parse(urlText.value);
      if !(parsed.Some? && (parsed.value.isFileURL || (parsed.value.host.Some? && parsed.value.scheme.Some?))) {
        resultMessageText := Some(InvalidFormatMessage);
        return None;
      }

      var url := parsed.value;
      resultMessageText := Some(RequestMessage);
      request := Some(url);

      var completion := HTTPRequestURLSession(transport(url));
      if completion.Some? {
        HandleResponseStatus(completion.value);
      }
    }
  }
}
