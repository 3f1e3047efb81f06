# HTTPResponseCode: status classification and request handling

A model of the decision logic of the iOS app *HTTPResponseCode*. The app sends a
request to a URL that the user types in. It classifies the HTTP status code into one
of nine French labels and shows the code, the label and whether data came back. The
model covers three parts:

- the `HTTPResponseStatus` record (`ResponseStatus` module);
- the status-code table and the two request handlers, one over URLSession and one over
  Alamofire (`NetworkService` module). Each handler receives what its transport hands
  to its callback. It returns what it passes to `completion`: `None` when completion is
  never called, `Some(None)` for a nil status, and `Some(Some(s))` for a status `s`;
- the input guards of the test screen, the request it issues, and the label texts its
  completion handler writes (`Controller` module).

Both handlers are methods that build the status field by field on a local copy, as the
Swift code does. Each method keeps its own copy of the `switch`, as the source does, and
is proved equal to a specification function built on `Classify`. This is how the model
proves that the two tables agree. `Decimal` renders an `Int` the way Swift's
`String(_:)` does, and reads the result back.

In these places the model follows the code as written:

- The labels are the French strings of the source.
- `availableData` is a nil check on the data, not a check that the data is non-empty.
- The URL guard only checks that `host` and `scheme` are non-nil. It does not check that
  they are non-empty.
- On a transport error, the URLSession handler never calls its completion. The model
  does not turn that into a separate error outcome.

## Model

| member | source | states |
|---|---|---|
| ResponseStatus.Init | HTTPResponseCode/Model/HTTPResponseStatus.swift:10-20 | the default record has no code, no message and `availableData` false |
| NetworkService.Classify | HTTPResponseCode/Network/NetworkService.swift:30-49 | every integer gets one of the nine labels |
| NetworkService.StatusLabelsDistinct | HTTPResponseCode/Network/NetworkService.swift:30-49 | the nine labels are pairwise different |
| NetworkService.ClassifyExactly | HTTPResponseCode/Network/NetworkService.swift:30-49 | each label is produced by exactly the codes of its arm: 200-299 gives "Succès", 300-399 "Redirection", 400/401/403/404 their own labels and never "Erreur", 402 and 405-499 "Erreur", 500-599 "Erreur serveur", below 200 or above 599 "Statut inconnu" |
| NetworkService.StatusClass | HTTPResponseCode/Network/NetworkService.swift:30-49 | the status class of RFC 9110 section 15: defined exactly for 100..599, and it is the hundreds digit |
| NetworkService.ClassifyFollowsStatusClasses | HTTPResponseCode/Network/NetworkService.swift:30-49 | the ordered switch agrees on every integer with a reading by status class (1xx and out-of-range codes are unknown; 4xx splits into four named codes and the generic error) |
| NetworkService.AFDataResponse.Value | HTTPResponseCode/Network/NetworkService.swift:105 | `response.value` is present exactly on success, and it then holds the optional data |
| NetworkService.URLSessionCompletion | HTTPResponseCode/Network/NetworkService.swift:17-62 | completion is skipped exactly on a transport error, and is otherwise called once with a non-nil status. The code and message are both set (HTTP response) or both nil; the message is the code's label; `availableData` is true exactly when the data is non-nil |
| NetworkService.URLSessionNeverDeliversNil | HTTPResponseCode/Network/NetworkService.swift:19-61 | the URLSession handler never calls completion with nil |
| NetworkService.HTTPRequestURLSession | HTTPResponseCode/Network/NetworkService.swift:16-64 | the field-by-field construction, with its own copy of the switch, delivers exactly `URLSessionCompletion` |
| NetworkService.AlamofireCompletion | HTTPResponseCode/Network/NetworkService.swift:67-119 | on failure completion gets the default record. On success without an HTTP response completion is skipped. Otherwise code and message are set from the status code, and `availableData` is whether `response.value` is present |
| NetworkService.HTTPRequestAlamofire | HTTPResponseCode/Network/NetworkService.swift:67-120 | the field-by-field construction, with its own copy of the switch, delivers exactly `AlamofireCompletion` |
| NetworkService.AlamofireReportsDataWithoutData | HTTPResponseCode/Network/NetworkService.swift:105-110 | as written, a 204 success with nil data is delivered with `availableData` true |
| NetworkService.AlamofireCompletionIntended | HTTPResponseCode/Network/NetworkService.swift:105-110 | with the intended data check, `availableData` is true exactly when the data is non-nil. On a success with an HTTP response, the delivered status is the as-written one with only `availableData` replaced. Failure and a missing response behave as written |
| NetworkService.TablesAgree | HTTPResponseCode/Network/NetworkService.swift:30-102 | for every status code both handlers deliver the same code and the same label |
| NetworkService.BackendsAgreeAsIntended | HTTPResponseCode/Network/NetworkService.swift:53-110 | with the intended data check the two handlers deliver identical statuses for the same HTTP exchange; as written they differ exactly when the data is nil |
| Decimal.NatDigits | HTTPResponseCode/Controller/URLSessionViewController.swift:86 | a natural number renders as a non-empty run of digits with no leading zero, and only 0 renders as "0" |
| Decimal.IntString | HTTPResponseCode/Controller/URLSessionViewController.swift:86 | an integer renders as its digits, with a leading '-' exactly when it is negative |
| Decimal.IntStringRoundTrip | HTTPResponseCode/Controller/URLSessionViewController.swift:86 | reading a rendered integer back gives that integer |
| Decimal.IntStringInjective | HTTPResponseCode/Controller/URLSessionViewController.swift:86 | different codes are shown as different texts |
| Controller.Acceptable | HTTPResponseCode/Controller/URLSessionViewController.swift:53 | the URL guard accepts a parsed URL exactly when it is a file URL, or when it has both a host and a scheme; a failed parse is never accepted |
| Controller.Validate | HTTPResponseCode/Controller/URLSessionViewController.swift:44-59 | a nil or empty text is an empty field. A non-empty text that does not parse, or that parses to a non-file URL lacking a host or a scheme, has an invalid format. Only a text passing both guards dispatches, with the parsed URL |
| Controller.EmptyFieldTakesPrecedence | HTTPResponseCode/Controller/URLSessionViewController.swift:44-59 | an empty field is reported whatever the URL parser would say |
| Controller.ValidationMessage | HTTPResponseCode/Controller/URLSessionViewController.swift:45-65 | the result text for each guard outcome |
| Controller.ValidationMessagesDistinct | HTTPResponseCode/Controller/URLSessionViewController.swift:45-75 | the three guard outcomes show different texts, none of them the no-response text |
| Controller.MessageLabel | HTTPResponseCode/Controller/URLSessionViewController.swift:80-84 | the message label starts with the message, or "Inconnu" when it is nil. It is followed by ". Données disponibles" when data is available, and is the message alone otherwise |
| Controller.MessageLabelDecodes | HTTPResponseCode/Controller/URLSessionViewController.swift:80-84 | provided the message (or "Inconnu") does not itself end with ". Données disponibles": the message label ends with ". Données disponibles" exactly when data is available. Stripping the suffix gives the message, or "Inconnu" when the message is nil |
| Controller.NoLabelEndsWithDataSuffix | HTTPResponseCode/Controller/URLSessionViewController.swift:80-84 | neither the nine labels nor "Inconnu" end with the data suffix |
| Controller.ClassifiedMessageLabel | HTTPResponseCode/Controller/URLSessionViewController.swift:80-84 | for any status a handler builds, the message label shows the code's label (or "Inconnu") and has the suffix exactly when data is available |
| Controller.CodeLabel | HTTPResponseCode/Controller/URLSessionViewController.swift:86 | the code label is "0" for a nil code, and reads back as the code (or 0) |
| Controller.URLSessionViewController.constructor | HTTPResponseCode/Controller/URLSessionViewController.swift:17 | a new screen holds no status |
| Controller.URLSessionViewController.HandleResponseStatus | HTTPResponseCode/Controller/URLSessionViewController.swift:69-86 | the status is stored. A nil status sets only the result text to "ERREUR: Pas de réponse.". A status sets the message and code labels and leaves the result text alone |
| Controller.URLSessionViewController.TestURLButton | HTTPResponseCode/Controller/URLSessionViewController.swift:38-89 | a request is issued only when both guards pass, and then exactly one. A rejected input shows its message and changes nothing else. After a transport error the screen keeps "Résultats de la requête HTTP" and its old labels. Otherwise the delivered status is stored and shown, and "ERREUR: Pas de réponse." is never shown |

## Left out

- The transports themselves (`URLSession.shared.dataTask`, `task.resume()`, `AF.request`). Each handler takes what its transport would hand to its callback. The controller takes a function from URL to callback arguments.
- `URL(string:)` parsing and the computation of `isFileURL`, `host` and `scheme` (Foundation). The controller takes the parser as a function parameter, and a URL is reduced to those three properties.
- Asynchrony: escaping closures, `DispatchQueue.main.async`, and the `[weak self]` capture. The completion closure runs synchronously inside `TestURLButton`. A screen deallocated before the response arrives is not modelled. That is the only case in which the no-response branch (URLSessionViewController.swift:74-78) runs after a URLSession request. Its optional-chained assignment then does nothing, so no visible label ever shows "ERREUR: Pas de réponse." after such a request.
- UIKit: outlets, `isHidden`, `resignFirstResponder`, border colours and widths, `dismiss`, and the `UITextFieldDelegate` extension. A label is reduced to its optional text.
- `print` logging and the `NetworkService.shared` singleton. The handlers are module-level methods because the service holds no state.
- Swift's 64-bit `Int`. Status codes are unbounded integers. Nothing in the model overflows, and the table and the decimal rendering are total on all integers.

## Findings

| source | as written | input that shows it | evidently intended | confidence | as-written member | corrected member |
|---|---|---|---|---|---|---|
| HTTPResponseCode/Network/NetworkService.swift:105-110 | `response.value` of Alamofire's untyped `.response` is a `Data??`. `if let` unwraps only the outer level, so it succeeds on every success, and `availableData` is always true (the `else` branch is dead) | a `.success(nil)` result with an HTTP 204 response is delivered with `availableData` true | `availableData` true exactly when data is non-nil, as in the URLSession handler at lines 53-58 | medium; depends on Alamofire 5's `.response` types; not executed | NetworkService.AlamofireReportsDataWithoutData | NetworkService.AlamofireCompletionIntended |
