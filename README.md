# Lead enrichment: session, submit handler and backend mapping

This project models the three pieces of decision logic in the lead
enrichment application:

- the **submit handler** of the enrichment form (`handleEnrichLead`): it
  validates the trimmed company name, clears the previous result, posts the
  name with the ID token read from local storage, and settles into either a
  record or an error message chosen by a three-level fallback;
- the **authentication provider** (`AuthProvider`, `useAuth`): the signed-in
  user, the initial loading phase, and the ID token it keeps under
  `"idToken"` in local storage;
- the **backend endpoint** (`enrich_lead`, `root`): how the result of the
  call to the upstream enrichment API becomes an HTTP status and body.

The stateful parts are classes whose methods change the same fields the
source changes: `Enrichment.EnrichmentForm` (`loading`, `error`,
`essentialInfo`), `Session.AuthProvider` (`user`, `loading`) and
`Browser.LocalStorage` (the key-value store shared by both). The foreign
calls are replaced by their outcomes, passed in as parameters: the HTTP
client's resolve/reject (`Enrichment.Outcome`), the identity provider's
sign-in and sign-out (`Session.SignInResult`, `Session.Completion`) and the
outbound `requests.get` (`Backend.Upstream`). The backend is a pure function
from that outcome to a response. JSON values are one datatype shared by both
sides, with JavaScript truthiness and `typeof` and Python truthiness
defined on it; `String.prototype.trim` is modelled on ECMAScript white space
and line terminators.

Behaviour of the code that a reader might not expect, which the model keeps
as written:

- The form's format check `!data || typeof data !== 'object'` accepts arrays
  as well as objects; `Enrichment.Accepts` says so.
- `raise_for_status` raises for status 400 to 599 only, not for every
  non-2xx status; `Backend.RaisesForStatus` says so.
- There is no last-submit-wins discard: a second submit is only prevented by
  the disabled button, so `Submit` requires the idle state.
- A stored token and a signed-in user are not kept in step: the
  notification callback sets the user without touching storage
  (`Session.SignedInWithoutToken`).
- Error and record are not exclusive in every state: a blank submit after a
  successful one shows the validation message beside the old record
  (`Enrichment.StaleRecordBesideValidationError`). They are exclusive after
  every request that was actually sent (`Enrichment.Settlement`).
- The `error` state holds whatever the server's `detail` was (a JSON value,
  not necessarily a string), so it is modelled as a `Json` with `Str("")`
  for the empty string.

## Model

| member | source | states |
|---|---|---|
| JsonValues.JsTruthy | app/src/App.jsx:39 | the falsy JSON values in JavaScript (`!data`, and the fallback chain at lines 48-50) are exactly null, false, 0 and "" |
| JsonValues.TypeOf | app/src/App.jsx:39 | `typeof` on a JSON value is "boolean", "number" or "string" for those kinds, and "object" exactly for null, arrays and objects |
| JsonValues.PyTruthy | backend/main.py:58 | the falsy JSON values in Python (`if data:`) are exactly None, False, 0, "", [] and {} |
| JsonValues.Member | app/src/App.jsx:48 | `response?.data?.detail` yields a value exactly when the body is an object holding that key, and then that key's value |
| JsonValues.TruthinessDisagreement | backend/main.py:58 | Python's `if data:` and JavaScript's `!data` disagree exactly on the empty array and the empty object |
| JsStrings.LeadingBlanks | app/src/App.jsx:13 | the count of leading white space stays within the name and stops at a character that is not white space |
| JsStrings.TrailingBlanks | app/src/App.jsx:13 | the count of trailing white space stays within the name and stops at a character that is not white space |
| JsStrings.LeadingBlanksAreBlank | app/src/App.jsx:13 | every character inside the leading count, which is all `trim()` drops at the front, is white space |
| JsStrings.TrailingBlanksAreBlank | app/src/App.jsx:13 | every character inside the trailing count is white space |
| JsStrings.Trim | app/src/App.jsx:26 | `trim()` is the contiguous piece of the name after its leading white space, and neither starts nor ends with white space |
| JsStrings.TrimDropsOnlyBlanksAtBack | app/src/App.jsx:26 | everything of the name after `trim()`'s result is white space, so the result runs up to the last non-blank character |
| JsStrings.TrimEmptyIffBlank | app/src/App.jsx:13-16 | the validation branch is taken exactly when the name consists only of white space (or is empty) |
| JsStrings.TrimIdempotent | app/src/App.jsx:26 | trimming the already trimmed name changes nothing |
| Browser.LocalStorage.GetItem | app/src/App.jsx:23 | `getItem` returns the stored value, or null exactly when the key is absent |
| Browser.LocalStorage.SetItem | app/src/AuthContext.jsx:33 | `setItem` maps the key to the value and leaves every other key alone |
| Browser.LocalStorage.RemoveItem | app/src/AuthContext.jsx:44 | `removeItem` drops the key and leaves every other key alone |
| Session.UseAuth | app/src/AuthContext.jsx:8-13 | `useAuth` returns the provider's value when there is one and otherwise throws exactly "useAuth must be used within an AuthProvider" |
| Session.Gate | app/src/AuthContext.jsx:52-111 | the spinner is shown exactly while loading, and the children exactly when not loading and a user is present |
| Session.AuthProvider.constructor | app/src/AuthContext.jsx:16-18 | a new provider starts with no user and loading |
| Session.AuthProvider.OnAuthStateChanged | app/src/AuthContext.jsx:20-24 | each notification sets the user to the notified one and loading to false, and leaves storage unchanged |
| Session.AuthProvider.Login | app/src/AuthContext.jsx:29-38 | success stores the issued token under "idToken" and sets the user; a popup or token failure rethrows that error with storage and user unchanged; loading is never touched |
| Session.AuthProvider.Logout | app/src/AuthContext.jsx:41-49 | success removes only "idToken" and clears the user; a sign-out failure rethrows with storage and user unchanged; loading is never touched |
| Session.LoginThenLogout | app/src/AuthContext.jsx:29-49 | a successful logout after a successful login leaves the store as before the login minus "idToken", and no user |
| Session.SignedInWithoutToken | app/src/AuthContext.jsx:20-24 | a notified user is shown while storage holds no token |
| Enrichment.AuthorizationHeader | app/src/App.jsx:29 | the header is "Bearer " followed by the stored token, or by "null" when none is stored |
| Enrichment.AbsentTokenLooksLikeNull | app/src/App.jsx:23-29 | no stored token gives the same header as the stored token "null" |
| Enrichment.BuildRequest | app/src/App.jsx:24-34 | the POST goes to the enrich URL with body exactly `{companyName: trim(name)}`, JSON content type, the bearer header and a 10000 ms timeout |
| Enrichment.SentNameIsTrimmed | app/src/App.jsx:26 | a name that passes validation is sent non-empty, without surrounding white space |
| Enrichment.Accepts | app/src/App.jsx:39-41 | the format check lets through exactly arrays and objects |
| Enrichment.FailureText | app/src/App.jsx:47-51 | the error is the truthy `detail`, else the non-empty message, else "Error fetching company data", and is always truthy |
| Enrichment.Settlement | app/src/App.jsx:38-51 | after a sent request exactly one of error and record is shown; the record is the accepted data verbatim; a rejected format gives "Invalid response format"; a rejection gives the fallback text |
| Enrichment.EnrichmentForm.constructor | app/src/App.jsx:8-10 | the form starts idle with no error and no record |
| Enrichment.EnrichmentForm.Submit | app/src/App.jsx:12-34 | callable only when idle (the button's `disabled={loading}`); a blank name sets exactly "Please enter a company name", sends nothing and keeps loading and the record; otherwise loading is set, error and record cleared, and the request built from the trimmed name and the token read now |
| Enrichment.EnrichmentForm.Complete | app/src/App.jsx:36-54 | loading ends false and error and record become the settlement of the outcome; the form invariant is kept |
| Enrichment.StaleRecordBesideValidationError | app/src/App.jsx:13-20 | a blank submit after a successful one shows the validation message and the old record together |
| Backend.UpstreamQuery | backend/main.py:38-48 | the query holds exactly `company` and, when set, `api_key` |
| Backend.RaisesForStatus | backend/main.py:54 | `raise_for_status` raises exactly for a 4xx or 5xx status: never for 2xx, nor for 1xx, 3xx or 600 and above |
| Backend.PyStr | backend/main.py:72 | `str(e)` is the exception's text, and for an HTTPException ends with ": " and its detail |
| Backend.ErrorResponse | backend/main.py:64-72 | an HTTPException leaves the handler as a response with its status and the body `{"detail": <its detail string>}` with no other key |
| Backend.HandleException | backend/main.py:66-72 | a RequestException gives 500 "Error fetching data from API"; any other exception gives 500 "Internal server error: " plus its text |
| Backend.EnrichLead | backend/main.py:31-72 | the status is 200 or 500; 200 exactly when the upstream answered under a status `raise_for_status` accepts (outside 400-599) with truthy JSON, and then the body is that JSON |
| Backend.HandleEnrich | backend/main.py:31-48 | the route calls the upstream URL with a 10-second timeout and the body's name as query, and answers with the mapping of the upstream result |
| Backend.HeadersIgnored | backend/main.py:31-41 | requests that differ only in headers (the Authorization header included) get the same query and response |
| Backend.TruthyDataPassesThrough | backend/main.py:54-60 | truthy JSON under a status outside 400-599 (one `raise_for_status` accepts) is returned unchanged with 200 |
| Backend.RequestFailuresGive500 | backend/main.py:44-68 | connection errors, timeouts, error statuses and request-library decode errors all give 500 "Error fetching data from API" |
| Backend.OtherFailuresGive500 | backend/main.py:70-72 | any other exception gives 500 with "Internal server error: " and its text |
| Backend.EmptyDataBecomes500 | backend/main.py:62-72 | falsy JSON gives 500 with an "Internal server error: " detail naming "404: No data found for the requested company", never 404 |
| Backend.EnrichLeadIntended | backend/main.py:62-72 | with the 404 passed through, falsy JSON gives 404 "No data found for the requested company" and every other result is unchanged |
| Backend.Root | backend/main.py:74-76 | `GET /` returns 200 with exactly the welcome message and status "operational" |
| EndToEnd.Deliver | app/src/App.jsx:24-34 | the HTTP client resolves with the data of a 2xx response and rejects with the body attached otherwise |
| EndToEnd.Receive | backend/main.py:28-32 | the backend reads the `companyName` the form sent and the Authorization header it carried |
| EndToEnd.UpstreamAskedForTrimmedName | app/src/App.jsx:26 | the upstream service is asked about the trimmed name, whatever token the form found |
| EndToEnd.RecordShownIff | app/src/App.jsx:38-43 | the form shows a record exactly when upstream answered under a status outside 400-599 (one `raise_for_status` accepts) with a non-empty JSON array or object, and the record is that value |
| EndToEnd.BackendDetailShown | app/src/App.jsx:45-51 | every backend failure is shown as the backend's detail string, which is the fetch failure text or starts with "Internal server error: " |
| EndToEnd.EmptyDataShownAsInternalError | backend/main.py:62-72 | with the backend as written an empty upstream answer is shown as the internal-error text |
| EndToEnd.EmptyDataShownAsNotFound | backend/main.py:62-64 | with the 404 passed through, the same answer is shown as "No data found for the requested company" |

## Findings

| source | as written | input that shows it | evidently intended | confidence | as-written member | corrected member |
|---|---|---|---|---|---|---|
| backend/main.py:62-72 | the 404 raised for empty data is inside the `try`, so `except Exception` turns it into a 500 "Internal server error: 404: No data found for the requested company" | upstream answers 200 with `{}` | the client receives 404 "No data found for the requested company" | high; not executed | Backend.EmptyDataBecomes500 | Backend.EnrichLeadIntended |

## Left out

- JSX layout, styling, the spinner markup and the rendering of the record (label formatting, lists, the logo's fallback image): stateless presentation.
- The `companyName` input state and its `onChange`: the handler receives the name it reads.
- The identity provider's popup, token issuance, sign-out and the subscribe/unsubscribe mechanics: foreign calls, modelled by their outcomes.
- The HTTP client, `requests`, FastAPI routing and request validation, CORS, dotenv and logging: network and I/O plumbing, modelled by outcome datatypes.
- Timing and interleaving of the awaited calls: each continuation is a separate method call, in any order the caller chooses.
- `localStorage.getItem` throwing (storage access denied): not modelled; the read inside the `try` would send the error to the `catch` with no request sent, while `Submit` always sends one.
- `localStorage.setItem` throwing (quota or private mode): not modelled; the store always accepts the write.
- Firebase's live user object: the user is a value (uid and display name).
- `str()` of exceptions other than the 404 is the text the outcome carries; the 404's text follows Starlette's "<status>: <detail>" format.
- JSON numbers are reals; the difference between integers and floats and JavaScript's number precision are not modelled.
