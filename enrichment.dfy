/**
 * The enrichment form's submit handler: validates the company name, clears
 * the previous result, posts the name with the stored ID token, and settles
 * into either a record or an error message. The HTTP client is a foreign
 * call; the handler's continuation receives its outcome.
 */
module Enrichment {
  import opened Wrappers
  import opened JsonValues
  import opened JsStrings
  import opened Browser

  const EnrichUrl: string := "http://localhost:8000/api/enrich"
  const RequestTimeoutMs: nat := 10000
  const EmptyNameMessage: string := "Please enter a company name"
  const InvalidFormatMessage: string := "Invalid response format"
  const GenericFailureMessage: string := "Error fetching company data"

  /** The POST the handler issues. */
  datatype ClientRequest = ClientRequest(
    url: string,
    body: Json,
    authorization: string,
    contentType: string,
    timeoutMs: nat)

  /** How the awaited POST ends: it resolves with the response data, or it
      rejects with an error whose `response.data` (absent when no response
      arrived, e.g. on a timeout) and `message` ("" when it has none) are given. */
  datatype Outcome =
    | Resolved(data: Json)
    | Rejected(responseBody: Option<Json>, message: string)

  /** The two state fields a settled request leaves behind. */
  datatype View = View(error: Json, info: Json)

  /** The template literal `Bearer ${token}`: a missing token prints as "null". */
  function AuthorizationHeader(token: Option<string>): (h: string)
    ensures |h| >= 7 && h[..7] == "Bearer "
    ensures token.Some? ==> h[7..] == token.value
    ensures token.None? ==> h[7..] == "null"
  {
    "Bearer " + (if token.Some? then token.value else "null")
  }

  /** A request sent without a stored token cannot be told apart from one
      carrying the token "null". */
  lemma AbsentTokenLooksLikeNull()
    ensures AuthorizationHeader(None) == AuthorizationHeader(Some("null"))
  {
  }

  /** The request for a submitted name and the token read at submit time. */
  function BuildRequest(companyName: string, token: Option<string>): (r: ClientRequest)
    ensures r.url == EnrichUrl && r.contentType == "application/json"
    ensures r.timeoutMs == RequestTimeoutMs
    ensures r.body.Obj? && r.body.fields.Keys == {"companyName"}
    ensures r.body.fields["companyName"] == Str(Trim(companyName))
    ensures r.authorization == AuthorizationHeader(token)
  {
    ClientRequest(EnrichUrl, Single("companyName", Str(Trim(companyName))),
                  AuthorizationHeader(token), "application/json", RequestTimeoutMs)
  }

  /** A name that passes validation is sent without surrounding white space
      and is never empty. */
  lemma SentNameIsTrimmed(companyName: string, token: Option<string>)
    requires Trim(companyName) != ""
    ensures var sent := BuildRequest(companyName, token).body.fields["companyName"].s;
      && sent != ""
      && !IsJsWhitespace(sent[0]) && !IsJsWhitespace(sent[|sent| - 1])
      && Trim(sent) == sent
  {
  }

  /** The format check `!data || typeof data !== 'object'` lets through
      exactly the arrays and the objects. */
  function Accepts(data: Json): (ok: bool)
    ensures ok <==> data.Arr? || data.Obj?
  {
    JsTruthy(data) && TypeOf(data) == "object"
  }

  /** The catch block's message: the server's `detail` when truthy, else the
      error's message when non-empty, else a generic text. Never falsy. */
  function FailureText(responseBody: Option<Json>, message: string): (e: Json)
    ensures JsTruthy(e)
    ensures var detail := Member(responseBody, "detail");
      if detail.Some? && JsTruthy(detail.value) then e == detail.value
      else if message != "" then e == Str(message)
      else e == Str(GenericFailureMessage)
  {
    var detail := Member(responseBody, "detail");
    if detail.Some? && JsTruthy(detail.value) then detail.value
    else if message != "" then Str(message)
    else Str(GenericFailureMessage)
  }

  /** The error and record a request leaves once it has settled: exactly one
      of them is shown, a record only for an accepted response, and a
      rejected request always with its chosen failure text. */
  function Settlement(outcome: Outcome): (v: View)
    ensures JsTruthy(v.error) <==> v.info == Null
    ensures v.info != Null <==> outcome.Resolved? && Accepts(outcome.data)
    ensures v.info != Null ==> v.info == outcome.data && v.error == Str("")
    ensures outcome.Resolved? && !Accepts(outcome.data) ==>
      v.error == Str(InvalidFormatMessage)
    ensures outcome.Rejected? ==>
      v.error == FailureText(outcome.responseBody, outcome.message)
  {
    match outcome
    case Resolved(data) =>
      if !Accepts(data) then View(FailureText(None, InvalidFormatMessage), Null)
      else View(Str(""), data)
    case Rejected(body, message) =>
      View(FailureText(body, message), Null)
  }

  /** The form's state: `loading`, `error` and `essentialInfo`. */
  class EnrichmentForm {
    var loading: bool
    var error: Json
    var essentialInfo: Json

    /** While a request is in flight the previous result is cleared; a shown
        record is always an accepted response; an error is "" or truthy. */
    ghost predicate Valid()
      reads this
    {
      && (loading ==> error == Str("") && essentialInfo == Null)
      && (essentialInfo == Null || Accepts(essentialInfo))
      && (error == Str("") || JsTruthy(error))
    }

    constructor ()
      ensures Valid()
      ensures !loading && error == Str("") && essentialInfo == Null
    {
      loading := false;
      error := Str("");
      essentialInfo := Null;
    }

    /** `disabled={loading}`: the button fires the handler only when idle. */
    predicate CanSubmit()
      reads this
    {
      !loading
    }

    /** The synchronous part of `handleEnrichLead`, up to the awaited POST.
        A blank name only sets the validation message and sends nothing;
        otherwise the form enters loading with the old result cleared and
        the request carries the token read from storage now. */
    method Submit(companyName: string, storage: LocalStorage) returns (request: Option<ClientRequest>)
      requires Valid() && CanSubmit()
      modifies this
      ensures Valid()
      ensures Trim(companyName) == "" ==>
        && request == None
        && error == Str(EmptyNameMessage)
        && loading == old(loading) && essentialInfo == old(essentialInfo)
      ensures Trim(companyName) != "" ==>
        && request == Some(BuildRequest(companyName, storage.GetItem(IdTokenKey)))
        && loading && error == Str("") && essentialInfo == Null
    {
      if Trim(companyName) == "" {
        error := Str(EmptyNameMessage);
        return None;
      }
      loading := true;
      error := Str("");
      essentialInfo := Null;
      var token := storage.GetItem(IdTokenKey);
      request := Some(BuildRequest(companyName, token));
    }

    /** The continuation after the awaited POST: the try block, the catch
        block and the finally block. */
    method Complete(outcome: Outcome)
      requires Valid() && loading
      modifies this
      ensures Valid() && !loading
      ensures error == Settlement(outcome).error
      ensures essentialInfo == Settlement(outcome).info
    {
      match outcome {
        case Resolved(data) =>
          if !JsTruthy(data) || TypeOf(data) != "object" {
            error := FailureText(None, InvalidFormatMessage);
          } else {
            essentialInfo := data;
          }
        case Rejected(body, message) =>
          error := FailureText(body, message);
      }
      loading := false;
    }
  }

  /** A validation failure after a successful lookup leaves the old record on
      screen beside the validation message: the two are not exclusive. */
  method StaleRecordBesideValidationError() returns (errorShown: bool, recordShown: bool)
    ensures errorShown && recordShown
  {
    assert LeadingBlanks("Acme") == 0;
    assert Trim("Acme") != "";
    assert LeadingBlanks(" ") == 1 by {
      assert IsJsWhitespace(' ');
      assert " "[1..] == "";
    }
    assert Trim(" ") == "";
    var record := Single("company_name", Str("Acme"));
    var storage := new LocalStorage();
    var form := new EnrichmentForm();
    var _ := form.Submit("Acme", storage);
    form.Complete(Resolved(record));
    assert form.essentialInfo == record;
    var _ := form.Submit(" ", storage);
    errorShown := JsTruthy(form.error);
    recordShown := form.essentialInfo != Null;
  }
}
