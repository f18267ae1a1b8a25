/**
 * The client and the backend together: the backend's response, delivered by
 * the HTTP client, is what the form's submit handler settles on.
 */
module EndToEnd {
  import opened Wrappers
  import opened JsonValues
  import opened JsStrings
  import Enrichment
  import Backend

  /** The HTTP client's default status check: a 2xx response resolves with
      its data, any other response rejects with the data attached;
      `message` is the client's own error text. */
  function Deliver(response: Backend.HttpResponse, message: string): (o: Enrichment.Outcome)
    ensures o.Resolved? <==> 200 <= response.status < 300
    ensures o.Resolved? ==> o.data == response.body
    ensures o.Rejected? ==> o.responseBody == Some(response.body) && o.message == message
  {
    if 200 <= response.status < 300 then Enrichment.Resolved(response.body)
    else Enrichment.Rejected(Some(response.body), message)
  }

  /** The backend's view of a request the form sends: the headers it carries
      and the `companyName` of its body. */
  function Receive(request: Enrichment.ClientRequest): (a: Backend.ApiRequest)
    requires request.body.Obj? && "companyName" in request.body.fields
    requires request.body.fields["companyName"].Str?
    ensures a.lead.companyName == request.body.fields["companyName"].s
    ensures "Authorization" in a.headers && a.headers["Authorization"] == request.authorization
  {
    Backend.ApiRequest(
      map["Authorization" := request.authorization, "Content-Type" := request.contentType],
      Backend.LeadInfo(request.body.fields["companyName"].s))
  }

  /** The upstream service is asked about the trimmed name, whatever token
      the form found in storage. */
  lemma UpstreamAskedForTrimmedName(
    companyName: string, t1: Option<string>, t2: Option<string>,
    apiKey: Option<string>, upstream: Backend.Upstream)
    ensures var x1 := Backend.HandleEnrich(Receive(Enrichment.BuildRequest(companyName, t1)), apiKey, upstream);
      && x1.query["company"] == Trim(companyName)
      && x1 == Backend.HandleEnrich(Receive(Enrichment.BuildRequest(companyName, t2)), apiKey, upstream)
  {
  }

  /** The form shows a record exactly when the upstream service answered
      with a non-empty JSON array or object under a status outside 400-599
      (one `raise_for_status` accepts). */
  lemma RecordShownIff(upstream: Backend.Upstream, message: string)
    ensures var v := Enrichment.Settlement(Deliver(Backend.EnrichLead(upstream), message));
      && (v.info != Null <==>
           && upstream.Answered? && !Backend.RaisesForStatus(upstream.status)
           && upstream.body.Parsed?
           && (upstream.body.data.Arr? || upstream.body.data.Obj?)
           && upstream.body.data != Arr([]) && upstream.body.data != Obj(map[]))
      && (v.info != Null ==> v.info == upstream.body.data)
  {
  }

  /** Every backend failure reaches the form as the backend's `detail`
      string, never as the client's own message or the generic text. */
  lemma BackendDetailShown(upstream: Backend.Upstream, message: string)
    requires !Backend.DeliversData(upstream)
    ensures var v := Enrichment.Settlement(Deliver(Backend.EnrichLead(upstream), message));
      && v.info == Null
      && v.error == Backend.EnrichLead(upstream).body.fields["detail"]
      && v.error.Str?
      && (v.error.s == Backend.FetchFailedDetail
          || v.error.s[..|Backend.InternalErrorPrefix|] == Backend.InternalErrorPrefix)
  {
  }

  /** With the backend as written, an empty upstream answer shows the
      internal-error text; the 404 detail never reaches the form. */
  lemma EmptyDataShownAsInternalError(status: int, data: Json, message: string)
    requires !Backend.RaisesForStatus(status) && !PyTruthy(data)
    ensures Enrichment.Settlement(Deliver(Backend.EnrichLead(Backend.Answered(status, Backend.Parsed(data))), message)).error
      == Str(Backend.InternalErrorPrefix + Backend.PyStr(Backend.NoDataFound))
  {
  }

  /** With the backend as intended, the same answer shows the 404's own
      detail. */
  lemma EmptyDataShownAsNotFound(status: int, data: Json, message: string)
    requires !Backend.RaisesForStatus(status) && !PyTruthy(data)
    ensures Enrichment.Settlement(Deliver(Backend.EnrichLeadIntended(Backend.Answered(status, Backend.Parsed(data))), message)).error
      == Str(Backend.NoDataDetail)
  {
  }
}
