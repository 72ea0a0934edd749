/** The `/search` endpoint: validation of the `q` parameter, one call to the
    catalog client, and the choice of status and body. */
module Server {
  import opened Text
  import opened Catalog

  /** A JSON response body: either an error message or the result list. */
  datatype Body = ErrorBody(error: string) | ResultsBody(results: seq<Problem>)

  datatype Response = Response(status: int, body: Body)

  const StatusOK: int := 200
  const StatusBadRequest: int := 400
  const StatusInternalServerError: int := 500

  const MissingQueryMessage: string := "Missing search query"
  const FetchFailedMessage: string := "Failed to fetch problems"

  /** The response for query `q` when the catalog answers as `upstream`:
      400 for an empty query, 500 with a generic message when the client
      fails, 200 with the filtered problems otherwise. */
  function SearchResponse(q: string, upstream: Upstream): Response
  {
    if q == "" then Response(StatusBadRequest, ErrorBody(MissingQueryMessage))
    else match upstream(RequestFor(q))
      case Err(_) => Response(StatusInternalServerError, ErrorBody(FetchFailedMessage))
      case Ok(list) => Response(StatusOK, ResultsBody(Select(list.questions, q)))
  }

  /** The handler, with its early returns. An empty query is answered
      without touching the catalog client; any other query makes exactly one
      request, for that keyword. */
  method Search(q: string, client: CatalogClient) returns (resp: Response)
    modifies client
    ensures resp == SearchResponse(q, client.answer)
    ensures q == "" ==> client.sent == old(client.sent)
    ensures q != "" ==> client.sent == old(client.sent) + [RequestFor(q)]
  {
    if q == "" {
      return Response(StatusBadRequest, ErrorBody(MissingQueryMessage));
    }
    var problems := FetchProblems(q, client);
    if problems.Err? {
      return Response(StatusInternalServerError, ErrorBody(FetchFailedMessage));
    }
    return Response(StatusOK, ResultsBody(problems.value));
  }

  /** The three outcomes, each tied to its cause. */
  lemma SearchOutcomes(q: string, upstream: Upstream)
    ensures SearchResponse(q, upstream).status == StatusBadRequest <==> q == ""
    ensures SearchResponse(q, upstream).status == StatusInternalServerError <==>
      q != "" && upstream(RequestFor(q)).Err?
    ensures SearchResponse(q, upstream).status == StatusOK <==>
      q != "" && upstream(RequestFor(q)).Ok?
    ensures SearchResponse(q, upstream).status != StatusOK ==> SearchResponse(q, upstream).body.ErrorBody?
    ensures SearchResponse(q, upstream).status == StatusOK ==> SearchResponse(q, upstream).body.ResultsBody?
  {
  }

  /** Every problem of a successful response has a title that contains the
      query, ignoring case, and every matching upstream question is there. */
  lemma SearchResultsMatchQuery(q: string, upstream: Upstream)
    requires SearchResponse(q, upstream).status == StatusOK
    ensures upstream(RequestFor(q)).Ok?
    ensures var qs := upstream(RequestFor(q)).value.questions;
      var results := SearchResponse(q, upstream).body.results;
      && (forall p :: p in results ==> Contains(ToLower(p.title), ToLower(q)))
      && (forall i :: 0 <= i < |qs| && Matches(qs[i], q) ==> Project(qs[i]) in results)
  {
    SelectSound(upstream(RequestFor(q)).value.questions, q);
    SelectComplete(upstream(RequestFor(q)).value.questions, q);
  }

  /** An upstream failure yields the same response whatever its detail: the
      client never sees the transport error. */
  lemma SearchHidesTransportError(q: string, up1: Upstream, up2: Upstream)
    requires q != ""
    requires up1(RequestFor(q)).Err? && up2(RequestFor(q)).Err?
    ensures SearchResponse(q, up1) == SearchResponse(q, up2)
    ensures SearchResponse(q, up1).body == ErrorBody(FetchFailedMessage)
  {
  }
}
