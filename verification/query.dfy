/** The request guard of server.py: the `urls` query parameter is split on ','
    into at most `ARTICLES_LIMIT` stripped URLs, and the two ways of failing are
    answered with fixed JSON error bodies. */
module Query {
  import opened Wrappers
  import opened Text

  /** Most URLs one request may ask for. */
  const ARTICLES_LIMIT: nat := 10

  /** The two exceptions `pack_query_to_list` raises. */
  datatype QueryError = NoDataInQuery | ExceedingNumberOfRequests

  /** `pack_query_to_list(query)`: `query` is `None` when the parameter is
      absent. An absent or empty query is refused; otherwise the comma-separated
      pieces are counted before stripping, more than `ARTICLES_LIMIT` of them is
      refused, and each piece is returned stripped, in order, empty ones kept. */
  function PackQueryToList(query: Option<string>): (r: Result<seq<string>, QueryError>)
    ensures r == Failure(NoDataInQuery) <==> query == None || query == Some("")
    ensures r == Failure(ExceedingNumberOfRequests)
        <==> query.Some? && query.value != "" && Occurrences(query.value, ',') >= ARTICLES_LIMIT
    ensures r.Success? ==> |r.value| == Occurrences(query.value, ',') + 1 <= ARTICLES_LIMIT
    ensures r.Success? ==> forall i :: 0 <= i < |r.value| ==> NoEdgeWhitespace(r.value[i]) && ',' !in r.value[i]
    ensures r.Success? ==> forall i :: 0 <= i < |r.value| ==> r.value[i] == Strip(Split(query.value, ',')[i])
  {
    if query.None? || query.value == "" then Failure(NoDataInQuery)
    else
      var results := Split(query.value, ',');
      if |results| > ARTICLES_LIMIT then Failure(ExceedingNumberOfRequests)
      else Success(StripAll(results))
  }

  /** `[res.strip() for res in results]`. */
  function StripAll(pieces: seq<string>): (r: seq<string>)
    ensures |r| == |pieces|
    ensures forall i :: 0 <= i < |r| ==> r[i] == Strip(pieces[i])
  {
    seq(|pieces|, i requires 0 <= i < |pieces| => Strip(pieces[i]))
  }

  /** A query built from up to `ARTICLES_LIMIT` comma-free segments yields exactly
      those segments, stripped, in order: nothing is merged, dropped or reordered. */
  lemma PackJoinedSegments(segments: seq<string>)
    requires 1 <= |segments| <= ARTICLES_LIMIT
    requires forall i :: 0 <= i < |segments| ==> ',' !in segments[i]
    requires Join(segments, ',') != ""
    ensures PackQueryToList(Some(Join(segments, ','))) == Success(StripAll(segments))
  {
    SplitJoin(segments, ',');
  }

  /** More than `ARTICLES_LIMIT` segments are refused whatever they hold: the
      count is taken before stripping, so segments that are blank, or would
      strip to "", still count. */
  lemma TooManySegments(segments: seq<string>)
    requires |segments| > ARTICLES_LIMIT
    requires forall i :: 0 <= i < |segments| ==> ',' !in segments[i]
    ensures PackQueryToList(Some(Join(segments, ','))) == Failure(ExceedingNumberOfRequests)
  {
    SplitJoin(segments, ',');
  }

  /** Blank segments (as between the two commas of "a,,b") are not dropped:
      each comes back as "" in its own position. */
  lemma BlankSegmentKept(segments: seq<string>, i: nat)
    requires 1 <= |segments| <= ARTICLES_LIMIT
    requires forall k :: 0 <= k < |segments| ==> ',' !in segments[k]
    requires Join(segments, ',') != ""
    requires i < |segments| && AllWhitespace(segments[i])
    ensures PackQueryToList(Some(Join(segments, ','))).Success?
    ensures |PackQueryToList(Some(Join(segments, ','))).value| == |segments|
    ensures PackQueryToList(Some(Join(segments, ','))).value[i] == ""
  {
    PackJoinedSegments(segments);
    StripWhitespaceOnly(segments[i]);
  }

  // ---------------------------------------------------------------------------
  // handle
  // ---------------------------------------------------------------------------

  /** What `handle` does with a request: answer with a JSON error body, or hand
      the URL list on to article processing. */
  datatype Response = ErrorBody(json: string) | Process(urls: seq<string>)

  const NO_DATA_BODY: string := "{\"error\": \"No data in query.\"}"
  const TOO_MANY_BODY: string := "{\"error\": \"too many urls in request, should be 10 or less\"}"

  /** `handle(request)` given the value of the `urls` parameter. */
  function Handle(query: Option<string>): (resp: Response)
    ensures resp == ErrorBody(NO_DATA_BODY) <==> query == None || query == Some("")
    ensures resp == ErrorBody(TOO_MANY_BODY)
        <==> query.Some? && query.value != "" && Occurrences(query.value, ',') >= ARTICLES_LIMIT
    ensures resp.ErrorBody? ==> resp.json in {NO_DATA_BODY, TOO_MANY_BODY}
    ensures resp.Process? <==> PackQueryToList(query).Success?
    ensures resp.Process? ==> resp.urls == PackQueryToList(query).value && |resp.urls| <= ARTICLES_LIMIT
  {
    match PackQueryToList(query)
    case Failure(NoDataInQuery) => ErrorBody(NO_DATA_BODY)
    case Failure(ExceedingNumberOfRequests) => ErrorBody(TOO_MANY_BODY)
    case Success(urls) => Process(urls)
  }
}
