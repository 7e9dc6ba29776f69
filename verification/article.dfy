/** Per-article processing of main.py: the fetch and the extractor lookup run
    inside one `try`, its three `except` clauses pick a status, and every
    handled outcome becomes one result record shaped by `packing_into_dict`.
    Network, tokenizer and scoring are parameters of the model. */
module Article {
  import opened Wrappers
  import opened Adapters

  // ---------------------------------------------------------------------------
  // Result records
  // ---------------------------------------------------------------------------

  /** The four outcome classes of one article. */
  datatype Status = Ok | Timeout | FetchError | ParsingError

  /** The status string stored in the result record. */
  function StatusName(s: Status): string {
    match s
    case Ok => "OK"
    case Timeout => "TIMEOUT"
    case FetchError => "FETCH_ERROR"
    case ParsingError => "PARSING_ERROR"
  }

  /** Reads a status string back; the inverse of `StatusName`. */
  function ParseStatus(name: string): Option<Status> {
    if name == "OK" then Some(Ok)
    else if name == "TIMEOUT" then Some(Timeout)
    else if name == "FETCH_ERROR" then Some(FetchError)
    else if name == "PARSING_ERROR" then Some(ParsingError)
    else None
  }

  /** Status strings are recovered exactly, so no two statuses share a name. */
  lemma StatusNameRoundTrip(s: Status)
    ensures ParseStatus(StatusName(s)) == Some(s)
  {
  }

  /** One entry of `processing_results`. The score stands for the float the
      rating function returns; it is not interpreted here. */
  datatype Record = Record(title: string, status: Status, score: Option<real>, wordCount: Option<nat>)

  /** The invariant every record keeps: score and word count are present
      exactly when the status is `Ok`. */
  predicate WellFormed(r: Record) {
    && (r.status == Ok <==> r.score.Some?)
    && (r.status == Ok <==> r.wordCount.Some?)
  }

  /** A Python value stored in the record dictionary. */
  datatype Value = Str(s: string) | Float(x: real) | Int(n: int) | NoneValue

  const TITLE_KEY: string := "Заголовок"
  const STATUS_KEY: string := "Статус"
  const SCORE_KEY: string := "Рейтинг"
  const WORDS_KEY: string := "Слов в статье"

  function OptionalFloat(x: Option<real>): Value {
    match x
    case Some(v) => Float(v)
    case None => NoneValue
  }

  function OptionalInt(n: Option<nat>): Value {
    match n
    case Some(v) => Int(v)
    case None => NoneValue
  }

  /** `packing_into_dict(title, status, score, words_count)`: a dictionary with
      exactly four distinct keys. */
  function PackingIntoDict(title: string, status: string, score: Option<real>, wordsCount: Option<nat>)
    : (d: map<string, Value>)
    ensures |d| == 4
  {
    map[TITLE_KEY := Str(title), STATUS_KEY := Str(status),
        SCORE_KEY := OptionalFloat(score), WORDS_KEY := OptionalInt(wordsCount)]
  }

  /** The dictionary view of a record, as the source appends it. */
  function ToDict(r: Record): map<string, Value> {
    PackingIntoDict(r.title, StatusName(r.status), r.score, r.wordCount)
  }

  /** Reads an optional float field: `Some(None)` for a stored `None`, `None`
      when the field holds something else. */
  function ReadOptionalFloat(v: Value): Option<Option<real>> {
    match v
    case Float(x) => Some(Some(x))
    case NoneValue => Some(None)
    case _ => None
  }

  /** Reads an optional non-negative integer field, like `ReadOptionalFloat`. */
  function ReadOptionalCount(v: Value): Option<Option<nat>> {
    match v
    case Int(n) => if n >= 0 then Some(Some(n as nat)) else None
    case NoneValue => Some(None)
    case _ => None
  }

  /** Reads a record dictionary back by its four keys, the way the batch
      printer of `main` indexes it. */
  function FromDict(d: map<string, Value>): Option<Record> {
    if TITLE_KEY !in d || STATUS_KEY !in d || SCORE_KEY !in d || WORDS_KEY !in d then None
    else if !d[TITLE_KEY].Str? || !d[STATUS_KEY].Str? then None
    else
      var status := ParseStatus(d[STATUS_KEY].s);
      var score := ReadOptionalFloat(d[SCORE_KEY]);
      var words := ReadOptionalCount(d[WORDS_KEY]);
      if status.None? || score.None? || words.None? then None
      else Some(Record(d[TITLE_KEY].s, status.value, score.value, words.value))
  }

  /** `packing_into_dict` stores each of its four arguments unchanged under its
      own key: the record is read back exactly. */
  lemma PackingRoundTrip(r: Record)
    ensures FromDict(ToDict(r)) == Some(r)
  {
    var d := ToDict(r);
    assert d[TITLE_KEY] == Str(r.title) && d[STATUS_KEY] == Str(StatusName(r.status));
    assert d[SCORE_KEY] == OptionalFloat(r.score) && d[WORDS_KEY] == OptionalInt(r.wordCount);
    StatusNameRoundTrip(r.status);
  }

  // ---------------------------------------------------------------------------
  // process_article
  // ---------------------------------------------------------------------------

  /** What the fetch inside the three-second deadline produced:
      - `TimedOut`: the deadline expired (`asyncio.TimeoutError`);
      - `HttpErrorStatus`: `raise_for_status` raised `ClientResponseError`;
      - `ConnectionFailed`: any other failure of the request, which no clause catches;
      - `Fetched`: the response body. */
  datatype FetchOutcome = TimedOut | HttpErrorStatus(code: int) | ConnectionFailed | Fetched(html: string)

  /** The exception leaving the `try` block, if any. */
  datatype Exception = TimeoutError | ClientResponseError | KeyError(key: string) | OtherError

  /** An exception no `except` clause handles; it leaves `process_article`. */
  datatype Unhandled = Unhandled

  /** What `process_article` receives besides the URL: the extractor table, the
      tokenizer (`split_by_words` with its morphological analyser), the rating
      function (`calculate_jaundice_rate`) and the charged-word list. The
      extractors, the tokenizer and the rating function give `None` where the
      source's call raises. */
  datatype Env = Env(
    registry: map<string, Extractor>,
    tokenize: string -> Option<seq<string>>,
    rate: (seq<string>, seq<string>) -> Option<real>,
    chargedWords: seq<string>)

  /** The `try` block: fetch first, then look the adapter up. */
  function TryBlock(env: Env, host: string, fetched: FetchOutcome): Result<(string, Extractor), Exception> {
    match fetched
    case TimedOut => Failure(TimeoutError)
    case HttpErrorStatus(_) => Failure(ClientResponseError)
    case ConnectionFailed => Failure(OtherError)
    case Fetched(html) =>
      match GetAdapter(env.registry, host)
      case Success(adapter) => Success((html, adapter))
      case Failure(err) => Failure(KeyError(err.key))
  }

  /** The `except` clauses, tried in order. */
  function Handler(e: Exception): Option<Status> {
    match e
    case TimeoutError => Some(Timeout)
    case ClientResponseError => Some(FetchError)
    case KeyError(_) => Some(ParsingError)
    case OtherError => None
  }

  /** The three calls of the `else` clause, which sits outside the `try`:
      extracting the text, tokenizing it and rating the tokens all return. */
  ghost predicate ElseClauseReturns(env: Env, adapter: Extractor, html: string) {
    && adapter(html).Some?
    && env.tokenize(adapter(html).value).Some?
    && env.rate(env.tokenize(adapter(html).value).value, env.chargedWords).Some?
  }

  /** The record `process_article` appends for one article whose host part is
      `host`, or the unhandled exception it lets through. The status follows
      the order of the steps: a failed fetch wins over a missing extractor. An
      exception raised by the fetch outside the handled kinds, or by any call
      of the `else` clause, leaves without a record. */
  function ProcessArticle(env: Env, title: string, host: string, fetched: FetchOutcome): (r: Result<Record, Unhandled>)
    ensures r.Success? <==>
      && !fetched.ConnectionFailed?
      && (fetched.Fetched? && AdapterKey(host) in env.registry ==>
            ElseClauseReturns(env, env.registry[AdapterKey(host)], fetched.html))
    ensures r.Success? ==> r.value.title == title && WellFormed(r.value)
    ensures r.Success? ==> (r.value.status == Timeout <==> fetched.TimedOut?)
    ensures r.Success? ==> (r.value.status == FetchError <==> fetched.HttpErrorStatus?)
    ensures r.Success? ==> (r.value.status == ParsingError <==> fetched.Fetched? && AdapterKey(host) !in env.registry)
    ensures r.Success? ==> (r.value.status == Ok <==> fetched.Fetched? && AdapterKey(host) in env.registry)
    ensures r.Success? && r.value.status == Ok ==>
      var words := env.tokenize(env.registry[AdapterKey(host)](fetched.html).value).value;
      && r.value.wordCount == Some(|words|)
      && r.value.score == env.rate(words, env.chargedWords)
  {
    match TryBlock(env, host, fetched)
    case Failure(e) =>
      (match Handler(e)
       case Some(status) => Success(Record(title, status, None, None))
       case None => Failure(Unhandled))
    case Success((html, adapter)) =>
      match adapter(html)
      case None => Failure(Unhandled)
      case Some(articleText) =>
        match env.tokenize(articleText)
        case None => Failure(Unhandled)
        case Some(words) =>
          match env.rate(words, env.chargedWords)
          case None => Failure(Unhandled)
          case Some(score) => Success(Record(title, Ok, Some(score), Some(|words|)))
  }

  /** A failed fetch decides the status before the host is looked at: neither
      the registry nor the host can change the record. */
  lemma FetchPrecedesLookup(env: Env, env': Env, title: string, host: string, host': string, fetched: FetchOutcome)
    requires !fetched.Fetched?
    ensures ProcessArticle(env, title, host, fetched) == ProcessArticle(env', title, host', fetched)
  {
  }

  /** `processing_results.append(...)`: exactly one record is added at the end
      and the records already there stay as they were. */
  function AppendResult(results: seq<Record>, env: Env, title: string, host: string, fetched: FetchOutcome)
    : (r: Result<seq<Record>, Unhandled>)
    ensures r.Success? <==> ProcessArticle(env, title, host, fetched).Success?
    ensures r.Success? ==> |r.value| == |results| + 1 && r.value[..|results|] == results
    ensures r.Success? ==> r.value[|results|] == ProcessArticle(env, title, host, fetched).value
  {
    match ProcessArticle(env, title, host, fetched)
    case Success(rec) => Success(results + [rec])
    case Failure(e) => Failure(e)
  }

  // ---------------------------------------------------------------------------
  // The batch of main()
  // ---------------------------------------------------------------------------

  /** One input article: its URL, the URL's host part and what fetching it gave. */
  datatype ArticleInput = ArticleInput(url: string, host: string, fetched: FetchOutcome)

  /** The title `main` gives each article. */
  function Title(url: string): string {
    "URL: " + url
  }

  /** `main` run one article at a time: one record per article, in input order,
      or the first unhandled exception. */
  function ProcessAll(env: Env, articles: seq<ArticleInput>): (r: Result<seq<Record>, Unhandled>)
    ensures r.Success? <==> forall i :: 0 <= i < |articles| ==>
      ProcessArticle(env, Title(articles[i].url), articles[i].host, articles[i].fetched).Success?
    ensures r.Success? ==> |r.value| == |articles|
    ensures r.Success? ==> forall i :: 0 <= i < |articles| ==>
      r.value[i] == ProcessArticle(env, Title(articles[i].url), articles[i].host, articles[i].fetched).value
  {
    if |articles| == 0 then Success([])
    else
      var last := articles[|articles| - 1];
      match ProcessAll(env, articles[..|articles| - 1])
      case Failure(e) => Failure(e)
      case Success(results) => AppendResult(results, env, Title(last.url), last.host, last.fetched)
  }

  /** Every record of a batch keeps the status/field invariant. */
  lemma BatchWellFormed(env: Env, articles: seq<ArticleInput>)
    requires ProcessAll(env, articles).Success?
    ensures forall i :: 0 <= i < |articles| ==> WellFormed(ProcessAll(env, articles).value[i])
  {
  }
}
