/** `CurrencyExchangeClient`: the request it builds, how it reads the
    service's reply, and the path it saves a rate under.

    The network is an input: a `Transport` value says what `requests.post`
    and the steps after it would produce for the one request the client
    sends.  Every outcome becomes either the service's dict or `None`, the
    client's failure marker; nothing escapes as an exception. */
module Client {
  import opened Wrappers
  import opened Dates
  import opened AsciiCase
  import opened JsonValues

  /** What sending one request produces. */
  datatype Transport =
    | ConnectionError     // requests.exceptions.ConnectionError
    | Timeout             // requests.exceptions.Timeout (after 10 s)
    | RequestError        // any other requests.exceptions.RequestException
    | OtherError          // any other exception
    | Reply(status: int, body: Option<Json>)
        // the service answered with an HTTP status; `body` is the parsed
        // JSON value, or `None` when the body is not valid JSON

  /** `response.raise_for_status()` raises `HTTPError` on 4xx and 5xx. */
  predicate RaisesForStatus(status: int) {
    400 <= status < 600
  }

  /** `result.get('error')` is truthy: the service reported an error. */
  predicate ReportsError(result: Json) {
    match Lookup(result, "error")
    case None => false
    case Some(e) => Truthy(e)
  }

  /** The reply gets past `raise_for_status`, `response.json()` and the
      `error` check: a dict without a truthy `error`. */
  predicate Usable(reply: Transport) {
    && reply.Reply?
    && !RaisesForStatus(reply.status)
    && reply.body.Some?
    && reply.body.value.JObj?
    && !ReportsError(reply.body.value)
  }

  /** The shared part of both API calls (source lines 103-111 and 179-185):
      the parsed dict, or `None` after any failure. */
  function ReadReply(reply: Transport): (r: Option<Json>)
    // transport failures
    ensures reply.ConnectionError? || reply.Timeout? || reply.RequestError? || reply.OtherError? ==> r.None?
    // HTTP error status
    ensures reply.Reply? && RaisesForStatus(reply.status) ==> r.None?
    // malformed JSON
    ensures reply.Reply? && reply.body.None? ==> r.None?
    // a JSON value that is not a dict has no `.get`
    ensures reply.Reply? && reply.body.Some? && !reply.body.value.JObj? ==> r.None?
    // service-reported error
    ensures reply.Reply? && reply.body.Some? && ReportsError(reply.body.value) ==> r.None?
    // otherwise the dict, unmodified
    ensures Usable(reply) ==> r == reply.body
    ensures r.Some? ==> Usable(reply) && r == reply.body
  {
    match reply
    case Reply(status, body) =>
      if RaisesForStatus(status) then None
      else
        (match body
         case None => None
         case Some(result) =>
           if !result.JObj? then None
           else if ReportsError(result) then None
           else Some(result))
    case _ => None
  }

  /** An HTTP POST: URL, query parameters and form fields, in order. */
  datatype Request = Request(url: string, query: seq<(string, string)>, form: seq<(string, string)>)

  /** What `get_exchange_rate` did: the request it sent, if any, and what it
      returned. */
  datatype Exchange = Exchange(request: Option<Request>, result: Option<Json>)

  /** What writing the file produced. */
  datatype WriteOutcome = Written | WriteIOError | WriteOtherError

  const DefaultUrl := "http://localhost:8080"
  const DefaultKey := "EXAMPLE_API_KEY"

  /** `CurrencyExchangeClient()` with the default arguments. */
  const DefaultClient := CurrencyExchangeClient(DefaultUrl, DefaultKey)

  const SaveDirectory := "data"

  function FileName(fromCurrency: string, toCurrency: string, date: string): string {
    "exchange_rate_" + fromCurrency + "_" + toCurrency + "_" + date + ".json"
  }

  /** `os.path.join('data', filename)`: the file name never starts with a
      separator, so the join is the directory, `/`, and the name. */
  function SavePath(fromCurrency: string, toCurrency: string, date: string): string {
    SaveDirectory + "/" + FileName(fromCurrency, toCurrency, date)
  }

  /** The client object.  `__init__` sets `base_url` and `api_key` once and
      no method changes them afterwards, so a client is a value. */
  datatype CurrencyExchangeClient = CurrencyExchangeClient(baseUrl: string, apiKey: string) {

    function Endpoint(): string {
      baseUrl + "/"
    }

    function RateRequest(fromCurrency: string, toCurrency: string, date: string): (q: Request)
      ensures q.url == Endpoint() && q.form == [("key", apiKey)]
      ensures q.query == [("from", Upper(fromCurrency)), ("to", Upper(toCurrency)), ("date", date)]
    {
      Request(Endpoint(), [("from", Upper(fromCurrency)), ("to", Upper(toCurrency)), ("date", date)], [("key", apiKey)])
    }

    /** `get_exchange_rate`. */
    function GetExchangeRate(fromCurrency: string, toCurrency: string, date: string, reply: Transport): (e: Exchange)
      // an invalid date returns the failure marker before any request
      ensures !ValidateDate(date) ==> e.request.None? && e.result.None?
      ensures ValidateDate(date) ==> e.request == Some(RateRequest(fromCurrency, toCurrency, date))
      // a result exactly when the date is valid and the reply usable, and
      // then it is the service's dict, unmodified
      ensures e.result.Some? <==> ValidateDate(date) && Usable(reply)
      ensures e.result.Some? ==> e.result == reply.body && e.result.value.JObj?
    {
      if !ValidateDate(date) then Exchange(None, None)
      else Exchange(Some(RateRequest(fromCurrency, toCurrency, date)), ReadReply(reply))
    }

    function CurrenciesRequest(): Request {
      Request(Endpoint(), [("currencies", "")], [("key", apiKey)])
    }

    /** `get_available_currencies`: the `data` field of a usable reply, or an
        empty list when the dict has none.  A `data` of `null` is returned
        as `JNull`, where Python returns `None`; both are falsy to `main`. */
    function GetAvailableCurrencies(reply: Transport): (r: Option<Json>)
      ensures r.Some? <==> Usable(reply)
      ensures Usable(reply) && HasKey(reply.body.value, "data") ==> r == Lookup(reply.body.value, "data")
      ensures Usable(reply) && !HasKey(reply.body.value, "data") ==> r == Some(JArr([]))
    {
      match ReadReply(reply)
      case None => None
      case Some(result) =>
        match Lookup(result, "data")
        case None => Some(JArr([]))
        case Some(v) => Some(v)
    }

    /** `save_to_file`: the path written, or `None` when writing failed.  The
        JSON serialisation of `data` is not modelled. */
    function SaveToFile(data: Json, fromCurrency: string, toCurrency: string, date: string, write: WriteOutcome): (r: Option<string>)
      ensures r.Some? <==> write.Written?
      ensures r.Some? ==> r.value == SavePath(fromCurrency, toCurrency, date)
    {
      match write
      case Written => Some(SavePath(fromCurrency, toCurrency, date))
      case _ => None
    }
  }
}
