/**
 * The HTTP GET used for both the manifest and the artifact (httpGET in
 * cli/update.go). The retrying client, its headers and the transport are
 * outside the model: what the network answers for a URL is a Response value.
 */
module Http {
  import opened Wrappers
  import Decimal

  const STATUS_OK := 200

  /** What one request yields: no response at all (the retrying client gave
      up or could not build the request), or a status code with a body that
      could or could not be read to the end. */
  datatype Response =
    | Unreachable(cause: string)
    | Reply(status: int, body: Result<seq<byte>, string>)

  datatype FetchError =
    | RequestFailed(cause: string)
    | BadStatus(url: string, status: int)
    | ReadFailed(cause: string)

  /** httpGET: only a 200 reply whose body was read in full yields bytes. */
  function Get(url: string, resp: Response): (r: Result<seq<byte>, FetchError>)
    ensures r.Success? <==> resp.Reply? && resp.status == STATUS_OK && resp.body.Success?
    ensures r.Success? ==> r.value == resp.body.value
    ensures resp.Reply? && resp.status != STATUS_OK ==> r == Failure(BadStatus(url, resp.status))
  {
    match resp
    case Unreachable(cause) => Failure(RequestFailed(cause))
    case Reply(status, body) =>
      if status != STATUS_OK then Failure(BadStatus(url, status))
      else match body
        case Failure(cause) => Failure(ReadFailed(cause))
        case Success(bytes) => Success(bytes)
  }

  /** The text of the error httpGET returns; for errors raised by the client
      library the text is the library's own. */
  function Message(e: FetchError): (r: string)
    ensures !e.BadStatus? ==> r == e.cause
    ensures e.BadStatus? ==>
      var prefix := "failed to fetch " + e.url + "; HTTP error ";
      && prefix <= r
      && Decimal.Parsable(r[|prefix|..]) && Decimal.Parse(r[|prefix|..]) == e.status
  {
    match e
    case RequestFailed(cause) => cause
    case BadStatus(url, status) =>
      var prefix := "failed to fetch " + url + "; HTTP error ";
      var r := prefix + Decimal.Format(status);
      assert r[|prefix|..] == Decimal.Format(status);
      Decimal.FormatRoundTrip(status);
      r
    case ReadFailed(cause) => cause
  }
}
