/** The HTTP traffic of the tools as values: the request a wrapper would hand to
    the `requests` library, and what came back. */
module Http {
  import opened Common

  datatype Method = GET | POST | PUT | DELETE | HEAD

  /** A request body. The `value` strings stand for the Python object passed in;
      how the library serialises it is not modelled.
      - `Data(v)`: `data=v`, passed through untouched;
      - `Dumped(v)`: `data=json.dumps(v)`;
      - `DumpedIds(ids)`: `data=json.dumps({"ids": ids})`;
      - `JsonArg(v)`: the `json=v` keyword argument;
      - `Form(fields)`: a dict literal given as `data=`, which the library form-encodes;
      - `FileUpload(path)`: a multipart upload of the file at `path`. */
  datatype Body =
    | NoBody
    | Data(value: string)
    | Dumped(value: string)
    | DumpedIds(ids: seq<string>)
    | JsonArg(value: string)
    | Form(fields: seq<(string, string)>)
    | FileUpload(path: string)

  /** `jsonContentType` records whether the call passes the tools' shared
      `{'Content-Type': 'application/json'}` header dictionary. */
  datatype Request = Request(verb: Method, url: string, body: Body, jsonContentType: bool)

  datatype Response = Response(status: int, text: string)

  /** `Response.ok` of the requests library: false exactly for 4xx and 5xx codes. */
  predicate IsOk(r: Response) {
    !(400 <= r.status < 600)
  }

  /** What happened to a request: the library raised (connection refused,
      timeout, invalid URL, ...) or the server answered. */
  datatype Transport = Raised | Answered(response: Response)

  function Get(url: string): Request {
    Request(GET, url, NoBody, false)
  }

  /** `json.loads(response.text)` or `response.json()`: the status code is not
      looked at. The parser is a parameter, since JSON decoding is library
      behaviour. */
  function JsonReply<J>(reply: Transport, parse: string -> Option<J>): (r: Result<J>)
    ensures r.Success? <==> reply.Answered? && parse(reply.response.text).Some?
    ensures r.Success? ==> Some(r.value) == parse(reply.response.text)
    ensures reply.Answered? && r.Failure? ==> r.error == JsonDecodeError
  {
    match reply
    case Raised => Failure(RequestException)
    case Answered(response) =>
      match parse(response.text)
      case None => Failure(JsonDecodeError)
      case Some(j) => Success(j)
  }

  /** An error status is decoded like a success: only the body text matters. */
  lemma JsonReplyIgnoresStatus<J>(s1: int, s2: int, text: string, parse: string -> Option<J>)
    ensures JsonReply(Answered(Response(s1, text)), parse) == JsonReply(Answered(Response(s2, text)), parse)
  {
  }
}
