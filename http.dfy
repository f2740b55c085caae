/**
 * The parts of Go's `net/http` the client touches: request methods, the
 * status codes it switches on, a response as the transport hands it back,
 * and a request whose header map is updated in place.
 */
module Http {
  import opened Wrappers
  import Json

  datatype Method = Get | Post

  const StatusOK: int := 200
  const StatusCreated: int := 201
  const StatusBadRequest: int := 400
  const StatusUnauthorized: int := 401
  const StatusForbidden: int := 403
  const StatusNotFound: int := 404
  const StatusNotAcceptable: int := 406
  const StatusUnprocessableEntity: int := 422

  /** What the transport returns: the status code, the status line and the whole body. */
  datatype Response = Response(statusCode: int, status: string, body: string)

  /** The caller's `*http.Client`; only its timeout is visible here (0 means none). */
  datatype HttpClient = HttpClient(timeoutSeconds: nat)

  /** `http.Header`: every key maps to the list of values added under it. */
  type Header = map<string, seq<string>>

  /** The values under `key`; an absent key has none. */
  function HeaderValues(h: Header, key: string): seq<string>
  {
    if key in h then h[key] else []
  }

  /** `http.Header.Add`: appends `value` under `key`; other keys keep their values. */
  function HeaderAdd(h: Header, key: string, value: string): (r: Header)
    ensures r.Keys == h.Keys + {key}
    ensures HeaderValues(r, key) == HeaderValues(h, key) + [value]
    ensures forall k :: k != key ==> HeaderValues(r, k) == HeaderValues(h, k)
  {
    h[key := HeaderValues(h, key) + [value]]
  }

  /** `*http.Request`: method (`verb`), URL and body are fixed when it is built; its header map is not. */
  class Request {
    const verb: Method
    const url: string
    const body: Option<Json.Object>
    var header: Header

    constructor (verb: Method, url: string, body: Option<Json.Object>)
      ensures this.verb == verb && this.url == url && this.body == body
      ensures header == map[]
    {
      this.verb := verb;
      this.url := url;
      this.body := body;
      header := map[];
    }

    method AddHeader(key: string, value: string)
      modifies this`header
      ensures header == HeaderAdd(old(header), key, value)
    {
      header := header[key := HeaderValues(header, key) + [value]];
    }
  }
}
