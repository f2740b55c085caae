/**
 * Zones: the zone entities, the listing options and their query
 * parameters, and the three zone operations (create, list, get), each as
 * the request it builds and the way it reads the response.
 */
module Zones {
  import opened Wrappers
  import opened Strconv
  import Url
  import Json
  import opened Http
  import opened Outcomes
  import opened Client

  type ZoneID = string

  datatype TxtVerification = TxtVerification(name: string, token: string)

  datatype Zone = Zone(
    id: ZoneID,
    created: string,
    modified: string,
    legacyDnsHost: string,
    legacyNs: seq<string>,
    name: string,
    ns: seq<string>,
    owner: string,
    paused: bool,
    permission: string,
    project: string,
    registrar: string,
    status: string,
    ttl: int64,
    verified: string,
    recordsCount: int64,
    isSecondaryDns: bool,
    txtVerification: TxtVerification)

  datatype Zones = Zones(zones: seq<Zone>)

  /** The pagination block of a zone listing, describing the remote collection. */
  datatype Pagination = Pagination(page: int64, perPage: int64, lastPage: int64, totalEntries: int64)

  datatype Meta = Meta(pagination: Pagination)

  /** The envelope `{"zone": ...}` of a single zone. */
  datatype ZoneResponse = ZoneResponse(zone: Zone)

  /** The envelope `{"meta": ..., "zones": [...]}` of a zone listing. */
  datatype ZonesResponse = ZonesResponse(meta: Meta, zones: seq<Zone>)

  const ParamPage: string := "page"
  const ParamPerPage: string := "per_page"
  const ParamName: string := "name"
  const ParamSearchName: string := "search_name"

  lemma ParamKeysDistinct()
    ensures ParamName != ParamPage && ParamName != ParamPerPage && ParamName != ParamSearchName
    ensures ParamPage != ParamPerPage && ParamPage != ParamSearchName && ParamPerPage != ParamSearchName
  {
    assert ParamName[0] != ParamPage[0];
  }

  /** The top-level domain every zone is created with. */
  const CreateZoneTld: string := "dev"

  /**
   * Filters of a zone listing. A zero page or page size stands for the
   * API's default; `name` asks for one zone by name, `searchName` for a
   * partial match.
   */
  datatype ListZoneOpts = ListZoneOpts(page: int64, perPage: int64, name: string, searchName: string)

  /**
   * The query parameters of a zone listing. Page and page size appear
   * once each, in decimal, exactly when they are non-zero. Both `name` and
   * `search_name` depend on the search name: with a search name, `name`
   * carries the name even when it is empty; without one, a name is
   * dropped. No other key appears.
   */
  function ZoneQuery(opts: ListZoneOpts): (q: Url.Values)
    ensures Url.ValuesOf(q, ParamPage) == (if opts.page != 0 then [Itoa(opts.page as int)] else [])
    ensures Url.ValuesOf(q, ParamPerPage) == (if opts.perPage != 0 then [Itoa(opts.perPage as int)] else [])
    ensures Url.ValuesOf(q, ParamName) == (if opts.searchName != "" then [opts.name] else [])
    ensures Url.ValuesOf(q, ParamSearchName) == (if opts.searchName != "" then [opts.searchName] else [])
    ensures forall k :: k != ParamPage && k != ParamPerPage && k != ParamName && k != ParamSearchName
                   ==> Url.ValuesOf(q, k) == []
    ensures q == [] <==> opts.page == 0 && opts.perPage == 0 && opts.searchName == ""
  {
    ParamKeysDistinct();
    var q1 := Url.AddIf([], opts.page != 0, ParamPage, Itoa(opts.page as int));
    var q2 := Url.AddIf(q1, opts.perPage != 0, ParamPerPage, Itoa(opts.perPage as int));
    // the name is gated on the search name, not on itself
    var q3 := Url.AddIf(q2, opts.searchName != "", ParamName, opts.name);
    Url.AddIf(q3, opts.searchName != "", ParamSearchName, opts.searchName)
  }

  /** With every option at its zero value no parameter is sent. */
  lemma ZeroOptionsSendNoQuery()
    ensures ZoneQuery(ListZoneOpts(0, 0, "", "")) == []
    ensures Url.SplitQuery(GetZonesUrl(ListZoneOpts(0, 0, "", ""))).1 == ""
  {
  }

  /** Without a search name, the name option has no effect on the request. */
  lemma NameIgnoredWithoutSearchName(opts: ListZoneOpts, name: string)
    requires opts.searchName == ""
    ensures GetZonesUrl(opts.(name := name)) == GetZonesUrl(opts)
  {
  }

  /** The URL of zone creation: the `zones` resource, without a query. */
  function CreateZoneUrl(): (u: string)
    ensures Url.SplitQuery(u) == ("https://dns.hetzner.com/api/v1/zones", "")
  {
    assert BaseUrl + "zones" == "https://dns.hetzner.com/api/v1/zones";
    Url.SplitQueryNone(BaseUrl + "zones");
    BaseUrl + "zones"
  }

  /**
   * The URL of a zone listing. The base already ends in '/' and the format
   * adds another, so the resource path holds `v1//zones`; the raw query is
   * the encoded parameters (possibly empty, after a '?' that is always there).
   */
  function GetZonesUrl(opts: ListZoneOpts): (u: string)
    ensures Url.SplitQuery(u) == ("https://dns.hetzner.com/api/v1//zones", Url.Encode(ZoneQuery(opts)))
  {
    ListingUrl(Url.Encode(ZoneQuery(opts)))
  }

  function ListingUrl(query: string): (u: string)
    ensures Url.SplitQuery(u) == ("https://dns.hetzner.com/api/v1//zones", query)
  {
    assert BaseUrl + "/zones?" == "https://dns.hetzner.com/api/v1//zones" + "?";
    Url.SplitQueryJoin("https://dns.hetzner.com/api/v1//zones", query);
    BaseUrl + "/zones?" + query
  }

  /** The URL of one zone: its id appended to the `zones/` path, as given. */
  function GetZoneUrl(id: ZoneID): (u: string)
    ensures '?' !in id ==> Url.SplitQuery(u) == ("https://dns.hetzner.com/api/v1/zones/" + id, "")
    ensures |u| >= |id| && u[|u| - |id|..] == id
  {
    var u := BaseUrl + "zones/" + id;
    assert BaseUrl + "zones/" == "https://dns.hetzner.com/api/v1/zones/";
    assert '?' !in id ==> Url.SplitQuery(u) == (u, "") by {
      if '?' !in id {
        Url.SplitQueryNone(u);
      }
    }
    u
  }

  /** A listing URL read back gives the parameter list, as long as no value holds '&'. */
  lemma ListingQueryReadsBack(opts: ListZoneOpts)
    requires '&' !in opts.name && '&' !in opts.searchName
    ensures Url.ParseQuery(Url.SplitQuery(GetZonesUrl(opts)).1) == ZoneQuery(opts)
  {
    var page, perPage := Itoa(opts.page as int), Itoa(opts.perPage as int);
    Url.ItoaPlain(ParamPage, opts.page as int);
    Url.ItoaPlain(ParamPerPage, opts.perPage as int);
    var q1 := Url.AddIf([], opts.page != 0, ParamPage, page);
    Url.AddIfPlain([], opts.page != 0, ParamPage, page);
    var q2 := Url.AddIf(q1, opts.perPage != 0, ParamPerPage, perPage);
    Url.AddIfPlain(q1, opts.perPage != 0, ParamPerPage, perPage);
    var q3 := Url.AddIf(q2, opts.searchName != "", ParamName, opts.name);
    Url.AddIfPlain(q2, opts.searchName != "", ParamName, opts.name);
    Url.AddIfPlain(q3, opts.searchName != "", ParamSearchName, opts.searchName);
    Url.ParseEncode(ZoneQuery(opts));
  }

  /**
   * The body of zone creation: the name and TTL as given, and always the
   * top-level domain "dev".
   */
  function CreateZoneBody(name: string, defaultTtl: uint64): (body: Json.Object)
    ensures Json.Names(body) == ["name", "ttl", "tld"]
    ensures Json.Lookup(body, "name") == Some(Json.String(name))
    ensures Json.Lookup(body, "ttl") == Some(Json.Number(defaultTtl as int))
    ensures Json.Lookup(body, "tld") == Some(Json.String(CreateZoneTld))
  {
    [ Json.Member("name", Json.String(name)),
      Json.Member("ttl", Json.Number(defaultTtl as int)),
      Json.Member("tld", Json.String(CreateZoneTld)) ]
  }

  /** The zone out of its envelope; a decoding error is returned as it is. */
  function DecodeZone(envelope: Result<ZoneResponse, string>): Outcome<Zone>
  {
    match envelope
    case Ok(r) => Success(r.zone)
    case Err(message) => DecodeFailed(message)
  }

  /**
   * How zone creation reads a response: only 201 Created is decoded; 401 is
   * a bare unauthorized error, 406 fatal, 422 carries the body, and every
   * other status (200, 400, 403 and 404 among them) is unknown.
   */
  function ClassifyCreateZone(response: Response, envelope: Result<ZoneResponse, string>): (o: Outcome<Zone>)
    ensures o.ReachedDecoding() <==> response.statusCode == StatusCreated
    ensures o.Success? <==> response.statusCode == StatusCreated && envelope.Ok?
    ensures o.Success? ==> o.value == envelope.value.zone
    ensures response.statusCode == StatusCreated && envelope.Err? ==> o == DecodeFailed(envelope.error)
    ensures o == Unauthorized(Bare) <==> response.statusCode == StatusUnauthorized
    ensures o == Fatal406 <==> response.statusCode == StatusNotAcceptable
    ensures o == Unprocessable(Body(response.body)) <==> response.statusCode == StatusUnprocessableEntity
    ensures o == Unknown(UnexpectedStatus(response.status, response.body))
      <==> response.statusCode !in {StatusCreated, StatusUnauthorized, StatusNotAcceptable, StatusUnprocessableEntity}
  {
    if response.statusCode == StatusCreated then DecodeZone(envelope)
    else if response.statusCode == StatusUnauthorized then Unauthorized(Bare)
    else if response.statusCode == StatusNotAcceptable then Fatal406
    else if response.statusCode == StatusUnprocessableEntity then Unprocessable(Body(response.body))
    else Unknown(UnexpectedStatus(response.status, response.body))
  }

  /**
   * How a zone listing reads a response: 200 is decoded; 400 carries the
   * body, 401 the request URL; 406 is fatal; every other status is unknown.
   */
  function ClassifyGetZones(requestUrl: string, response: Response, envelope: Result<ZonesResponse, string>)
    : (o: Outcome<(Zones, Meta)>)
    ensures o.ReachedDecoding() <==> response.statusCode == StatusOK
    ensures o.Success? <==> response.statusCode == StatusOK && envelope.Ok?
    ensures o.Success? ==> o.value == (Zones(envelope.value.zones), envelope.value.meta)
    ensures response.statusCode == StatusOK && envelope.Err? ==> o == DecodeFailed(envelope.error)
    ensures o == BadRequest(Body(response.body)) <==> response.statusCode == StatusBadRequest
    ensures o == Unauthorized(Url(requestUrl)) <==> response.statusCode == StatusUnauthorized
    ensures o == Fatal406 <==> response.statusCode == StatusNotAcceptable
    ensures o == Unknown(UnexpectedStatus(response.status, response.body))
      <==> response.statusCode !in {StatusOK, StatusBadRequest, StatusUnauthorized, StatusNotAcceptable}
  {
    if response.statusCode == StatusOK then
      match envelope
      case Ok(r) => Success((Zones(r.zones), r.meta))
      case Err(message) => DecodeFailed(message)
    else if response.statusCode == StatusBadRequest then BadRequest(Body(response.body))
    else if response.statusCode == StatusUnauthorized then Unauthorized(Url(requestUrl))
    else if response.statusCode == StatusNotAcceptable then Fatal406
    else Unknown(UnexpectedStatus(response.status, response.body))
  }

  /**
   * How fetching one zone reads a response: 200 is decoded, and so is 400,
   * whose case is empty and falls out of the switch; 401 is bare, 403 and
   * 404 carry the body, 406 is fatal, every other status is unknown.
   */
  function ClassifyGetZone(response: Response, envelope: Result<ZoneResponse, string>): (o: Outcome<Zone>)
    ensures o.ReachedDecoding() <==> response.statusCode in {StatusOK, StatusBadRequest}
    ensures o.Success? <==> response.statusCode in {StatusOK, StatusBadRequest} && envelope.Ok?
    ensures o.Success? ==> o.value == envelope.value.zone
    ensures response.statusCode in {StatusOK, StatusBadRequest} && envelope.Err? ==> o == DecodeFailed(envelope.error)
    ensures o == Unauthorized(Bare) <==> response.statusCode == StatusUnauthorized
    ensures o == Forbidden(Body(response.body)) <==> response.statusCode == StatusForbidden
    ensures o == NotFound(Body(response.body)) <==> response.statusCode == StatusNotFound
    ensures o == Fatal406 <==> response.statusCode == StatusNotAcceptable
    ensures o == Unknown(UnexpectedStatus(response.status, response.body))
      <==> response.statusCode !in {StatusOK, StatusBadRequest, StatusUnauthorized, StatusForbidden,
                                    StatusNotFound, StatusNotAcceptable}
  {
    if response.statusCode == StatusOK then DecodeZone(envelope)
    else if response.statusCode == StatusUnauthorized then Unauthorized(Bare)
    else if response.statusCode == StatusForbidden then Forbidden(Body(response.body))
    else if response.statusCode == StatusBadRequest then DecodeZone(envelope)
    else if response.statusCode == StatusNotFound then NotFound(Body(response.body))
    else if response.statusCode == StatusNotAcceptable then Fatal406
    else Unknown(UnexpectedStatus(response.status, response.body))
  }

  /** Zone creation departs from the uniform table exactly at 400, 403 and 404, which it reports as unknown. */
  lemma CreateZoneAgainstUniformTable(response: Response, envelope: Result<ZoneResponse, string>)
    ensures KindOf(ClassifyCreateZone(response, envelope)) == UniformKind(response.statusCode, StatusCreated)
        <==> response.statusCode !in {StatusBadRequest, StatusForbidden, StatusNotFound}
  {
  }

  /** A zone listing departs from the uniform table exactly at 403, 404 and 422, which it reports as unknown. */
  lemma GetZonesAgainstUniformTable(requestUrl: string, response: Response, envelope: Result<ZonesResponse, string>)
    ensures KindOf(ClassifyGetZones(requestUrl, response, envelope)) == UniformKind(response.statusCode, StatusOK)
        <==> response.statusCode !in {StatusForbidden, StatusNotFound, StatusUnprocessableEntity}
  {
  }

  /** Fetching a zone departs from the uniform table exactly at 400 (decoded) and 422 (unknown). */
  lemma GetZoneAgainstUniformTable(response: Response, envelope: Result<ZoneResponse, string>)
    ensures KindOf(ClassifyGetZone(response, envelope)) == UniformKind(response.statusCode, StatusOK)
        <==> response.statusCode !in {StatusBadRequest, StatusUnprocessableEntity}
  {
  }

  /** Creates a zone: POSTs the body to `zones`, then reads the reply. */
  method CreateZone(h: DnsClient, name: string, defaultTtl: uint64, reply: Reply<ZoneResponse>)
    returns (request: Request, outcome: Outcome<Zone>)
    ensures fresh(request)
    ensures request.verb == Post && request.url == CreateZoneUrl()
    ensures request.body == Some(CreateZoneBody(name, defaultTtl))
    ensures request.header == WithApiHeaders(map[], h.authToken)
    ensures reply.NoResponse? ==> outcome == TransportFailed(reply.message)
    ensures reply.Answered? ==> outcome == ClassifyCreateZone(reply.response, reply.envelope)
    ensures unchanged(h)
  {
    request := new Request(Post, CreateZoneUrl(), Some(CreateZoneBody(name, defaultTtl)));
    h.AddHeaderToRequest(request);
    match reply
    case NoResponse(message) =>
      outcome := TransportFailed(message);
    case Answered(response, envelope) =>
      outcome := ClassifyCreateZone(response, envelope);
  }

  /** Lists zones: GETs `/zones` with the options' query, then reads the reply. */
  method GetZones(h: DnsClient, opts: ListZoneOpts, reply: Reply<ZonesResponse>)
    returns (request: Request, outcome: Outcome<(Zones, Meta)>)
    ensures fresh(request)
    ensures request.verb == Get && request.url == GetZonesUrl(opts) && request.body == None
    ensures request.header == WithApiHeaders(map[], h.authToken)
    ensures reply.NoResponse? ==> outcome == TransportFailed(reply.message)
    ensures reply.Answered? ==> outcome == ClassifyGetZones(request.url, reply.response, reply.envelope)
    ensures unchanged(h)
  {
    request := new Request(Get, GetZonesUrl(opts), None);
    h.AddHeaderToRequest(request);
    match reply
    case NoResponse(message) =>
      outcome := TransportFailed(message);
    case Answered(response, envelope) =>
      outcome := ClassifyGetZones(request.url, response, envelope);
  }

  /** Fetches one zone: GETs `zones/<id>`, then reads the reply. */
  method GetZone(h: DnsClient, id: ZoneID, reply: Reply<ZoneResponse>)
    returns (request: Request, outcome: Outcome<Zone>)
    ensures fresh(request)
    ensures request.verb == Get && request.url == GetZoneUrl(id) && request.body == None
    ensures request.header == WithApiHeaders(map[], h.authToken)
    ensures reply.NoResponse? ==> outcome == TransportFailed(reply.message)
    ensures reply.Answered? ==> outcome == ClassifyGetZone(reply.response, reply.envelope)
    ensures unchanged(h)
  {
    request := new Request(Get, GetZoneUrl(id), None);
    h.AddHeaderToRequest(request);
    match reply
    case NoResponse(message) =>
      outcome := TransportFailed(message);
    case Answered(response, envelope) =>
      outcome := ClassifyGetZone(response, envelope);
  }
}
