/**
 * Records: the record entities, the record listing options and their
 * query parameters, the record creation body, and the two record
 * operations (list, create).
 */
module Records {
  import opened Wrappers
  import opened Strconv
  import Url
  import Json
  import opened Http
  import opened Outcomes
  import opened Client
  import Zones

  /** The record types the API names; the Go type is an open string type. */
  type RecordType = string

  datatype Record = Record(
    recordType: string,
    id: string,
    created: string,
    modified: string,
    zoneId: string,
    name: string,
    value: string,
    ttl: int64)

  type Records = seq<Record>

  /** The envelope `{"records": [...]}` of a record listing. */
  datatype RecordsResponse = RecordsResponse(records: Records)

  /** The envelope `{"record": ...}` of a created record. */
  datatype CreateRecordResponse = CreateRecordResponse(record: Record)

  /** Filters of a record listing: the zone, page size and page; zero or empty means unset. */
  datatype GetRecordsOpts = GetRecordsOpts(zoneId: Zones.ZoneID, perPage: int64, page: int64)

  /** What a new record is made of; a zero TTL is left out of the request. */
  datatype CreateRecordOpts = CreateRecordOpts(
    name: string,
    ttl: uint64,
    recordType: RecordType,
    value: string,
    zoneId: string)

  const ParamPage: string := "page"
  const ParamPerPage: string := "per_page"
  const ParamZoneId: string := "zone_id"

  lemma ParamKeysDistinct()
    ensures ParamPage != ParamPerPage && ParamPage != ParamZoneId && ParamPerPage != ParamZoneId
  {
  }

  /**
   * The query parameters of a record listing: page and page size once each,
   * in decimal, exactly when non-zero; the zone id verbatim exactly when it
   * is not empty; no other key.
   */
  function RecordQuery(opts: GetRecordsOpts): (q: Url.Values)
    ensures Url.ValuesOf(q, ParamPage) == (if opts.page != 0 then [Itoa(opts.page as int)] else [])
    ensures Url.ValuesOf(q, ParamPerPage) == (if opts.perPage != 0 then [Itoa(opts.perPage as int)] else [])
    ensures Url.ValuesOf(q, ParamZoneId) == (if opts.zoneId != "" then [opts.zoneId] else [])
    ensures forall k :: k != ParamPage && k != ParamPerPage && k != ParamZoneId ==> Url.ValuesOf(q, k) == []
    ensures q == [] <==> opts.page == 0 && opts.perPage == 0 && opts.zoneId == ""
  {
    ParamKeysDistinct();
    var q1 := Url.AddIf([], opts.page != 0, ParamPage, Itoa(opts.page as int));
    var q2 := Url.AddIf(q1, opts.perPage != 0, ParamPerPage, Itoa(opts.perPage as int));
    Url.AddIf(q2, opts.zoneId != "", ParamZoneId, opts.zoneId)
  }

  /** The URL of a record listing: the `records` resource and the encoded parameters. */
  function GetRecordsUrl(opts: GetRecordsOpts): (u: string)
    ensures Url.SplitQuery(u) == ("https://dns.hetzner.com/api/v1/records", Url.Encode(RecordQuery(opts)))
  {
    ListingUrl(Url.Encode(RecordQuery(opts)))
  }

  function ListingUrl(query: string): (u: string)
    ensures Url.SplitQuery(u) == ("https://dns.hetzner.com/api/v1/records", query)
  {
    assert BaseUrl + "records?" == "https://dns.hetzner.com/api/v1/records" + "?";
    Url.SplitQueryJoin("https://dns.hetzner.com/api/v1/records", query);
    BaseUrl + "records?" + query
  }

  /** The URL of record creation: the `records` resource, without a query. */
  function CreateRecordUrl(): (u: string)
    ensures Url.SplitQuery(u) == ("https://dns.hetzner.com/api/v1/records", "")
  {
    assert BaseUrl + "records" == "https://dns.hetzner.com/api/v1/records";
    Url.SplitQueryNone(BaseUrl + "records");
    BaseUrl + "records"
  }

  /** With every option at its zero value the listing sends an empty query. */
  lemma ZeroOptionsSendNoQuery()
    ensures RecordQuery(GetRecordsOpts("", 0, 0)) == []
    ensures Url.ParseQuery(Url.SplitQuery(GetRecordsUrl(GetRecordsOpts("", 0, 0))).1) == []
  {
  }

  /** A listing URL read back gives the parameter list, as long as the zone id holds no '&'. */
  lemma ListingQueryReadsBack(opts: GetRecordsOpts)
    requires '&' !in opts.zoneId
    ensures Url.ParseQuery(Url.SplitQuery(GetRecordsUrl(opts)).1) == RecordQuery(opts)
  {
    var page, perPage := Itoa(opts.page as int), Itoa(opts.perPage as int);
    Url.ItoaPlain(ParamPage, opts.page as int);
    Url.ItoaPlain(ParamPerPage, opts.perPage as int);
    var q1 := Url.AddIf([], opts.page != 0, ParamPage, page);
    Url.AddIfPlain([], opts.page != 0, ParamPage, page);
    var q2 := Url.AddIf(q1, opts.perPage != 0, ParamPerPage, perPage);
    Url.AddIfPlain(q1, opts.perPage != 0, ParamPerPage, perPage);
    Url.AddIfPlain(q2, opts.zoneId != "", ParamZoneId, opts.zoneId);
    Url.ParseEncode(RecordQuery(opts));
  }

  /** Zone "z1", ten per page, page 100: the three parameters, each once, in the order they are added. */
  lemma ThreeFilterQuery()
    ensures Url.Encode(RecordQuery(GetRecordsOpts("z1", 10, 100))) == "page=100" + "&" + "per_page=10" + "&" + "zone_id=z1"
  {
    ThreeFilterParams();
    ThreeFilterEncoding();
  }

  /** The example's three pairs joined into a raw query. */
  lemma ThreeFilterEncoding()
    ensures Url.Encode([Url.Param("page", "100"), Url.Param("per_page", "10"), Url.Param("zone_id", "z1")])
         == "page=100" + "&" + "per_page=10" + "&" + "zone_id=z1"
  {
    var q := [Url.Param("page", "100"), Url.Param("per_page", "10"), Url.Param("zone_id", "z1")];
    assert Url.EncodeParam(q[0]) == "page=100";
    assert Url.EncodeParam(q[1]) == "per_page=10";
    assert Url.Encode(q[2..]) == Url.EncodeParam(q[2]) == "zone_id=z1";
    assert Url.Encode(q[1..]) == "per_page=10" + "&" + "zone_id=z1";
  }

  /** The example's options give these three pairs, in this order. */
  lemma ThreeFilterParams()
    ensures RecordQuery(GetRecordsOpts("z1", 10, 100))
         == [Url.Param("page", "100"), Url.Param("per_page", "10"), Url.Param("zone_id", "z1")]
  {
    TenAndHundred();
  }

  /** The decimal renderings the example above needs. */
  lemma TenAndHundred()
    ensures Itoa(10) == "10" && Itoa(100) == "100"
  {
    assert Decimal(1) == "1";
    assert Decimal(10) == Decimal(1) + [DigitChar(0)];
    assert Decimal(100) == Decimal(10) + [DigitChar(0)];
  }

  /**
   * The body of record creation: name, type, value and zone id always, in
   * that order around the TTL, which is left out exactly when it is zero.
   */
  function CreateRecordBody(opts: CreateRecordOpts): (body: Json.Object)
    ensures Json.Names(body)
      == if opts.ttl == 0 then ["name", "type", "value", "zone_id"] else ["name", "ttl", "type", "value", "zone_id"]
    ensures Json.Lookup(body, "ttl") == if opts.ttl == 0 then None else Some(Json.Number(opts.ttl as int))
    ensures Json.Lookup(body, "name") == Some(Json.String(opts.name))
    ensures Json.Lookup(body, "type") == Some(Json.String(opts.recordType))
    ensures Json.Lookup(body, "value") == Some(Json.String(opts.value))
    ensures Json.Lookup(body, "zone_id") == Some(Json.String(opts.zoneId))
  {
    if opts.ttl == 0 then BodyWithoutTtl(opts) else BodyWithTtl(opts)
  }

  /** The creation body when the TTL is zero and so left out. */
  function BodyWithoutTtl(opts: CreateRecordOpts): (body: Json.Object)
    ensures Json.Names(body) == ["name", "type", "value", "zone_id"]
    ensures Json.Lookup(body, "ttl") == None
    ensures Json.Lookup(body, "name") == Some(Json.String(opts.name))
    ensures Json.Lookup(body, "type") == Some(Json.String(opts.recordType))
    ensures Json.Lookup(body, "value") == Some(Json.String(opts.value))
    ensures Json.Lookup(body, "zone_id") == Some(Json.String(opts.zoneId))
  {
    var body := [ Json.Member("name", Json.String(opts.name)),
                  Json.Member("type", Json.String(opts.recordType)),
                  Json.Member("value", Json.String(opts.value)),
                  Json.Member("zone_id", Json.String(opts.zoneId)) ];
    assert Json.Names(body) == [body[0].name, body[1].name, body[2].name, body[3].name];
    assert Json.DistinctNames(body);
    Json.LookupDistinct(body, 0);
    Json.LookupDistinct(body, 1);
    Json.LookupDistinct(body, 2);
    Json.LookupDistinct(body, 3);
    body
  }

  /** The creation body when the TTL is set. */
  function BodyWithTtl(opts: CreateRecordOpts): (body: Json.Object)
    ensures Json.Names(body) == ["name", "ttl", "type", "value", "zone_id"]
    ensures Json.Lookup(body, "ttl") == Some(Json.Number(opts.ttl as int))
    ensures Json.Lookup(body, "name") == Some(Json.String(opts.name))
    ensures Json.Lookup(body, "type") == Some(Json.String(opts.recordType))
    ensures Json.Lookup(body, "value") == Some(Json.String(opts.value))
    ensures Json.Lookup(body, "zone_id") == Some(Json.String(opts.zoneId))
  {
    var body := [ Json.Member("name", Json.String(opts.name)),
                  Json.Member("ttl", Json.Number(opts.ttl as int)),
                  Json.Member("type", Json.String(opts.recordType)),
                  Json.Member("value", Json.String(opts.value)),
                  Json.Member("zone_id", Json.String(opts.zoneId)) ];
    assert Json.Names(body) == [body[0].name, body[1].name, body[2].name, body[3].name, body[4].name];
    assert Json.DistinctNames(body);
    Json.LookupDistinct(body, 0);
    Json.LookupDistinct(body, 1);
    Json.LookupDistinct(body, 2);
    Json.LookupDistinct(body, 3);
    Json.LookupDistinct(body, 4);
    body
  }

  /**
   * Reading a JSON object into a `Record`: absent members keep their zero
   * value; a member of the wrong type or a TTL outside 64 bits fails.
   */
  function DecodeRecord(obj: Json.Object): Option<Record>
  {
    var recordType, id := Json.StringField(obj, "type"), Json.StringField(obj, "id");
    var created, modified := Json.StringField(obj, "created"), Json.StringField(obj, "modified");
    var zoneId, name := Json.StringField(obj, "zone_id"), Json.StringField(obj, "name");
    var value, ttl := Json.StringField(obj, "value"), Json.Int64Field(obj, "ttl");
    if recordType.Some? && id.Some? && created.Some? && modified.Some? && zoneId.Some? && name.Some?
       && value.Some? && ttl.Some?
    then Some(Record(recordType.value, id.value, created.value, modified.value, zoneId.value, name.value,
                     value.value, ttl.value))
    else None
  }

  /**
   * A server echoing the creation body back yields a record with the same
   * name, type, value, zone id and TTL (a zero TTL, left out, reads back as
   * zero); identifier and timestamps are the server's and stay empty.
   */
  lemma EchoRoundTrip(opts: CreateRecordOpts)
    requires opts.ttl as int <= Int64Max
    ensures DecodeRecord(CreateRecordBody(opts))
      == Some(Record(opts.recordType, "", "", "", opts.zoneId, opts.name, opts.value, opts.ttl as int as int64))
  {
    var body := CreateRecordBody(opts);
    ServerFieldsNotSent(Json.Names(body));
    DecodeRecordFields(body, Record(opts.recordType, "", "", "", opts.zoneId, opts.name, opts.value, opts.ttl as int as int64));
  }

  /** A record is read from any object whose members decode to its fields. */
  lemma DecodeRecordFields(obj: Json.Object, r: Record)
    requires Json.StringField(obj, "type") == Some(r.recordType) && Json.StringField(obj, "id") == Some(r.id)
    requires Json.StringField(obj, "created") == Some(r.created) && Json.StringField(obj, "modified") == Some(r.modified)
    requires Json.StringField(obj, "zone_id") == Some(r.zoneId) && Json.StringField(obj, "name") == Some(r.name)
    requires Json.StringField(obj, "value") == Some(r.value) && Json.Int64Field(obj, "ttl") == Some(r.ttl)
    ensures DecodeRecord(obj) == Some(r)
  {
  }

  /** The identifier and the timestamps are not among the members a creation body can have. */
  lemma ServerFieldsNotSent(names: seq<string>)
    requires names == ["name", "type", "value", "zone_id"] || names == ["name", "ttl", "type", "value", "zone_id"]
    ensures "id" !in names && "created" !in names && "modified" !in names
  {
  }

  /** A TTL beyond the 64-bit signed range is sent, but cannot be read back into a record. */
  lemma EchoTtlOverflow(opts: CreateRecordOpts)
    requires opts.ttl as int > Int64Max
    ensures DecodeRecord(CreateRecordBody(opts)) == None
  {
  }

  /**
   * How a record listing reads a response: 200 is decoded and a decoding
   * failure becomes an unknown error; 401 carries the request URL; 406 is
   * fatal; every other status (400, 403 and 404 among them) is unknown.
   */
  function ClassifyGetRecords(requestUrl: string, response: Response, envelope: Result<RecordsResponse, string>)
    : (o: Outcome<Records>)
    ensures o.ReachedDecoding() <==> response.statusCode == StatusOK
    ensures o.Success? <==> response.statusCode == StatusOK && envelope.Ok?
    ensures o.Success? ==> o.value == envelope.value.records
    ensures response.statusCode == StatusOK && envelope.Err? ==> o == Unknown(BadEnvelope(envelope.error))
    ensures o == Unauthorized(Url(requestUrl)) <==> response.statusCode == StatusUnauthorized
    ensures o == Fatal406 <==> response.statusCode == StatusNotAcceptable
    ensures o == Unknown(UnexpectedStatus(response.status, response.body))
      <==> response.statusCode !in {StatusOK, StatusUnauthorized, StatusNotAcceptable}
  {
    if response.statusCode == StatusOK then
      match envelope
      case Ok(r) => Success(r.records)
      case Err(message) => Unknown(BadEnvelope(message))
    else if response.statusCode == StatusUnauthorized then Unauthorized(Url(requestUrl))
    else if response.statusCode == StatusNotAcceptable then Fatal406
    else Unknown(UnexpectedStatus(response.status, response.body))
  }

  /**
   * How record creation reads a response: only 200 is decoded (201 is
   * unknown) and a decoding failure becomes an unknown error; 401, 403 and
   * 422 carry the request URL, not the body; 406 is fatal; every other
   * status is unknown.
   */
  function ClassifyCreateRecord(requestUrl: string, response: Response, envelope: Result<CreateRecordResponse, string>)
    : (o: Outcome<Record>)
    ensures o.ReachedDecoding() <==> response.statusCode == StatusOK
    ensures o.Success? <==> response.statusCode == StatusOK && envelope.Ok?
    ensures o.Success? ==> o.value == envelope.value.record
    ensures response.statusCode == StatusOK && envelope.Err? ==> o == Unknown(BadEnvelope(envelope.error))
    ensures o == Unauthorized(Url(requestUrl)) <==> response.statusCode == StatusUnauthorized
    ensures o == Forbidden(Url(requestUrl)) <==> response.statusCode == StatusForbidden
    ensures o == Unprocessable(Url(requestUrl)) <==> response.statusCode == StatusUnprocessableEntity
    ensures o == Fatal406 <==> response.statusCode == StatusNotAcceptable
    ensures o == Unknown(UnexpectedStatus(response.status, response.body))
      <==> response.statusCode !in {StatusOK, StatusUnauthorized, StatusForbidden, StatusNotAcceptable,
                                    StatusUnprocessableEntity}
  {
    if response.statusCode == StatusOK then
      match envelope
      case Ok(r) => Success(r.record)
      case Err(message) => Unknown(BadEnvelope(message))
    else if response.statusCode == StatusUnauthorized then Unauthorized(Url(requestUrl))
    else if response.statusCode == StatusForbidden then Forbidden(Url(requestUrl))
    else if response.statusCode == StatusNotAcceptable then Fatal406
    else if response.statusCode == StatusUnprocessableEntity then Unprocessable(Url(requestUrl))
    else Unknown(UnexpectedStatus(response.status, response.body))
  }

  /** A record listing departs from the uniform table exactly at 400, 403, 404 and 422, which it reports as unknown. */
  lemma GetRecordsAgainstUniformTable(requestUrl: string, response: Response, envelope: Result<RecordsResponse, string>)
    ensures KindOf(ClassifyGetRecords(requestUrl, response, envelope)) == UniformKind(response.statusCode, StatusOK)
        <==> response.statusCode !in {StatusBadRequest, StatusForbidden, StatusNotFound, StatusUnprocessableEntity}
  {
  }

  /** Record creation departs from the uniform table exactly at 400 and 404, which it reports as unknown. */
  lemma CreateRecordAgainstUniformTable(requestUrl: string, response: Response, envelope: Result<CreateRecordResponse, string>)
    ensures KindOf(ClassifyCreateRecord(requestUrl, response, envelope)) == UniformKind(response.statusCode, StatusOK)
        <==> response.statusCode !in {StatusBadRequest, StatusNotFound}
  {
  }

  /**
   * The listing with no options: the request carries no query, and a 200
   * whose body decodes to one record yields exactly that record, no error.
   */
  lemma NoOptionsListingScenario(record: Record, body: string)
    ensures Url.ParseQuery(Url.SplitQuery(GetRecordsUrl(GetRecordsOpts("", 0, 0))).1) == []
    ensures ClassifyGetRecords(GetRecordsUrl(GetRecordsOpts("", 0, 0)), Response(StatusOK, "OK", body),
                               Ok(RecordsResponse([record])))
         == Success([record])
  {
    ZeroOptionsSendNoQuery();
  }

  /** Lists records: GETs `records` with the options' query, then reads the reply. */
  method GetRecords(h: DnsClient, opts: GetRecordsOpts, reply: Reply<RecordsResponse>)
    returns (request: Request, outcome: Outcome<Records>)
    ensures fresh(request)
    ensures request.verb == Get && request.url == GetRecordsUrl(opts) && request.body == None
    ensures request.header == WithApiHeaders(map[], h.authToken)
    ensures reply.NoResponse? ==> outcome == TransportFailed(reply.message)
    ensures reply.Answered? ==> outcome == ClassifyGetRecords(request.url, reply.response, reply.envelope)
    ensures unchanged(h)
  {
    request := new Request(Get, GetRecordsUrl(opts), None);
    h.AddHeaderToRequest(request);
    match reply
    case NoResponse(message) =>
      outcome := TransportFailed(message);
    case Answered(response, envelope) =>
      outcome := ClassifyGetRecords(request.url, response, envelope);
  }

  /** Creates a record: POSTs the body to `records`, then reads the reply. */
  method CreateRecord(h: DnsClient, opts: CreateRecordOpts, reply: Reply<CreateRecordResponse>)
    returns (request: Request, outcome: Outcome<Record>)
    ensures fresh(request)
    ensures request.verb == Post && request.url == CreateRecordUrl()
    ensures request.body == Some(CreateRecordBody(opts))
    ensures request.header == WithApiHeaders(map[], h.authToken)
    ensures reply.NoResponse? ==> outcome == TransportFailed(reply.message)
    ensures reply.Answered? ==> outcome == ClassifyCreateRecord(request.url, reply.response, reply.envelope)
    ensures unchanged(h)
  {
    request := new Request(Post, CreateRecordUrl(), Some(CreateRecordBody(opts)));
    h.AddHeaderToRequest(request);
    match reply
    case NoResponse(message) =>
      outcome := TransportFailed(message);
    case Answered(response, envelope) =>
      outcome := ClassifyCreateRecord(request.url, response, envelope);
  }
}
