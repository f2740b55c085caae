# hetzner-dns-go in Dafny

A model of the decision logic of `hetzner-dns-go`, a Go client for the
Hetzner DNS REST API. Three pieces are modelled and proved:

1. **Option-to-query translation.** `ListZoneOpts` and `GetRecordsOpts`
   become `url.Values`: a parameter is added only when its field is
   non-zero or non-empty. In the zone listing, `name` is gated on the
   search name and not on the name itself.
2. **Response classification.** Each of the five operations (`CreateZone`,
   `GetZones`, `GetZone`, `GetRecords`, `CreateRecord`) switches on the
   status code. Each has its own table, written as a pure classifier that
   returns an `Outcome`. Possible outcomes: success, a named error
   carrying the body or the request URL, an unknown error, a decoding
   failure, a transport failure, or `Fatal406` (the Go code panics on 406).
3. **Request shape.** Each operation builds a URL from the base constant,
   which ends in `/`, and a JSON body where it has one. The client's
   `addHeaderToRequest` appends the token and the JSON content type to the
   request's header map in place. It never changes the client's own fields.

Layout, one module per file:

- `wrappers.dfy`: `Option`, `Result`.
- `strconv.dfy`: 64-bit integer types, `strconv.Itoa` and reading it back.
- `url.dfy`: `url.Values` as a list of key/value pairs, encoding to a raw
  query and parsing it back, and splitting a URL at its `?`.
- `json.dfy`: JSON objects as ordered member lists, with the zero-value
  rules of `encoding/json` for absent members.
- `http.dfy`: status codes, responses, header maps, and a `Request` class
  whose header map is a mutable field.
- `outcomes.dfy`: `Outcome`, `Reply`, and a uniform reference status table
  (`UniformKind`), which each operation is compared against.
- `client.dfy`: the `DnsClient` class, its constructors and `AddHeaderToRequest`.
- `zones.dfy`, `records.dfy`: the entities, options, URLs, bodies,
  classifiers and operation methods of each source file.
- `api.dfy`: properties that span both files, about how the five
  operations treat the same response.

An operation method takes the transport's `Reply` as input: either no
response, or a response together with the result of decoding its envelope.
It returns the `Request` it built and the outcome.

A uniform status table would read: the success status decodes; 400,
401, 403, 404 and 422 are named errors; 406 is fatal; anything else is
unknown; a decoding failure is an unknown error. No operation of the
library follows it exactly, and this model follows the code. For each
operation, a lemma names exactly the statuses where it departs from that
uniform table. GetZone decodes on 400. Zone decoding failures are returned
unwrapped. GetZones requests `v1//zones`, with a double slash.

## Model

| member | source | states |
|---|---|---|
| Strconv.Itoa | pkg/hetznerdns/records.go:41-46 | the rendering is non-empty, starts with '-' exactly for negatives and with a digit otherwise, is all digits after the first character, and has no leading zero |
| Strconv.ParseItoa | pkg/hetznerdns/records.go:41-46 | reading a rendered integer back gives the same integer |
| Strconv.ItoaInjective | pkg/hetznerdns/zones.go:53-58 | two different page numbers never render to the same text |
| Url.AddIf | pkg/hetznerdns/records.go:41-49 | a conditional `Add` appends exactly one pair when its condition holds and none otherwise; under every key, the values are the old ones plus the new value, and only under the added key |
| Url.ValuesOfMembership | pkg/hetznerdns/records.go:40-50 | a value is listed under a key exactly when that pair was added |
| Url.Encode | pkg/hetznerdns/records.go:68 | the raw query is empty exactly when no parameter was added |
| Url.ParseEncode | pkg/hetznerdns/records.go:68 | parsing an encoded query gives back the same pairs in the same order, provided keys hold no '&' or '=' and values no '&' |
| Url.SplitQueryJoin | pkg/hetznerdns/records.go:68 | a URL built as resource + "?" + query splits back into that resource and that query |
| Json.Lookup | pkg/hetznerdns/models.go:31-40 | a member is found exactly when its name is present, and what is found is one of the object's members |
| Json.StringField | pkg/hetznerdns/models.go:32-38 | an absent member decodes to the empty string; a present JSON string decodes to its text; a present member of another type does not decode |
| Json.Int64Field | pkg/hetznerdns/models.go:39 | an absent member decodes to 0; a present number decodes exactly when it is in the signed 64-bit range, and then to itself; a present member of another type does not decode |
| Http.HeaderAdd | pkg/hetznerdns/util.go:8-9 | `Header.Add` appends under its key, keeps earlier values, and leaves every other key unchanged |
| Http.Request.constructor | pkg/hetznerdns/zones.go:142 | a new request has the given method, URL and body and an empty header map |
| Http.Request.AddHeader | pkg/hetznerdns/util.go:8 | the header map becomes the old one with the value appended under the key; nothing else changes |
| Client.WithApiHeaders | pkg/hetznerdns/util.go:7-10 | the token is appended under `Auth-API-Token` and the JSON content type under `Content-Type`; earlier values are kept and no other key changes |
| Client.FreshRequestHeaders | pkg/hetznerdns/util.go:7-10 | a request with no headers ends up with exactly the two headers, one value each |
| Client.DnsClient.New | pkg/hetznerdns/zones.go:73-80 | the client keeps the token and gets its own HTTP client with a five-second timeout |
| Client.DnsClient.WithHttpClient | pkg/hetznerdns/zones.go:82-87 | the client keeps the token and the caller's HTTP client |
| Client.DnsClient.AddHeaderToRequest | pkg/hetznerdns/util.go:7-10 | the request's header map becomes `WithApiHeaders` of its old value with the client's token; the client's token and HTTP client are unchanged |
| Zones.ZoneQuery | pkg/hetznerdns/zones.go:51-66 | `page` and `per_page` appear once each, in decimal, exactly when non-zero; `name` (carrying the name, even an empty one) and `search_name` appear exactly when the search name is non-empty; no other key appears; the list is empty exactly when page, page size and search name are all unset |
| Zones.ZeroOptionsSendNoQuery | pkg/hetznerdns/zones.go:51-66 | with all options at their zero value, no parameter is added and the URL's query is empty |
| Zones.NameIgnoredWithoutSearchName | pkg/hetznerdns/zones.go:59-61 | without a search name, the name has no effect on the request URL |
| Zones.CreateZoneUrl | pkg/hetznerdns/zones.go:103 | zone creation targets `https://dns.hetzner.com/api/v1/zones` with no query |
| Zones.GetZonesUrl | pkg/hetznerdns/zones.go:141 | the zone listing targets `https://dns.hetzner.com/api/v1//zones`, with a double slash, and carries the encoded parameters as its query |
| Zones.ListingQueryReadsBack | pkg/hetznerdns/zones.go:141 | reading the listing URL's query back gives exactly the parameter list |
| Zones.GetZoneUrl | pkg/hetznerdns/zones.go:183 | a single zone is fetched from `https://dns.hetzner.com/api/v1/zones/` followed by the id, with no query when the id holds no '?'; the URL always ends in the id |
| Zones.CreateZoneBody | pkg/hetznerdns/zones.go:90-98 | the body has exactly the members name, ttl and tld, in that order; name and ttl are passed through and tld is always "dev" |
| Zones.ClassifyCreateZone | pkg/hetznerdns/zones.go:115-137 | only 201 leads to decoding, and a decoding failure is returned as it is; 401 is a bare unauthorized error; 406 is fatal; 422 carries the body; every other status (200, 400, 403, 404 among them) is unknown with status line and body |
| Zones.ClassifyGetZones | pkg/hetznerdns/zones.go:155-179 | 200 leads to decoding, and a decoding failure is returned as it is; 400 carries the body; 401 carries the request URL; 406 is fatal; every other status is unknown |
| Zones.ClassifyGetZone | pkg/hetznerdns/zones.go:196-223 | 200 and 400 both lead to decoding, and a decoding failure is returned as it is; 401 is bare; 403 and 404 carry the body; 406 is fatal; every other status is unknown |
| Zones.CreateZoneAgainstUniformTable | pkg/hetznerdns/zones.go:115-129 | zone creation agrees with the uniform status table except at exactly 400, 403 and 404 |
| Zones.GetZonesAgainstUniformTable | pkg/hetznerdns/zones.go:155-169 | the zone listing agrees with the uniform status table except at exactly 403, 404 and 422 |
| Zones.GetZoneAgainstUniformTable | pkg/hetznerdns/zones.go:196-215 | fetching a zone agrees with the uniform status table except at exactly 400 and 422 |
| Zones.CreateZone | pkg/hetznerdns/zones.go:89-138 | POSTs the creation body to the creation URL with the client's two headers; no response is a transport failure, otherwise the outcome is `ClassifyCreateZone`; the client is unchanged |
| Zones.GetZones | pkg/hetznerdns/zones.go:140-180 | GETs the listing URL with the two headers and no body; the outcome is the transport failure or `ClassifyGetZones` applied to that URL; the client is unchanged |
| Zones.GetZone | pkg/hetznerdns/zones.go:182-224 | GETs the zone URL with the two headers and no body; the outcome is the transport failure or `ClassifyGetZone`; the client is unchanged |
| Records.RecordQuery | pkg/hetznerdns/records.go:39-51 | `page` and `per_page` appear once each, in decimal, exactly when non-zero; `zone_id` appears, verbatim, exactly when non-empty; no other key appears; the list is empty exactly when all three are unset |
| Records.ZeroOptionsSendNoQuery | pkg/hetznerdns/records.go:39-51 | with all options at their zero value, no parameter is added and the URL's query reads back as empty |
| Records.ThreeFilterQuery | pkg/hetznerdns/records.go:39-51 | zone "z1", ten per page and page 100 give exactly `page=100&per_page=10&zone_id=z1` |
| Records.GetRecordsUrl | pkg/hetznerdns/records.go:68 | the record listing targets `https://dns.hetzner.com/api/v1/records`, with a single slash, and carries the encoded parameters as its query |
| Records.ListingQueryReadsBack | pkg/hetznerdns/records.go:68 | reading the listing URL's query back gives exactly the parameter list |
| Records.CreateRecordUrl | pkg/hetznerdns/records.go:109 | record creation targets `https://dns.hetzner.com/api/v1/records` with no query |
| Records.CreateRecordBody | pkg/hetznerdns/records.go:53-59 | the body always has name, type, value and zone_id; ttl is present exactly when it is non-zero, as the `omitempty` tag asks; member order follows the struct |
| Records.EchoRoundTrip | pkg/hetznerdns/records.go:53-59 | a server echoing the creation body back yields a record with the same name, type, value, zone id and TTL |
| Records.EchoTtlOverflow | pkg/hetznerdns/records.go:55 | a TTL above the signed 64-bit range is sent, but the `int` TTL of a record cannot hold it when read back |
| Records.ClassifyGetRecords | pkg/hetznerdns/records.go:86-105 | 200 leads to decoding, and a decoding failure is wrapped as unknown; 401 carries the request URL; 406 is fatal; every other status (400, 403, 404 among them) is unknown with status line and body |
| Records.ClassifyCreateRecord | pkg/hetznerdns/records.go:128-151 | only 200 leads to decoding (201 is unknown), and a decoding failure is wrapped as unknown; 401, 403 and 422 carry the request URL rather than the body; 406 is fatal; every other status is unknown |
| Records.GetRecordsAgainstUniformTable | pkg/hetznerdns/records.go:86-97 | the record listing agrees with the uniform status table except at exactly 400, 403, 404 and 422 |
| Records.CreateRecordAgainstUniformTable | pkg/hetznerdns/records.go:128-143 | record creation agrees with the uniform status table except at exactly 400 and 404 |
| Api.DecodeFailureReporting | pkg/hetznerdns/records.go:99-103 | the same decoding failure after a success status is returned as it is by the three zone operations and wrapped as unknown by the two record operations |
| Api.UnauthorizedOnEveryOperation | pkg/hetznerdns/records.go:90-91 | a 401 gives an unauthorized error on all five operations |
| Api.FatalOnEveryOperation | pkg/hetznerdns/records.go:92-93 | a 406 is fatal on all five operations |
| Records.NoOptionsListingScenario | pkg/hetznerdns/dns_test.go:43-59 | listing with no options sends an empty query, and a 200 whose envelope holds one record yields exactly that record and no error |
| Records.GetRecords | pkg/hetznerdns/records.go:67-106 | GETs the listing URL with the two headers and no body; the outcome is the transport failure or `ClassifyGetRecords` applied to that URL; the client is unchanged |
| Records.CreateRecord | pkg/hetznerdns/records.go:108-152 | POSTs the creation body to the creation URL with the two headers; the outcome is the transport failure or `ClassifyCreateRecord`; the client is unchanged |

## Left out

- HTTP I/O (building the request, `httpClient.Do`, reading and closing the body), timeouts and context cancellation. They are transport behaviour. An operation receives the transport's `Reply` as input instead.
- `encoding/json`. Decoding a response envelope is an input, either a decoded value or the decoder's message. Record decoding (`DecodeRecord`) is modelled only to state the echo round trip. Zone decoding and the zone and pagination fields are not modelled.
- Json.Lookup: matches member names exactly, and the first of two members with the same name wins. `encoding/json` matches names case-insensitively, and a later duplicate overwrites an earlier one.
- The record type constants (`A`, `AAAA`, … `CAA`) are not modelled. `RecordType` is an open string type, and nothing in the core depends on the constants.
- Url.Encode: does not percent-escape and does not sort keys. Go's `url.Values.Encode` does both. For the record listing, insertion order is already sorted order. For the zone listing, Go writes `name` first.
- Zones.ListingQueryReadsBack: requires that name and search name hold no '&'. Without escaping, such a value would split into two parameters.
- Records.ListingQueryReadsBack: requires that the zone id holds no '&', for the same reason.
- Zones.GetZoneUrl: says nothing about the URL's path and query when the id contains '?'. Go's `http.NewRequest` would then parse the rest as a query.
- Zones.GetZone: the id is appended to the URL unescaped. Go fails to build the request for an id holding an invalid percent-escape (such as `%zz`) or a control character. It then returns `ErrCouldNotBuildRequest` (pkg/hetznerdns/zones.go:184-186) and sends nothing. The model always builds the request and reads a reply. For an id holding '#', the rest becomes a URL fragment that Go does not send; for an id holding '?', the rest becomes a query. Either way the path sent is cut short. The model captures neither.
- The other failure paths that build no request are not modelled either: `ErrCouldNotBuildRequest` after a failing `json.Marshal`, and the panic after a failing `url.Parse`. Both are unreachable for the fixed resources and the encoded queries built here, except as noted for `GetZone`.
- Header keys are stored as written. Go's `Header.Add` canonicalises them, so `Auth-API-Token` is stored as `Auth-Api-Token`.
- Error message text is not modelled. This includes `ErrUnprocessableEntity` reading "422 Not Acceptable" and the 406 panic message. The model keeps error kinds and their context. The URL an error carries is the built URL string; Go prints the parsed `request.URL`.
- `io.ReadAll` errors are ignored by the code, and the body is modelled as the whole text read.
- The 406 panic is the `Fatal406` outcome, not a control-flow exception.
- `Meta` and `createRecordResponse` are not defined in the source files modelled here. `Meta` is modelled as a pagination block, and `createRecordResponse` as a `{"record": ...}` envelope.
- pkg/hetznerdns/interface.go is not part of this model. It declares a signature that the implementation does not match.
- `http.Client` is represented only by its timeout.
