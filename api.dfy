/**
 * Properties that span both source files: how the five operations treat
 * the same response.
 */
module Api {
  import opened Wrappers
  import opened Http
  import opened Outcomes
  import Zones
  import Records

  /**
   * The same decoding failure after a success status is reported
   * differently by the two files: the zone operations return the decoder's
   * error as it is, the record operations wrap it as an unknown error.
   */
  lemma DecodeFailureReporting(requestUrl: string, message: string, body: string)
    ensures Zones.ClassifyCreateZone(Response(StatusCreated, "Created", body), Err(message)) == DecodeFailed(message)
    ensures Zones.ClassifyGetZones(requestUrl, Response(StatusOK, "OK", body), Err(message)) == DecodeFailed(message)
    ensures Zones.ClassifyGetZone(Response(StatusOK, "OK", body), Err(message)) == DecodeFailed(message)
    ensures Records.ClassifyGetRecords(requestUrl, Response(StatusOK, "OK", body), Err(message)) == Unknown(BadEnvelope(message))
    ensures Records.ClassifyCreateRecord(requestUrl, Response(StatusOK, "OK", body), Err(message)) == Unknown(BadEnvelope(message))
  {
  }

  /** On every one of the five operations a 401 is an unauthorized error and decodes nothing. */
  lemma UnauthorizedOnEveryOperation(
    requestUrl: string, response: Response,
    zone: Result<Zones.ZoneResponse, string>, zones: Result<Zones.ZonesResponse, string>,
    records: Result<Records.RecordsResponse, string>, record: Result<Records.CreateRecordResponse, string>)
    requires response.statusCode == StatusUnauthorized
    ensures Zones.ClassifyCreateZone(response, zone).Unauthorized?
    ensures Zones.ClassifyGetZones(requestUrl, response, zones).Unauthorized?
    ensures Zones.ClassifyGetZone(response, zone).Unauthorized?
    ensures Records.ClassifyGetRecords(requestUrl, response, records).Unauthorized?
    ensures Records.ClassifyCreateRecord(requestUrl, response, record).Unauthorized?
  {
  }

  /** On every one of the five operations a 406 is the fatal outcome. */
  lemma FatalOnEveryOperation(
    requestUrl: string, response: Response,
    zone: Result<Zones.ZoneResponse, string>, zones: Result<Zones.ZonesResponse, string>,
    records: Result<Records.RecordsResponse, string>, record: Result<Records.CreateRecordResponse, string>)
    requires response.statusCode == StatusNotAcceptable
    ensures Zones.ClassifyCreateZone(response, zone) == Fatal406
    ensures Zones.ClassifyGetZones(requestUrl, response, zones) == Fatal406
    ensures Zones.ClassifyGetZone(response, zone) == Fatal406
    ensures Records.ClassifyGetRecords(requestUrl, response, records) == Fatal406
    ensures Records.ClassifyCreateRecord(requestUrl, response, record) == Fatal406
  {
  }
}
