/** graphql/app.py: the older single-bucket resolver service. Its query texts,
    record shaping and error handling are the same as the historian's raw
    path, so it reuses the query layer with its own bucket and unit table. */
module Graphql {
  import opened Common
  import opened QueryLayer

  /** Default of INFLUXDB_BUCKET. */
  const BUCKET: string := "the_bucket"

  /** The table of this service's get_unit_by_sensorType. */
  const GRAPHQL_UNITS: map<string, string> := map["temperature" := "\U{00C2}\U{00B0}C", "humidity" := "%", "electricity" := "kW"]

  /** `units.get(sensorType, "")`: this service's lookup gives the same unit as
      the historian's for every sensor type. */
  function UnitBySensorType(sensorType: string): (u: string)
    ensures u == UnitOf(sensorType)
  {
    SameUnitTable();
    if sensorType in GRAPHQL_UNITS then GRAPHQL_UNITS[sensorType] else ""
  }

  /** The two services carry one and the same unit table. */
  lemma SameUnitTable()
    ensures GRAPHQL_UNITS == UNITS
  {
  }

  /** get_all_locations over the single bucket. */
  method GetAllLocations(db: Database) returns (infos: seq<LocationInfo>)
    ensures infos == Locations(db, BUCKET)
  {
    infos := QueryLocations(db, BUCKET);
  }

  /** get_sensor_readings over the single bucket; `clock` holds the two
      `datetime.utcnow()` readings. */
  method GetSensorReadings(db: Database, req: Request, clock: Clock, iso: Instant -> string) returns (readings: seq<SensorReading>)
    ensures readings == SensorReadings(db, BUCKET, req, clock, iso)
  {
    readings := QueryReadings(db, BUCKET, req, clock, iso);
  }
}
