/** The platform SDK's representations the core reads and writes, as values.
    Dates are integers (epoch milliseconds); a nullable field is an `Option`. */
module Records {
  import opened Wrappers

  /** A JSON value as found in a representation's custom fragments
      (`getAttrs()`). A Java `null` stored in a map is `JNull`. */
  datatype Json =
    | JNull
    | JBool(b: bool)
    | JNum(n: int)
    | JStr(s: string)
    | JList(items: seq<Json>)
    | JMap(fields: map<string, Json>)

  /** A REST query parameter (`QueryParam`): its name and its value. */
  datatype QueryParam = QueryParam(name: string, value: string)

  /** `AlarmRepresentation`. The first six fields are tenant-specific. */
  datatype Alarm = Alarm(
    self: Option<string>,
    id: Option<string>,
    source: Option<string>,
    lastUpdated: Option<int>,
    creationTime: Option<int>,
    history: Option<Json>,
    alarmType: string,
    text: string,
    status: string,
    count: Option<int>,
    severity: string,
    time: Option<int>,
    firstOccurrence: Option<int>,
    attrs: map<string, Json>)

  /** `EventRepresentation`. The first five fields are tenant-specific. */
  datatype Event = Event(
    self: Option<string>,
    id: Option<string>,
    source: Option<string>,
    creationTime: Option<int>,
    lastUpdated: Option<int>,
    eventType: string,
    text: string,
    time: int,
    attrs: map<string, Json>)

  /** `MeasurementRepresentation`. The value fragments live in `attrs`. */
  datatype Measurement = Measurement(
    self: Option<string>,
    id: Option<string>,
    source: Option<string>,
    creationTime: Option<int>,
    msmtType: string,
    time: int,
    attrs: map<string, Json>)

  /** `ManagedObjectRepresentation` (devices, and the objects jobs are saved in). */
  datatype ManagedObject = ManagedObject(
    id: Option<string>,
    lastUpdated: Option<int>,
    creationTime: Option<int>,
    childAdditions: Option<seq<string>>,
    childDevices: Option<seq<string>>,
    deviceParents: Option<seq<string>>,
    attrs: map<string, Json>)

  /** `ExternalIDRepresentation`: an identifier (type, value) of a device. */
  datatype ExternalId = ExternalId(idType: string, value: string)

  /** `new PlatformImpl(host, credentials)`: a connection to one tenant. */
  datatype Platform = Platform(host: string, credentials: Option<string>)

  /** The `source` query parameter (`CustomQueryParam.SOURCE`). */
  function SourceParam(deviceId: string): QueryParam
  {
    QueryParam("source", deviceId)
  }

  /** The parameters `getAlarms`, `getEvents` and `getMeasurements` send: a
      copy of the caller's parameters with one `source` parameter appended. */
  function WithSource(params: seq<QueryParam>, deviceId: string): (q: seq<QueryParam>)
    ensures |q| == |params| + 1 && q[..|params|] == params
    ensures q[|params|] == SourceParam(deviceId)
    ensures multiset(q) == multiset(params) + multiset{SourceParam(deviceId)}
  {
    params + [SourceParam(deviceId)]
  }

  /** What the migration can see of a tenant: the records each signal query
      returns (paging included), or the exception the fetch throws. */
  datatype Tenant = Tenant(
    alarms: seq<QueryParam> -> Result<seq<Alarm>>,
    events: seq<QueryParam> -> Result<seq<Event>>,
    measurements: seq<QueryParam> -> Result<seq<Measurement>>)
}
