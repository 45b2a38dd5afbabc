/** The plain data classes of the migration: the per-device report, the
    mapping advice, the job configuration and the per-device metrics. */
module JobModel {
  import opened Wrappers
  import opened Records

  datatype SignalType = MEASUREMENT | EVENT | ALARM

  /** The job status values the migration uses (`OperationStatus`). */
  datatype JobStatus = PENDING | EXECUTING | SUCCESSFUL | FAILED

  /** `DeviceSignalMigrationReport`: the outcome of migrating one device. The
      builder leaves unset counters at 0 and unset strings null. */
  datatype Report = Report(
    sourceDeviceId: Option<string>,
    targetDeviceId: Option<string>,
    migrated: int,
    errors: int,
    duplicatesSkipped: int,
    error: Option<string>,
    durationSec: int)

  /** A report counts as failed when it carries an error message or a
      non-zero error counter (`rep.getError() != null || rep.getErrors() > 0`). */
  predicate HasError(r: Report)
  {
    r.error.Some? || r.errors > 0
  }

  /** The report a migrator hands over when fetching the device's signals
      throws: the message and the duration, and no device id at all. */
  function FetchFailedReport(msg: string, durationSec: int): (r: Report)
    ensures HasError(r) && r.sourceDeviceId.None? && r.targetDeviceId.None?
    ensures r.migrated == 0 && r.errors == 0 && r.duplicatesSkipped == 0
  {
    Report(None, None, 0, 0, 0, Some(msg), durationSec)
  }

  /** The report a migrator hands over after processing every fetched signal. */
  function CompletedReport(sourceDeviceId: string, targetDeviceId: string, migrated: int, errors: int,
                           duplicatesSkipped: int, durationSec: int): (r: Report)
    ensures r.sourceDeviceId == Some(sourceDeviceId) && r.targetDeviceId == Some(targetDeviceId)
    ensures r.error.None? && (HasError(r) <==> errors > 0)
  {
    Report(Some(sourceDeviceId), Some(targetDeviceId), migrated, errors, duplicatesSkipped, None, durationSec)
  }

  /** `ExternalIdMappingAdvice`: use `targetExternalId` on the target tenant
      for a source identifier whose value is `sourceExternalId`. */
  datatype Advice = Advice(sourceExternalId: Option<string>, targetExternalId: Option<string>)

  /** `MigrationJobConfig`. The date range is already turned into the
      signal query parameters (`getSignalQueryParams`). */
  datatype JobConfig = JobConfig(
    jobName: string,
    signalType: SignalType,
    sourcePlatformLoginString: Option<string>,
    sourcePlatformHost: string,
    targetPlatformLoginString: Option<string>,
    targetPlatformHost: string,
    sourceDevicesQuery: Option<string>,
    signalQueryParams: seq<QueryParam>,
    externalIdMappingAdvice: Option<seq<Advice>>)

  /** `DeviceSignalMetrics`: how many signals of one type a device has, and
      the date of the oldest one (null when it has none). */
  datatype DeviceSignalMetrics = DeviceSignalMetrics(
    deviceId: string,
    signalType: SignalType,
    count: int,
    dateFrom: Option<int>)
}
