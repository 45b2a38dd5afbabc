/** `MigrationJobService`: starting, retrying and saving migration jobs,
    finding each source device's counterpart on the target tenant, and
    turning the outcome of every device task into one report on the job.
    The thread pool is modelled by the ordered list of devices handed to it;
    each device task, and each completion callback, is one sequential step. */
module JobService {
  import opened Wrappers
  import opened Records
  import opened JobModel
  import opened Jobs
  import PlatformUtil
  import ManagedObjectUtil
  import C8yService
  import AlarmMigration
  import EventMigration
  import MeasurementMigration

  /** `MigrationJobService.JOB_FRAGMENT_NAME`: where a job is stored. */
  const JOB_FRAGMENT_NAME: string := "signalMigrationJob"

  const NOT_COMPLETED: string := "Job is not completed!"
  const NO_ERRORS_TO_RETRY: string := "No device migration errors found! Will not retry."
  /** The identifier type the resolver never uses. */
  const IGNORED_EXT_ID_TYPE: string := "c8y_OpcuaDevice"
  const NO_SUITABLE_IDS: string := "no suitable external ids of id "
  const NO_TARGET_DEVICE: string := "unable to find target device for source device id: "

  /** What the service can see of the platforms and of the components it
      calls: the source devices a query selects, a device's external
      identifiers, the lookup of an identifier on the target, the signals of
      each tenant, and, per device task, the fingerprints, the writes the
      target refuses and the time the task took. */
  datatype Environment = Environment(
    devices: (Platform, Option<string>) -> Result<seq<ManagedObject>>,
    externalIds: (Platform, string) -> Result<seq<ExternalId>>,
    lookup: (Platform, string, Option<string>) -> Result<Option<ManagedObject>>,
    tenant: Platform -> Tenant,
    alarmFingerprint: Alarm -> int,
    eventFingerprint: Event -> int,
    measurementFingerprint: Measurement -> int,
    maxAlarmCount: int,
    writeFailures: string -> set<nat>,
    durationSec: string -> int)

  // ---------------------------------------------------------------------
  // Saving and loading a job

  /** The fields of a `MigrationJob`, as stored. */
  datatype JobState = JobState(
    config: JobConfig,
    numTotalDevices: int,
    numCompletedDevices: int,
    sourcePlatform: Option<Platform>,
    targetPlatform: Option<Platform>,
    c8yId: Option<string>,
    status: JobStatus,
    deviceReports: seq<Report>,
    version: int)

  function StateOf(job: MigrationJob): JobState
    reads job
  {
    JobState(job.config, job.numTotalDevices, job.numCompletedDevices, job.sourcePlatform,
             job.targetPlatform, job.c8yId, job.status, job.deviceReports, job.version)
  }

  /** The object `doSaveJob` sends: a new representation holding the job's
      fields under JOB_FRAGMENT_NAME, carrying the job's platform id when it
      has one. */
  function JobObject(fields: map<string, Json>, c8yId: Option<string>): (mo: ManagedObject)
    ensures mo.id == c8yId && mo.attrs == map[JOB_FRAGMENT_NAME := JMap(fields)]
    ensures mo.lastUpdated.None? && mo.creationTime.None?
    ensures mo.childAdditions.None? && mo.childDevices.None? && mo.deviceParents.None?
  {
    ManagedObjectUtil.WriteObjectAsFragment(ManagedObject(c8yId, None, None, None, None, None, map[]), fields, JOB_FRAGMENT_NAME)
  }

  /** The write `doSaveJob` sends: a create for a job never saved, an update
      of its object otherwise. */
  function SaveCall(fields: map<string, Json>, c8yId: Option<string>): C8yService.InventoryCall
  {
    if c8yId.None? then C8yService.CreateMo(JobObject(fields, None))
    else C8yService.UpdateMo(JobObject(fields, c8yId))
  }

  /** `loadJob` applied to the object fetched: the job read from its
      fragment, given the object's id. A missing fragment or a missing id
      dereferences null. */
  function LoadJob(mo: ManagedObject, convert: map<string, Json> -> JobState): Result<JobState>
  {
    match ManagedObjectUtil.ReadObjectFromFragment(mo, JOB_FRAGMENT_NAME, convert)
    case Err(e) => Err(e)
    case Ok(None) => Err(NPE)
    case Ok(Some(s)) => if mo.id.None? then Err(NPE) else Ok(s.(c8yId := mo.id))
  }

  /** A saved job loads back: when converting the stored fields restores the
      job, loading the object saved under `id` gives the job with that id. */
  lemma SavedJobLoads(s: JobState, id: string, serialize: JobState -> map<string, Json>,
                      convert: map<string, Json> -> JobState)
    requires convert(serialize(s)) == s
    ensures LoadJob(JobObject(serialize(s), Some(id)), convert) == Ok(s.(c8yId := Some(id)))
  {
    assert JOB_FRAGMENT_NAME == ['s','i','g','n','a','l','M','i','g','r','a','t','i','o','n','J','o','b'];
    ManagedObjectUtil.ReadAfterWrite(ManagedObject(Some(id), None, None, None, None, None, map[]),
                                     serialize(s), JOB_FRAGMENT_NAME, convert);
  }

  // ---------------------------------------------------------------------
  // Finding the target device

  /** The source identifiers the resolver may use. */
  function Suitable(ids: seq<ExternalId>): (r: seq<ExternalId>)
    ensures forall x :: x in r <==> x in ids && x.idType != IGNORED_EXT_ID_TYPE
    ensures |r| <= |ids|
  {
    if ids == [] then []
    else
      var init, last := ids[..|ids| - 1], ids[|ids| - 1];
      assert ids == init + [last];
      if last.idType == IGNORED_EXT_ID_TYPE then Suitable(init) else Suitable(init) + [last]
  }

  /** Every advice before position `i` names a source identifier, and one
      other than `value`. */
  predicate PassedOver(advice: seq<Advice>, value: string, i: int)
    requires 0 <= i <= |advice|
  {
    forall j :: 0 <= j < i ==> advice[j].sourceExternalId.Some? && advice[j].sourceExternalId != Some(value)
  }

  /** The stream's `findFirst` over the advice list: the first advice for
      `value`, where an advice without a source identifier reached before it
      dereferences null. */
  function FirstAdvice(advice: seq<Advice>, value: string): Result<Option<Advice>>
    decreases |advice|
  {
    if advice == [] then Ok(None)
    else if advice[0].sourceExternalId.None? then Err(NPE)
    else if advice[0].sourceExternalId == Some(value) then Ok(Some(advice[0]))
    else FirstAdvice(advice[1..], value)
  }

  lemma PassedOverTail(advice: seq<Advice>, value: string, i: int)
    requires 1 <= i <= |advice|
    ensures PassedOver(advice, value, i) <==>
      advice[0].sourceExternalId.Some? && advice[0].sourceExternalId != Some(value) && PassedOver(advice[1..], value, i - 1)
  {
    if advice[0].sourceExternalId.Some? && advice[0].sourceExternalId != Some(value) && PassedOver(advice[1..], value, i - 1) {
      forall j | 0 <= j < i
        ensures advice[j].sourceExternalId.Some? && advice[j].sourceExternalId != Some(value)
      {
        if j > 0 {
          assert advice[j] == advice[1..][j - 1];
        }
      }
    }
    if PassedOver(advice, value, i) {
      forall j | 0 <= j < i - 1
        ensures advice[1..][j].sourceExternalId.Some? && advice[1..][j].sourceExternalId != Some(value)
      {
        assert advice[1..][j] == advice[j + 1];
      }
    }
  }

  /** The advice used for `value` is the first one naming it, provided every
      advice before it names some identifier; none is used when every advice
      names another identifier; and an advice without a source identifier
      before any match is a null dereference. */
  lemma {:induction false} FirstAdviceMeaning(advice: seq<Advice>, value: string, i: int)
    requires 0 <= i <= |advice| && PassedOver(advice, value, i)
    decreases |advice|
    ensures i < |advice| && advice[i].sourceExternalId == Some(value) ==> FirstAdvice(advice, value) == Ok(Some(advice[i]))
    ensures i < |advice| && advice[i].sourceExternalId.None? ==> FirstAdvice(advice, value) == Err(NPE)
    ensures i == |advice| ==> FirstAdvice(advice, value) == Ok(None)
  {
    if i > 0 {
      PassedOverTail(advice, value, i);
      FirstAdviceMeaning(advice[1..], value, i - 1);
      if i < |advice| {
        assert advice[1..][i - 1] == advice[i];
      }
    }
  }

  /** The identifier value the resolver looks up for one source identifier:
      the target value of the advice used (which may be null), or else the
      identifier's own value. */
  function TargetValue(advice: Option<seq<Advice>>, ext: ExternalId): Result<Option<string>>
  {
    if advice.None? then Ok(Some(ext.value))
    else
      match FirstAdvice(advice.value, ext.value)
      case Err(m) => Err(m)
      case Ok(None) => Ok(Some(ext.value))
      case Ok(Some(a)) => Ok(a.targetExternalId)
  }

  /** Without advice, or with none naming the identifier, the identifier is
      looked up by its own value; with advice naming it, by the advised
      value. */
  lemma AdviceRule(advice: Option<seq<Advice>>, ext: ExternalId)
    ensures advice.None? ==> TargetValue(advice, ext) == Ok(Some(ext.value))
    ensures advice.Some? && PassedOver(advice.value, ext.value, |advice.value|) ==>
      TargetValue(advice, ext) == Ok(Some(ext.value))
    ensures advice.Some? ==> forall i :: 0 <= i < |advice.value| && PassedOver(advice.value, ext.value, i) ==>
      && (advice.value[i].sourceExternalId == Some(ext.value) ==> TargetValue(advice, ext) == Ok(advice.value[i].targetExternalId))
      && (advice.value[i].sourceExternalId.None? ==> TargetValue(advice, ext) == Err(NPE))
  {
    if advice.Some? {
      if PassedOver(advice.value, ext.value, |advice.value|) {
        FirstAdviceMeaning(advice.value, ext.value, |advice.value|);
      }
      forall i | 0 <= i < |advice.value| && PassedOver(advice.value, ext.value, i)
        ensures advice.value[i].sourceExternalId == Some(ext.value) ==> TargetValue(advice, ext) == Ok(advice.value[i].targetExternalId)
        ensures advice.value[i].sourceExternalId.None? ==> TargetValue(advice, ext) == Err(NPE)
      {
        FirstAdviceMeaning(advice.value, ext.value, i);
      }
    }
  }

  /** What trying one source identifier gives: the target device's id, a
      failed lookup (any exception of the lookup, a missing target platform
      included, is caught and the next identifier tried), or an exception
      that ends the search. */
  datatype Attempt = Found(targetDeviceId: string) | Skipped | Thrown(msg: string)

  function TryIdentifier(env: Environment, advice: Option<seq<Advice>>, targetPlatform: Option<Platform>, ext: ExternalId): Attempt
  {
    match TargetValue(advice, ext)
    case Err(m) => Thrown(m)
    case Ok(value) =>
      var found: Result<Option<ManagedObject>> :=
        if targetPlatform.None? then Err(NPE) else env.lookup(targetPlatform.value, ext.idType, value);
      match found
      case Err(_) => Skipped
      case Ok(None) => Thrown(NPE)
      case Ok(Some(mo)) => if mo.id.None? then Thrown(NPE) else Found(mo.id.value)
  }

  /** The search over the suitable identifiers, in order. */
  function FirstFound(env: Environment, advice: Option<seq<Advice>>, targetPlatform: Option<Platform>,
                      ids: seq<ExternalId>, sourceDeviceId: string): Result<string>
    decreases |ids|
  {
    if ids == [] then Err(NO_TARGET_DEVICE + sourceDeviceId)
    else
      match TryIdentifier(env, advice, targetPlatform, ids[0])
      case Found(id) => Ok(id)
      case Thrown(m) => Err(m)
      case Skipped => FirstFound(env, advice, targetPlatform, ids[1..], sourceDeviceId)
  }

  /** `getTargetDeviceForSourceByExtId`, as a function of what the platforms
      answer. */
  function ResolveTarget(env: Environment, sourceDeviceId: string, advice: Option<seq<Advice>>,
                         sourcePlatform: Option<Platform>, targetPlatform: Option<Platform>): Result<string>
  {
    if sourcePlatform.None? then Err(NPE)
    else
      match env.externalIds(sourcePlatform.value, sourceDeviceId)
      case Err(m) => Err(m)
      case Ok(all) =>
        var ids := Suitable(all);
        if ids == [] then Err(NO_SUITABLE_IDS + sourceDeviceId)
        else FirstFound(env, advice, targetPlatform, ids, sourceDeviceId)
  }

  /** Every identifier before position `i` gave a failed lookup. */
  predicate AllSkipped(env: Environment, advice: Option<seq<Advice>>, targetPlatform: Option<Platform>,
                       ids: seq<ExternalId>, i: int)
    requires 0 <= i <= |ids|
  {
    forall j :: 0 <= j < i ==> TryIdentifier(env, advice, targetPlatform, ids[j]).Skipped?
  }

  /** The search stops at the first identifier whose try did not fail its
      lookup, with that identifier's target device or exception; when every
      lookup failed it reports that no target device was found. */
  lemma {:induction false} FirstFoundMeaning(env: Environment, advice: Option<seq<Advice>>, targetPlatform: Option<Platform>,
                                             ids: seq<ExternalId>, sourceDeviceId: string, i: int)
    requires 0 <= i <= |ids| && AllSkipped(env, advice, targetPlatform, ids, i)
    decreases i
    ensures i < |ids| && TryIdentifier(env, advice, targetPlatform, ids[i]).Found? ==>
      FirstFound(env, advice, targetPlatform, ids, sourceDeviceId) == Ok(TryIdentifier(env, advice, targetPlatform, ids[i]).targetDeviceId)
    ensures i < |ids| && TryIdentifier(env, advice, targetPlatform, ids[i]).Thrown? ==>
      FirstFound(env, advice, targetPlatform, ids, sourceDeviceId) == Err(TryIdentifier(env, advice, targetPlatform, ids[i]).msg)
    ensures i == |ids| ==> FirstFound(env, advice, targetPlatform, ids, sourceDeviceId) == Err(NO_TARGET_DEVICE + sourceDeviceId)
  {
    if i > 0 {
      var tail := ids[1..];
      assert TryIdentifier(env, advice, targetPlatform, ids[0]).Skipped?;
      forall j | 0 <= j < i - 1
        ensures TryIdentifier(env, advice, targetPlatform, tail[j]).Skipped?
      {
        assert tail[j] == ids[j + 1];
      }
      FirstFoundMeaning(env, advice, targetPlatform, tail, sourceDeviceId, i - 1);
      if i < |ids| {
        assert tail[i - 1] == ids[i];
      }
    }
  }

  /** The identifiers of a device that are all of the ignored type leave the
      resolver nothing to try. */
  lemma OnlyIgnoredIds(env: Environment, sourceDeviceId: string, advice: Option<seq<Advice>>,
                       sourcePlatform: Option<Platform>, targetPlatform: Option<Platform>)
    requires sourcePlatform.Some? && env.externalIds(sourcePlatform.value, sourceDeviceId).Ok?
    requires forall x :: x in env.externalIds(sourcePlatform.value, sourceDeviceId).value ==> x.idType == IGNORED_EXT_ID_TYPE
    ensures ResolveTarget(env, sourceDeviceId, advice, sourcePlatform, targetPlatform) == Err(NO_SUITABLE_IDS + sourceDeviceId)
  {
  }

  /** Without a target platform every lookup fails, so no device is found. */
  lemma {:induction false} NoTargetPlatform(env: Environment, advice: Option<seq<Advice>>, ids: seq<ExternalId>, sourceDeviceId: string)
    decreases |ids|
    ensures FirstFound(env, advice, None, ids, sourceDeviceId).Err?
  {
    if ids != [] {
      NoTargetPlatform(env, advice, ids[1..], sourceDeviceId);
    }
  }

  /** A target is found only when both platforms are known. */
  lemma FoundNeedsPlatforms(env: Environment, sourceDeviceId: string, advice: Option<seq<Advice>>,
                            sourcePlatform: Option<Platform>, targetPlatform: Option<Platform>)
    ensures ResolveTarget(env, sourceDeviceId, advice, sourcePlatform, targetPlatform).Ok? ==>
      sourcePlatform.Some? && targetPlatform.Some?
  {
    if sourcePlatform.Some? && targetPlatform.None? && env.externalIds(sourcePlatform.value, sourceDeviceId).Ok? {
      NoTargetPlatform(env, advice, Suitable(env.externalIds(sourcePlatform.value, sourceDeviceId).value), sourceDeviceId);
    }
  }

  // ---------------------------------------------------------------------
  // Starting a job

  /** What a job start needs before its first save: both platforms and the
      ids of the source devices. */
  datatype Started = Started(source: Platform, target: Platform, deviceIds: seq<string>)

  /** The preparation of `runMigrationJob`: resolving the source and then the
      target platform, querying the source devices and reading their ids (a
      device without an id dereferences null). */
  function Start(settings: PlatformUtil.LocalSettings, env: Environment, config: JobConfig): Result<Started>
  {
    match PlatformUtil.ResolvePlatform(settings, config.sourcePlatformHost, config.sourcePlatformLoginString)
    case Err(m) => Err(m)
    case Ok(sp) =>
      match PlatformUtil.ResolvePlatform(settings, config.targetPlatformHost, config.targetPlatformLoginString)
      case Err(m) => Err(m)
      case Ok(tp) =>
        match env.devices(sp, config.sourceDevicesQuery)
        case Err(m) => Err(m)
        case Ok(mos) =>
          match C8yService.Ids(mos)
          case None => Err(NPE)
          case Some(ids) => Ok(Started(sp, tp, ids))
  }

  /** The devices a start hands to the pool: those whose `isDeviceProcessed`
      is false, in order, or the exception the first failing check throws. */
  function Pending(reports: seq<Report>, ids: seq<string>): Result<seq<string>>
  {
    if ids == [] then Ok([])
    else
      match Pending(reports, ids[..|ids| - 1])
      case Err(m) => Err(m)
      case Ok(p) =>
        match ProcessedIn(reports, ids[|ids| - 1])
        case Err(m) => Err(m)
        case Ok(true) => Ok(p)
        case Ok(false) => Ok(p + [ids[|ids| - 1]])
  }

  /** The dispatch succeeds exactly when every device can be checked, and it
      hands over exactly the devices not yet processed. */
  lemma {:induction false} PendingMeaning(reports: seq<Report>, ids: seq<string>)
    ensures Pending(reports, ids).Ok? <==> forall i :: 0 <= i < |ids| ==> ProcessedIn(reports, ids[i]).Ok?
    ensures Pending(reports, ids).Ok? ==>
      forall x :: x in Pending(reports, ids).value <==> x in ids && ProcessedIn(reports, x) == Ok(false)
    ensures Pending(reports, ids).Ok? ==> |Pending(reports, ids).value| <= |ids|
  {
    if ids != [] {
      var init, last := ids[..|ids| - 1], ids[|ids| - 1];
      assert ids == init + [last];
      PendingMeaning(reports, init);
      if !(forall i :: 0 <= i < |init| ==> ProcessedIn(reports, init[i]).Ok?) {
        var i :| 0 <= i < |init| && !ProcessedIn(reports, init[i]).Ok?;
        assert ids[i] == init[i];
      }
      if forall i :: 0 <= i < |ids| ==> ProcessedIn(reports, ids[i]).Ok? {
        forall i | 0 <= i < |init|
          ensures ProcessedIn(reports, init[i]).Ok?
        {
          assert init[i] == ids[i];
        }
      }
    }
  }

  /** A resumed job whose reports all name their device hands over exactly
      the devices without a report. */
  lemma ResumeSkipsReported(reports: seq<Report>, ids: seq<string>)
    requires forall i :: 0 <= i < |reports| ==> reports[i].sourceDeviceId.Some?
    ensures Pending(reports, ids).Ok?
    ensures forall x :: x in Pending(reports, ids).value <==>
      x in ids && forall i :: 0 <= i < |reports| ==> reports[i].sourceDeviceId != Some(x)
  {
    forall x
      ensures ProcessedIn(reports, x) == Ok(exists i :: 0 <= i < |reports| && reports[i].sourceDeviceId == Some(x))
    {
      ProcessedWhenIdsPresent(reports, x);
    }
    PendingMeaning(reports, ids);
  }

  /** The report that stands for a device task that threw: the device's id
      and the message, and nothing else. */
  function ErrorReport(sourceDeviceId: string, msg: string): (r: Report)
    ensures r.sourceDeviceId == Some(sourceDeviceId) && r.targetDeviceId.None? && r.error == Some(msg)
    ensures r.migrated == 0 && r.errors == 0 && r.duplicatesSkipped == 0 && r.durationSec == 0
    ensures HasError(r)
  {
    Report(Some(sourceDeviceId), None, 0, 0, 0, Some(msg), 0)
  }

  lemma KeptNameOthers(reports: seq<Report>, sourceDeviceId: string)
    requires forall i :: 0 <= i < |reports| ==> reports[i].sourceDeviceId.Some? && reports[i].sourceDeviceId != Some(sourceDeviceId)
    ensures forall i :: 0 <= i < |WithoutErrors(reports)| ==>
      WithoutErrors(reports)[i].sourceDeviceId.Some? && WithoutErrors(reports)[i].sourceDeviceId != Some(sourceDeviceId)
  {
    var kept := WithoutErrors(reports);
    WithoutErrorsKeepsClean(reports);
    forall i | 0 <= i < |kept|
      ensures kept[i].sourceDeviceId.Some? && kept[i].sourceDeviceId != Some(sourceDeviceId)
    {
      assert kept[i] in reports;
      var j :| 0 <= j < |reports| && reports[j] == kept[i];
    }
  }

  /** A device whose task threw is handed over again by a retry: removing
      the failed reports removes its report, and the rest still name other
      devices. */
  lemma FailedDeviceRetried(reports: seq<Report>, sourceDeviceId: string, msg: string)
    requires forall i :: 0 <= i < |reports| ==> reports[i].sourceDeviceId.Some? && reports[i].sourceDeviceId != Some(sourceDeviceId)
    ensures ProcessedIn(reports + [ErrorReport(sourceDeviceId, msg)], sourceDeviceId) == Ok(true)
    ensures ProcessedIn(WithoutErrors(reports + [ErrorReport(sourceDeviceId, msg)]), sourceDeviceId) == Ok(false)
  {
    var all := reports + [ErrorReport(sourceDeviceId, msg)];
    assert all[..|all| - 1] == reports;
    assert WithoutErrors(all) == WithoutErrors(reports);
    forall i | 0 <= i < |all|
      ensures all[i].sourceDeviceId.Some?
    {
      if i < |reports| {
        assert all[i] == reports[i];
      }
    }
    ProcessedWhenIdsPresent(all, sourceDeviceId);
    assert all[|reports|].sourceDeviceId == Some(sourceDeviceId);
    var kept := WithoutErrors(reports);
    KeptNameOthers(reports, sourceDeviceId);
    ProcessedWhenIdsPresent(kept, sourceDeviceId);
  }

  /** The report the migrator of the job's signal type hands over for a
      device whose target device was found. */
  function MigratorReport(env: Environment, config: JobConfig, source: Platform, target: Platform,
                          sourceDeviceId: string, targetDeviceId: string): Report
  {
    var src, dest := env.tenant(source), env.tenant(target);
    var params := config.signalQueryParams;
    var fails, duration := env.writeFailures(sourceDeviceId), env.durationSec(sourceDeviceId);
    match config.signalType
    case MEASUREMENT =>
      MeasurementMigration.MigrationReport(src, dest, sourceDeviceId, targetDeviceId, params,
                                           env.measurementFingerprint, fails, duration)
    case EVENT =>
      EventMigration.MigrationReport(src, dest, sourceDeviceId, targetDeviceId, params,
                                     env.eventFingerprint, fails, duration)
    case ALARM =>
      AlarmMigration.MigrationReport(src, dest, sourceDeviceId, targetDeviceId, params,
                                     env.alarmFingerprint, env.maxAlarmCount, fails, duration)
  }

  /** A report a device task hands over once its target was found: either a
      migrator's fetch failure, which names no device, or a completed report
      naming both devices. */
  predicate Attributable(r: Report, sourceDeviceId: string, targetDeviceId: string)
  {
    || (r.sourceDeviceId.None? && r.targetDeviceId.None? && r.error.Some?)
    || (r.sourceDeviceId == Some(sourceDeviceId) && r.targetDeviceId == Some(targetDeviceId) && r.error.None?)
  }

  /** Whatever the signal type, the migrator's report is attributable: it
      names the two devices and carries no error string, or it is a fetch
      failure that names no device. */
  lemma MigratorReportAttributable(env: Environment, config: JobConfig, source: Platform, target: Platform,
                                   sourceDeviceId: string, targetDeviceId: string)
    ensures Attributable(MigratorReport(env, config, source, target, sourceDeviceId, targetDeviceId),
                         sourceDeviceId, targetDeviceId)
  {
  }

  class MigrationJobService {
    /** The service that saves jobs on the microservice's own tenant. */
    const c8y: C8yService.CumulocityService
    /** The `C8Y.*` settings used for the local platform. */
    const settings: PlatformUtil.LocalSettings
    const env: Environment
    /** Jackson's conversion of a job into the map stored in its fragment. */
    const serialize: JobState -> map<string, Json>

    constructor(c8y: C8yService.CumulocityService, settings: PlatformUtil.LocalSettings, env: Environment,
                serialize: JobState -> map<string, Json>)
      ensures this.c8y == c8y && this.settings == settings && this.env == env && this.serialize == serialize
    {
      this.c8y := c8y;
      this.settings := settings;
      this.env := env;
      this.serialize := serialize;
    }

    /** `doSaveJob`: a job never saved is created and takes the id the
        platform gave it (with writes off the create returns null, which is
        dereferenced); a saved job's object is updated. Only the job's id
        and the service's writes change. */
    method DoSaveJob(job: MigrationJob) returns (r: Result<Option<ManagedObject>>)
      modifies job`c8yId, c8y`calls
      ensures c8y.disablePlatformWrites ==> c8y.calls == old(c8y.calls)
      ensures !c8y.disablePlatformWrites ==>
        c8y.calls == old(c8y.calls) + [SaveCall(serialize(old(StateOf(job))), old(job.c8yId))]
      ensures old(job.c8yId).Some? ==>
        && job.c8yId == old(job.c8yId)
        && r == (if c8y.disablePlatformWrites then Ok(None)
                 else if |old(c8y.calls)| in c8y.failing then Err("update failed")
                 else Ok(Some(JobObject(serialize(old(StateOf(job))), job.c8yId))))
      ensures old(job.c8yId).None? && c8y.disablePlatformWrites ==> r == Err(NPE) && job.c8yId.None?
      ensures old(job.c8yId).None? && !c8y.disablePlatformWrites ==>
        if |old(c8y.calls)| in c8y.failing then r == Err("create failed") && job.c8yId.None?
        else
          && job.c8yId == Some(c8y.newId(|old(c8y.calls)|))
          && r == Ok(Some(JobObject(serialize(old(StateOf(job))), job.c8yId)))
    {
      var fields := serialize(StateOf(job));
      if job.c8yId.None? {
        var created := c8y.CreateManagedObject(JobObject(fields, None));
        if created.Err? {
          return Err(created.msg);
        }
        if created.value.None? || created.value.value.id.None? {
          return Err(NPE);
        }
        job.c8yId := created.value.value.id;
        r := created;
      } else {
        r := c8y.UpdateManagedObject(JobObject(fields, job.c8yId));
      }
    }

    /** `handleDeviceReport`: the report is added and the status updated; if
        the update threw nothing is saved, otherwise the job is saved. Every
        exception is swallowed. */
    method HandleDeviceReport(report: Report, job: MigrationJob)
      modifies job`deviceReports, job`status, job`numCompletedDevices, job`c8yId, c8y`calls
      ensures job.deviceReports == old(job.deviceReports) + [report]
      ensures old(job.status) != EXECUTING ==>
        job.status == old(job.status) && job.numCompletedDevices == old(job.numCompletedDevices)
      ensures old(job.status) == EXECUTING && |job.deviceReports| > job.numTotalDevices ==>
        && job.status == old(job.status) && job.numCompletedDevices == old(job.numCompletedDevices)
        && job.c8yId == old(job.c8yId) && c8y.calls == old(c8y.calls)
      ensures old(job.status) == EXECUTING && |job.deviceReports| <= job.numTotalDevices ==>
        job.numCompletedDevices == |job.deviceReports| && job.status == Completion(job.deviceReports, job.numTotalDevices)
      ensures !(old(job.status) == EXECUTING && |job.deviceReports| > job.numTotalDevices) ==>
        && (c8y.disablePlatformWrites ==> c8y.calls == old(c8y.calls))
        && (!c8y.disablePlatformWrites ==>
              c8y.calls == old(c8y.calls) + [SaveCall(serialize(StateOf(job).(c8yId := old(job.c8yId))), old(job.c8yId))])
    {
      job.AddDeviceReport(report);
      var updated := job.UpdateStatus();
      if updated.Pass? {
        var saved := DoSaveJob(job);
      }
    }

    /** `getTargetDeviceForSourceByExtId`: fetch the device's identifiers,
        drop the ignored type, then try them in order until a lookup gives
        the target device. */
    method GetTargetDeviceForSourceByExtId(sourceDeviceId: string, advice: Option<seq<Advice>>,
                                           sourcePlatform: Option<Platform>, targetPlatform: Option<Platform>)
      returns (r: Result<string>)
      ensures r == ResolveTarget(env, sourceDeviceId, advice, sourcePlatform, targetPlatform)
    {
      if sourcePlatform.None? {
        return Err(NPE);
      }
      var fetched := env.externalIds(sourcePlatform.value, sourceDeviceId);
      if fetched.Err? {
        return Err(fetched.msg);
      }
      var ids := Suitable(fetched.value);
      if |ids| == 0 {
        return Err(NO_SUITABLE_IDS + sourceDeviceId);
      }
      var i := 0;
      while i < |ids|
        invariant 0 <= i <= |ids|
        invariant FirstFound(env, advice, targetPlatform, ids[i..], sourceDeviceId)
               == FirstFound(env, advice, targetPlatform, ids, sourceDeviceId)
      {
        assert ids[i..][0] == ids[i] && ids[i..][1..] == ids[i + 1..];
        var attempt := TryIdentifier(env, advice, targetPlatform, ids[i]);
        match attempt {
          case Found(id) => return Ok(id);
          case Thrown(m) => return Err(m);
          case Skipped =>
        }
        i := i + 1;
      }
      return Err(NO_TARGET_DEVICE + sourceDeviceId);
    }

    /** `migrateDeviceSignals`: find the target device, then run the
        migrator of the job's signal type, whose report goes to
        `handleDeviceReport`; when finding the target throws, the device gets
        an error report instead. Exactly one report is added. */
    method MigrateDeviceSignals(sourceDeviceId: string, job: MigrationJob)
      modifies job`deviceReports, job`status, job`numCompletedDevices, job`c8yId, c8y`calls
      ensures |job.deviceReports| == |old(job.deviceReports)| + 1
      ensures job.deviceReports[..|old(job.deviceReports)|] == old(job.deviceReports)
      ensures var resolved := ResolveTarget(env, sourceDeviceId, job.config.externalIdMappingAdvice, job.sourcePlatform, job.targetPlatform);
        if resolved.Err? then job.deviceReports[|old(job.deviceReports)|] == ErrorReport(sourceDeviceId, resolved.msg)
        else
          && job.sourcePlatform.Some? && job.targetPlatform.Some?
          && job.deviceReports[|old(job.deviceReports)|]
             == MigratorReport(env, job.config, job.sourcePlatform.value, job.targetPlatform.value, sourceDeviceId, resolved.value)
      ensures job.deviceReports[|old(job.deviceReports)|].sourceDeviceId in {None, Some(sourceDeviceId)}
      ensures old(job.status) == EXECUTING && |job.deviceReports| <= job.numTotalDevices ==>
        job.numCompletedDevices == |job.deviceReports| && job.status == Completion(job.deviceReports, job.numTotalDevices)
    {
      var target := GetTargetDeviceForSourceByExtId(sourceDeviceId, job.config.externalIdMappingAdvice,
                                                    job.sourcePlatform, job.targetPlatform);
      var report: Report;
      if target.Err? {
        report := ErrorReport(sourceDeviceId, target.msg);
      } else {
        FoundNeedsPlatforms(env, sourceDeviceId, job.config.externalIdMappingAdvice, job.sourcePlatform, job.targetPlatform);
        var source, dest := env.tenant(job.sourcePlatform.value), env.tenant(job.targetPlatform.value);
        var params := job.config.signalQueryParams;
        var fails, duration := env.writeFailures(sourceDeviceId), env.durationSec(sourceDeviceId);
        match job.config.signalType {
          case MEASUREMENT =>
            var requests;
            report, requests := MeasurementMigration.MigrateMeasurements(source, dest, sourceDeviceId, target.value, params,
                                                                  env.measurementFingerprint, fails, duration);
          case EVENT =>
            var created;
            report, created := EventMigration.MigrateEvents(source, dest, sourceDeviceId, target.value, params,
                                                      env.eventFingerprint, fails, duration);
          case ALARM =>
            var calls;
            report, calls := AlarmMigration.MigrateAlarms(source, dest, sourceDeviceId, target.value, params,
                                                      env.alarmFingerprint, env.maxAlarmCount, fails, duration);
        }
      }
      HandleDeviceReport(report, job);
    }

    /** The start of `runMigrationJob`: both platforms are resolved and set
        on the job in turn, then the source devices are queried and their
        ids collected. */
    method Prepare(job: MigrationJob) returns (started: Result<Started>)
      modifies job`sourcePlatform, job`targetPlatform
      ensures started == Start(settings, env, job.config)
      ensures var sp := PlatformUtil.ResolvePlatform(settings, job.config.sourcePlatformHost, job.config.sourcePlatformLoginString);
        job.sourcePlatform == (if sp.Ok? then Some(sp.value) else old(job.sourcePlatform))
      ensures started.Ok? ==> job.sourcePlatform == Some(started.value.source) && job.targetPlatform == Some(started.value.target)
    {
      var config := job.config;
      var sp := PlatformUtil.ResolvePlatform(settings, config.sourcePlatformHost, config.sourcePlatformLoginString);
      if sp.Err? {
        return Err(sp.msg);
      }
      job.sourcePlatform := Some(sp.value);
      var tp := PlatformUtil.ResolvePlatform(settings, config.targetPlatformHost, config.targetPlatformLoginString);
      if tp.Err? {
        return Err(tp.msg);
      }
      job.targetPlatform := Some(tp.value);
      var devices := env.devices(sp.value, config.sourceDevicesQuery);
      if devices.Err? {
        return Err(devices.msg);
      }
      var ids := C8yService.CollectIds(devices.value);
      if ids.None? {
        return Err(NPE);
      }
      return Ok(Started(sp.value, tp.value, ids.value));
    }

    /** `runMigrationJob`: prepare the job, record its device count and the
        EXECUTING status and save it, finish it at once when there are no
        devices, then hand over every device not yet processed. Returns the
        first save's result and the devices handed over. */
    method RunMigrationJob(job: MigrationJob) returns (r: Result<Option<ManagedObject>>, dispatched: seq<string>)
      modifies job`sourcePlatform, job`targetPlatform, job`numTotalDevices, job`status, job`c8yId, c8y`calls
      ensures var sp := PlatformUtil.ResolvePlatform(settings, job.config.sourcePlatformHost, job.config.sourcePlatformLoginString);
        job.sourcePlatform == (if sp.Ok? then Some(sp.value) else old(job.sourcePlatform))
      ensures Start(settings, env, job.config).Err? ==>
        && r == Err(Start(settings, env, job.config).msg) && dispatched == []
        && job.numTotalDevices == old(job.numTotalDevices) && job.status == old(job.status)
        && job.c8yId == old(job.c8yId) && c8y.calls == old(c8y.calls)
      ensures Start(settings, env, job.config).Ok? ==>
        var s := Start(settings, env, job.config).value;
        && job.sourcePlatform == Some(s.source) && job.targetPlatform == Some(s.target)
        && job.numTotalDevices == |s.deviceIds|
        && (!c8y.disablePlatformWrites ==>
              && |c8y.calls| > |old(c8y.calls)|
              && c8y.calls[|old(c8y.calls)|] == SaveCall(serialize(old(StateOf(job)).(sourcePlatform := Some(s.source),
                   targetPlatform := Some(s.target), numTotalDevices := |s.deviceIds|, status := EXECUTING)), old(job.c8yId)))
        && (c8y.disablePlatformWrites && old(job.c8yId).None? ==> r == Err(NPE) && dispatched == [])
        && (r.Ok? ==> job.status == (if s.deviceIds == [] then SUCCESSFUL else EXECUTING)
                      && Pending(job.deviceReports, s.deviceIds) == Ok(dispatched))
        && (forall x :: x in dispatched ==> x in s.deviceIds && ProcessedIn(job.deviceReports, x) == Ok(false))
    {
      dispatched := [];
      var started := Prepare(job);
      if started.Err? {
        return Err(started.msg), [];
      }
      assert StateOf(job) == old(StateOf(job)).(sourcePlatform := Some(started.value.source),
                                                targetPlatform := Some(started.value.target));
      var sourceDeviceIds := started.value.deviceIds;
      r := SaveStart(job, |sourceDeviceIds|);
      if r.Err? {
        return;
      }
      var failure;
      failure, dispatched := DispatchUnprocessed(job, sourceDeviceIds);
      if failure.Some? {
        r := Err(failure.value);
      }
    }

    /** The saves of a start: the device count and EXECUTING are recorded
        and saved, and a job without devices is then marked SUCCESSFUL and
        saved again. The result is the first save's. */
    method SaveStart(job: MigrationJob, numDevices: nat) returns (r: Result<Option<ManagedObject>>)
      modifies job`numTotalDevices, job`status, job`c8yId, c8y`calls
      ensures job.numTotalDevices == numDevices
      ensures !c8y.disablePlatformWrites ==>
        && |c8y.calls| > |old(c8y.calls)|
        && c8y.calls[|old(c8y.calls)|]
           == SaveCall(serialize(old(StateOf(job)).(numTotalDevices := numDevices, status := EXECUTING)), old(job.c8yId))
      ensures c8y.disablePlatformWrites && old(job.c8yId).None? ==> r == Err(NPE)
      ensures r.Ok? ==> job.status == (if numDevices == 0 then SUCCESSFUL else EXECUTING)
    {
      job.numTotalDevices := numDevices;
      job.status := EXECUTING;
      r := DoSaveJob(job);
      if r.Err? {
        return;
      }
      if numDevices == 0 {
        ghost var first := c8y.calls;
        job.status := SUCCESSFUL;
        var second := DoSaveJob(job);
        assert c8y.calls[..|first|] == first;
        if second.Err? {
          return Err(second.msg);
        }
      }
    }

    /** `retryMigrationJob`: a job still pending or executing is retried only
        when forced; the failed reports are removed, and when there were none
        the job is not run again. */
    method RetryMigrationJob(job: MigrationJob, force: bool) returns (r: Result<Option<ManagedObject>>, dispatched: seq<string>)
      modifies job`deviceReports, job`numCompletedDevices, job`sourcePlatform, job`targetPlatform,
               job`numTotalDevices, job`status, job`c8yId, c8y`calls
      ensures (old(job.status) == EXECUTING || old(job.status) == PENDING) && !force ==>
        && r == Err(NOT_COMPLETED) && dispatched == []
        && job.deviceReports == old(job.deviceReports) && job.status == old(job.status)
        && job.numCompletedDevices == old(job.numCompletedDevices) && c8y.calls == old(c8y.calls)
      ensures !((old(job.status) == EXECUTING || old(job.status) == PENDING) && !force) ==>
        && job.deviceReports == WithoutErrors(old(job.deviceReports))
        && job.numCompletedDevices == |job.deviceReports|
        && (ErrorCount(old(job.deviceReports)) == 0 ==>
              && r == Err(NO_ERRORS_TO_RETRY) && dispatched == []
              && job.status == old(job.status) && c8y.calls == old(c8y.calls))
        && (r.Ok? ==>
              && ErrorCount(old(job.deviceReports)) > 0
              && Start(settings, env, job.config).Ok?
              && Pending(job.deviceReports, Start(settings, env, job.config).value.deviceIds) == Ok(dispatched))
    {
      if job.status == EXECUTING || job.status == PENDING {
        if !force {
          return Err(NOT_COMPLETED), [];
        }
      }
      var removed := job.RemoveReportsWithErrors();
      if removed == 0 {
        return Err(NO_ERRORS_TO_RETRY), [];
      }
      r, dispatched := RunMigrationJob(job);
    }

    /** The pool working through the devices handed to it, one task after
        another. Each task adds one report, for its device or for no device;
        when the job is executing and the tasks do not outnumber the devices
        still to report, the job's status afterwards is what the reports
        complete it to. */
    method RunDeviceTasks(job: MigrationJob, dispatched: seq<string>)
      modifies job`deviceReports, job`status, job`numCompletedDevices, job`c8yId, c8y`calls
      ensures |job.deviceReports| == |old(job.deviceReports)| + |dispatched|
      ensures job.deviceReports[..|old(job.deviceReports)|] == old(job.deviceReports)
      ensures forall k :: 0 <= k < |dispatched| ==>
        job.deviceReports[|old(job.deviceReports)| + k].sourceDeviceId in {None, Some(dispatched[k])}
      ensures old(job.status) == EXECUTING && 0 < |dispatched| && |job.deviceReports| <= job.numTotalDevices ==>
        job.status == Completion(job.deviceReports, job.numTotalDevices)
    {
      ghost var before := job.deviceReports;
      ghost var n := |before|;
      for i := 0 to |dispatched|
        invariant |job.deviceReports| == n + i && job.deviceReports[..n] == before
        invariant forall k :: 0 <= k < i ==> job.deviceReports[n + k].sourceDeviceId in {None, Some(dispatched[k])}
        invariant old(job.status) == EXECUTING && n + |dispatched| <= job.numTotalDevices ==>
          if i == 0 then job.status == EXECUTING else job.status == Completion(job.deviceReports, job.numTotalDevices)
      {
        ghost var prev := job.deviceReports;
        MigrateDeviceSignals(dispatched[i], job);
        assert job.deviceReports[..|prev|] == prev;
        forall k | n <= k < n + i
          ensures job.deviceReports[k] == prev[k]
        {
          assert job.deviceReports[..|prev|][k] == prev[k];
        }
        assert job.deviceReports[..n] == job.deviceReports[..|prev|][..n];
      }
    }
  }

  /** The dispatch loop: every device whose `isDeviceProcessed` is false is
      handed over, in order, until a check throws. */
  method DispatchUnprocessed(job: MigrationJob, ids: seq<string>) returns (failure: Option<string>, dispatched: seq<string>)
    ensures failure.None? <==> Pending(job.deviceReports, ids).Ok?
    ensures failure.None? ==> Pending(job.deviceReports, ids) == Ok(dispatched)
    ensures forall x :: x in dispatched ==> x in ids && ProcessedIn(job.deviceReports, x) == Ok(false)
  {
    dispatched := [];
    for i := 0 to |ids|
      invariant Pending(job.deviceReports, ids[..i]) == Ok(dispatched)
    {
      assert ids[..i + 1][..i] == ids[..i];
      var processed := job.IsDeviceProcessed(ids[i]);
      if processed.Err? {
        PendingMeaning(job.deviceReports, ids);
        PendingMeaning(job.deviceReports, ids[..i]);
        return Some(processed.msg), dispatched;
      }
      if !processed.value {
        dispatched := dispatched + [ids[i]];
      }
    }
    assert ids[..|ids|] == ids;
    PendingMeaning(job.deviceReports, ids);
    failure := None;
  }

  /** A job without reports hands over every device. */
  /** One more device at the end is handed over when it was not processed. */
  lemma PendingStep(reports: seq<Report>, ids: seq<string>)
    requires ids != [] && Pending(reports, ids[..|ids| - 1]).Ok?
    requires ProcessedIn(reports, ids[|ids| - 1]) == Ok(false)
    ensures Pending(reports, ids) == Ok(Pending(reports, ids[..|ids| - 1]).value + [ids[|ids| - 1]])
  {
  }

  lemma {:induction false} FreshJobDispatchesAll(ids: seq<string>)
    decreases |ids|
    ensures Pending([], ids) == Ok(ids)
  {
    if ids == [] {
      return;
    }
    var init := ids[..|ids| - 1];
    FreshJobDispatchesAll(init);
    PendingStep([], ids);
    assert init + [ids[|ids| - 1]] == ids;
  }
}
