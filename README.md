# Signal migration between Cumulocity IoT tenants, modelled in Dafny

The microservice copies the signals of a device (measurements, events or
alarms) from a source tenant to the matching device on a target tenant. A
*migration job* names the two platforms, a device query, the signal type and
query parameters, and optional *external-id mapping advice*. Starting a job
resolves both platforms, counts the source devices, saves the job as a
managed object and hands every device without a report to a worker. A worker
finds the target device through the device's external identifiers, runs the
migrator of the job's signal type and hands its report back to the job, which
recomputes its status (EXECUTING until every device reported, then SUCCESSFUL
or FAILED). A job can be retried after its failed reports are removed.

The three migrators share one deduplication scheme. The fingerprints of the
target's signals form a multiset; a source signal whose fingerprint is in it
removes one occurrence and is skipped as a duplicate, every other one is
copied. Alarms are sorted by status first, their count is clamped before
fingerprinting and an alarm with count n is replayed as n creates (plus a
status update). Measurements are sent in bulk batches of 200.

Around these sit the helpers the model also covers: trimming tenant-specific
fields, the dotted-path access to a managed object's fragments, the
id-cursor paging loop and write guards of the inventory service, the series
rename of measurements, the local-platform credential check, and the
per-device signal metrics.

The platform is an oracle: a `Tenant` value answers each signal query with
the records or an error, a set of call positions says which writes throw,
and every write is recorded in a call log. The fingerprint
(`toJSON().hashCode()`), `Objects.hash` and Jackson's conversions are
function parameters about which nothing is assumed. Records are values; the
SDK's in-place setters become functions returning the changed record.
Classes whose fields the source updates in place (`MigrationJob`,
`CumulocityService`, `MigrationJobService`, `MeasurementRenameService`) are
Dafny classes; the loops of the source are methods with loop invariants,
each proved equal to a specification function about which the lemmas below
are proved.

Source paths below are relative to the repository root.

## Model

| member | source | states |
|---|---|---|
| Jobs.MigrationJob.constructor | src/main/java/com/softwareag/signalmigration/model/MigrationJob.java:17-46 | A new job is PENDING, has numTotalDevices -1, numCompletedDevices 0, no reports, version 2 and no id or platforms. |
| Jobs.MigrationJob.AddDeviceReport | src/main/java/com/softwareag/signalmigration/model/MigrationJob.java:48-50 | Appends exactly the report at the end; no other field changes. |
| Jobs.MigrationJob.RemoveReportsWithErrors | src/main/java/com/softwareag/signalmigration/model/MigrationJob.java:52-59 | Keeps exactly the reports without error (in order), sets numCompletedDevices to what is left and returns how many were removed. |
| Jobs.WithoutErrorsKeepsClean | src/main/java/com/softwareag/signalmigration/model/MigrationJob.java:54-58 | A report survives iff it has no error, every clean report keeps its multiplicity, and the number removed is the error count. |
| Jobs.WithoutErrorsIdempotent | src/main/java/com/softwareag/signalmigration/model/MigrationJob.java:52-59 | After a removal no failed report is left, so removing again changes nothing. |
| Jobs.CleanReports | src/main/java/com/softwareag/signalmigration/model/MigrationJob.java:52-59 | A list without failed reports is kept whole and counts no error. |
| Jobs.ErrorCountPositive | src/main/java/com/softwareag/signalmigration/model/MigrationJob.java:75-77 | The error count is positive iff some report carries an error string or errors > 0. |
| Jobs.MigrationJob.IsDeviceProcessed | src/main/java/com/softwareag/signalmigration/model/MigrationJob.java:61-65 | Returns the stream's answer, including the NullPointerException of a report without a source id met before a match. |
| Jobs.ProcessedInMeaning | src/main/java/com/softwareag/signalmigration/model/MigrationJob.java:61-65 | True iff a report names the device and every report before it names another device; an error iff a report without source id comes before any match. |
| Jobs.ProcessedWhenIdsPresent | src/main/java/com/softwareag/signalmigration/model/MigrationJob.java:61-65 | When every report names a device, the answer is "some report names this device". |
| Jobs.FetchFailureBreaksResume | src/main/java/com/softwareag/signalmigration/model/MigrationJob.java:62-64 | After a migrator's fetch-failure report, which names no device, asking about any device not reported before throws. |
| Jobs.ClearBeforeTail | src/main/java/com/softwareag/signalmigration/model/MigrationJob.java:62-64 | Dropping a first report that names another device shifts the "no match yet" prefix by one. |
| Jobs.MigrationJob.UpdateStatus | src/main/java/com/softwareag/signalmigration/model/MigrationJob.java:67-85 | Only an EXECUTING job changes; more reports than devices throws and changes nothing; otherwise numCompletedDevices is the report count and the status is the completion rule. |
| Jobs.CompletionRule | src/main/java/com/softwareag/signalmigration/model/MigrationJob.java:73-83 | The job leaves EXECUTING iff every device reported, becomes FAILED iff then some report failed, and never returns to PENDING. |
| Jobs.RetrySucceedsOnCleanReports | src/main/java/com/softwareag/signalmigration/model/MigrationJob.java:52-83 | After failed reports are removed, a re-run whose new reports are clean and complete the device count ends SUCCESSFUL. |
| JobModel.FetchFailedReport | src/main/java/com/softwareag/signalmigration/service/AlarmMigrationService.java:133-135 | The fetch-failure report carries an error, no device ids and zero counters. |
| JobModel.CompletedReport | src/main/java/com/softwareag/signalmigration/service/AlarmMigrationService.java:91-94 | A completed report names both devices, has no error string, and counts as failed iff errors > 0. |
| JobService.JobObject | src/main/java/com/softwareag/signalmigration/service/MigrationJobService.java:170-183 | The saved object holds only the job fragment and carries the job's id when it has one. |
| JobService.SavedJobLoads | src/main/java/com/softwareag/signalmigration/service/MigrationJobService.java:155-160 | Loading a saved object gives back the saved job with the object's id, whenever conversion inverts serialisation. |
| JobService.MigrationJobService.DoSaveJob | src/main/java/com/softwareag/signalmigration/service/MigrationJobService.java:170-186 | A job without id is created and takes the new id; one with id is updated; disabled writes send nothing, and then a new job's id read throws. |
| JobService.Suitable | src/main/java/com/softwareag/signalmigration/service/MigrationJobService.java:322-326 | Exactly the identifiers not of type c8y_OpcuaDevice remain. |
| JobService.FirstAdviceMeaning | src/main/java/com/softwareag/signalmigration/service/MigrationJobService.java:341-343 | The advice used is the first whose source value matches; an advice with a null source value met first throws; none matching gives null. |
| JobService.PassedOverTail | src/main/java/com/softwareag/signalmigration/service/MigrationJobService.java:342 | Dropping a first advice for another value shifts the "passed over" prefix by one. |
| JobService.AdviceRule | src/main/java/com/softwareag/signalmigration/service/MigrationJobService.java:340-349 | Without advice, or with none naming the value, the source value itself is looked up; otherwise the first matching advice's target value. |
| JobService.FirstFoundMeaning | src/main/java/com/softwareag/signalmigration/service/MigrationJobService.java:334-363 | The search returns the first identifier whose lookup succeeds, skips failed lookups, and fails with the "unable to find" message when all fail. |
| JobService.NoTargetPlatform | src/main/java/com/softwareag/signalmigration/service/MigrationJobService.java:368-376 | Without a target platform every lookup fails, so no device is found. |
| JobService.FoundNeedsPlatforms | src/main/java/com/softwareag/signalmigration/service/MigrationJobService.java:310-366 | A target is found only when both platforms are set. |
| JobService.MigrationJobService.GetTargetDeviceForSourceByExtId | src/main/java/com/softwareag/signalmigration/service/MigrationJobService.java:310-366 | The loop with `break` returns what the resolver specification gives. |
| JobService.PendingMeaning | src/main/java/com/softwareag/signalmigration/service/MigrationJobService.java:227-236 | The dispatch succeeds iff every device can be checked, and then hands over exactly the unprocessed devices, in order. |
| JobService.ResumeSkipsReported | src/main/java/com/softwareag/signalmigration/service/MigrationJobService.java:227-236 | When every report names a device, exactly the devices without a report are handed over. |
| JobService.FreshJobDispatchesAll | src/main/java/com/softwareag/signalmigration/service/MigrationJobService.java:227-236 | A job without reports hands over every device, in order. |
| JobService.PendingStep | src/main/java/com/softwareag/signalmigration/service/MigrationJobService.java:229-232 | An unprocessed device at the end is handed over after the others. |
| JobService.DispatchUnprocessed | src/main/java/com/softwareag/signalmigration/service/MigrationJobService.java:227-236 | The dispatch loop stops with the exception of the first unanswerable check, and otherwise hands over exactly the pending devices. |
| JobService.MigrationJobService.Prepare | src/main/java/com/softwareag/signalmigration/service/MigrationJobService.java:195-212 | Resolves the source, then the target platform, setting each that resolves, then collects the source device ids. |
| JobService.MigrationJobService.SaveStart | src/main/java/com/softwareag/signalmigration/service/MigrationJobService.java:216-224 | The device count and EXECUTING are saved first; an empty device list then makes the job SUCCESSFUL. |
| JobService.MigrationJobService.RunMigrationJob | src/main/java/com/softwareag/signalmigration/service/MigrationJobService.java:188-245 | A failed preparation changes nothing further; otherwise the first save records the count and EXECUTING, and exactly the unprocessed devices are dispatched. |
| JobService.MigrationJobService.RetryMigrationJob | src/main/java/com/softwareag/signalmigration/service/MigrationJobService.java:122-135 | A PENDING or EXECUTING job is refused unless forced; failed reports are removed; with none removed it throws without re-running; else the job runs again. |
| JobService.ErrorReport | src/main/java/com/softwareag/signalmigration/service/MigrationJobService.java:284-290 | A thrown device task is reported with its source id and message, no target id, and counts as failed. |
| JobService.MigrationJobService.HandleDeviceReport | src/main/java/com/softwareag/signalmigration/service/MigrationJobService.java:293-302 | The report is appended, the status updated, and the job saved; a status fault is swallowed and skips the save. |
| JobService.MigrationJobService.MigrateDeviceSignals | src/main/java/com/softwareag/signalmigration/service/MigrationJobService.java:247-291 | Exactly one report is added: the error report when no target is found, otherwise `MigratorReport`, the closed-form report of the migrator for the job's signal type. |
| JobService.MigratorReportAttributable | src/main/java/com/softwareag/signalmigration/service/MigrationJobService.java:252-281 | Whatever the signal type, the migrator's report names both devices and carries no error string, or is a fetch failure naming no device. |
| JobService.MigrationJobService.RunDeviceTasks | src/main/java/com/softwareag/signalmigration/service/MigrationJobService.java:227-236 | Each dispatched device adds one report, in order, naming that device or none, and the job's status follows the completion rule. |
| JobService.KeptNameOthers | src/main/java/com/softwareag/signalmigration/model/MigrationJob.java:52-59 | Removing failed reports keeps only reports that name other devices. |
| JobService.FailedDeviceRetried | src/main/java/com/softwareag/signalmigration/service/MigrationJobService.java:122-135 | A device whose task threw counts as processed, and after the retry's removal it counts as unprocessed again. |
| PlatformUtil.LoginString | src/main/java/com/softwareag/signalmigration/service/PlatformUtil.java:34 | The composed login string is tenant, '/', user, ':', password. |
| PlatformUtil.LoginStringRoundTrip | src/main/java/com/softwareag/signalmigration/service/PlatformUtil.java:34 | The three settings can be read back from the composed login string. |
| PlatformUtil.ResolvePlatform | src/main/java/com/softwareag/signalmigration/service/PlatformUtil.java:22-41 | Another host keeps its login string; the local host refuses a given login string first, then a blank setting, and otherwise uses the composed one. |
| Records.WithSource | src/main/java/com/softwareag/signalmigration/util/AlarmUtil.java:26-27 | The query keeps the caller's parameters and adds exactly one source parameter at the end. |
| AlarmUtil.Trim | src/main/java/com/softwareag/signalmigration/util/AlarmUtil.java:78-85 | Clears self, id, source, lastUpdated, creation time and history, and keeps the alarm's content. |
| AlarmUtil.TrimIdempotent | src/main/java/com/softwareag/signalmigration/util/AlarmUtil.java:78-85 | Trimming twice is trimming once. |
| AlarmUtil.TrimDeterminedByContent | src/main/java/com/softwareag/signalmigration/util/AlarmUtil.java:78-85 | Two alarms trim to the same record iff their content is equal. |
| AlarmUtil.TrimmedFingerprintIgnoresTenantFields | src/main/java/com/softwareag/signalmigration/util/AlarmUtil.java:72-85 | The hash does not trim, so callers trim first; then alarms with equal content get equal fingerprints. |
| AlarmUtil.EqualIgnoringIsEquivalence | src/main/java/com/softwareag/signalmigration/util/AlarmUtil.java:42-47 | Comparing the hashes of (attrs, type, time, firstOccurrence) is reflexive, symmetric and transitive. |
| AlarmUtil.EqualIgnoringTrim | src/main/java/com/softwareag/signalmigration/util/AlarmUtil.java:42-47 | Trimming never changes what the loose equality sees. |
| EventUtil.Trim | src/main/java/com/softwareag/signalmigration/util/EventUtil.java:79-85 | Clears self, id, source, creation time and lastUpdated, and keeps the event's content. |
| EventUtil.TrimIdempotent | src/main/java/com/softwareag/signalmigration/util/EventUtil.java:79-85 | Trimming twice is trimming once. |
| EventUtil.TrimDeterminedByContent | src/main/java/com/softwareag/signalmigration/util/EventUtil.java:79-85 | Two events trim to the same record iff their content is equal. |
| EventUtil.FingerprintIgnoresTenantFields | src/main/java/com/softwareag/signalmigration/util/EventUtil.java:72-77 | The hash trims first, so it depends on content only and hashing a trimmed event gives the same value. |
| EventUtil.EqualIgnoringIsEquivalence | src/main/java/com/softwareag/signalmigration/util/EventUtil.java:41-46 | Comparing the hashes of (attrs, type, time, text) is reflexive, symmetric and transitive. |
| EventUtil.EqualIgnoringTrim | src/main/java/com/softwareag/signalmigration/util/EventUtil.java:41-46 | Trimming never changes what the loose equality sees. |
| MeasurementUtil.Trim | src/main/java/com/softwareag/signalmigration/util/MeasurementUtil.java:78-82 | Clears only self, id and source; the creation time is kept with the content. |
| MeasurementUtil.TrimIdempotent | src/main/java/com/softwareag/signalmigration/util/MeasurementUtil.java:78-82 | Trimming twice is trimming once. |
| MeasurementUtil.TrimDeterminedByContent | src/main/java/com/softwareag/signalmigration/util/MeasurementUtil.java:78-82 | Two measurements trim to the same record iff their content is equal. |
| MeasurementUtil.FingerprintIgnoresTenantFields | src/main/java/com/softwareag/signalmigration/util/MeasurementUtil.java:71-76 | The hash trims first, so it depends on content only and re-fingerprinting gives the same value. |
| MeasurementUtil.EqualIgnoringIsEquivalence | src/main/java/com/softwareag/signalmigration/util/MeasurementUtil.java:40-45 | Comparing the hashes of (attrs, type, time) is reflexive, symmetric and transitive. |
| MeasurementUtil.EqualIgnoringTrim | src/main/java/com/softwareag/signalmigration/util/MeasurementUtil.java:40-45 | Trimming never changes what the loose equality sees. |
| Dedup.SkippedIsCommonPart | src/main/java/com/softwareag/signalmigration/service/EventMigrationService.java:77-84 | The skipped fingerprints are the intersection of the source fingerprints with the target multiset. |
| Dedup.KeptIsExcess | src/main/java/com/softwareag/signalmigration/service/EventMigrationService.java:77-89 | The kept fingerprints are the source fingerprints minus the target multiset. |
| Dedup.LeftIsUnclaimed | src/main/java/com/softwareag/signalmigration/service/EventMigrationService.java:80 | What remains of the target multiset is the target minus the source fingerprints. |
| Dedup.ClaimOne | src/main/java/com/softwareag/signalmigration/service/EventMigrationService.java:78-81 | Removing a found fingerprint from the target equals adding it to the source side. |
| Dedup.ClaimNone | src/main/java/com/softwareag/signalmigration/service/EventMigrationService.java:78-89 | A fingerprint not in the target is kept and leaves the target unchanged. |
| Dedup.DedupLaw | src/main/java/com/softwareag/signalmigration/service/EventMigrationService.java:77-89 | The three closed forms together: skipped = common part, kept = excess, left = unclaimed. |
| Dedup.SkippedPlusKept | src/main/java/com/softwareag/signalmigration/service/EventMigrationService.java:77-89 | Every fingerprint is skipped or kept. |
| Dedup.PerValueLaw | src/main/java/com/softwareag/signalmigration/service/EventMigrationService.java:77-84 | For n source and k target occurrences of a fingerprint, min(n,k) are skipped and max(n-k,0) are kept. |
| Dedup.RerunKeepsNothing | src/test/java/com/softwareag/signalmigration/MigrationIT.java:700-703 | Re-running against a target that holds the kept signals skips every signal and keeps none. |
| StableSort.SortSorted | src/main/java/com/softwareag/signalmigration/service/AlarmMigrationService.java:116-118 | `List.sort` orders its input under a comparator that meets the `Comparator` contract. |
| StableSort.SortPermutes | src/main/java/com/softwareag/signalmigration/service/AlarmMigrationService.java:116-118 | The sort neither loses nor adds elements. |
| StableSort.SortStable | src/main/java/com/softwareag/signalmigration/service/AlarmMigrationService.java:116-118 | Elements that compare equal keep their input order. |
| StableSort.InsertSorted | src/main/java/com/softwareag/signalmigration/service/AlarmMigrationService.java:116-118 | Inserting into a sorted list keeps it sorted. |
| StableSort.InsertPermutes | src/main/java/com/softwareag/signalmigration/service/AlarmMigrationService.java:116-118 | Inserting adds exactly the element. |
| StableSort.InsertStable | src/main/java/com/softwareag/signalmigration/service/AlarmMigrationService.java:116-118 | Inserting keeps the relative order of equivalent elements. |
| JavaString.CompareToAntisymmetric | src/main/java/com/softwareag/signalmigration/service/AlarmMigrationService.java:117 | `a.compareTo(b)` is the negation of `b.compareTo(a)`. |
| JavaString.CompareToZero | src/main/java/com/softwareag/signalmigration/service/AlarmMigrationService.java:117 | `compareTo` is zero iff the strings are equal. |
| JavaString.CompareToTransitive | src/main/java/com/softwareag/signalmigration/service/AlarmMigrationService.java:117 | "Not after" under `compareTo` is transitive. |
| JavaString.RawSplit | src/main/java/com/softwareag/signalmigration/util/ManagedObjectUtil.java:31 | Splitting on '.' gives at least one piece and no piece contains '.'. |
| JavaString.IndexOf | src/main/java/com/softwareag/signalmigration/service/PlatformUtil.java:34 | The position of the first occurrence of a character, or the length when absent. |
| AlarmMigration.StatusOrderIsComparator | src/main/java/com/softwareag/signalmigration/service/AlarmMigrationService.java:116-118 | The negated `compareTo` on statuses meets the `Comparator` contract. |
| AlarmMigration.SortAlarms | src/main/java/com/softwareag/signalmigration/service/AlarmMigrationService.java:116-118 | The alarms are a permutation of the input, sorted by descending status, with equal statuses in input order. |
| AlarmMigration.StatusOrderRanks | src/main/java/com/softwareag/signalmigration/service/AlarmMigrationService.java:117 | For platform statuses, descending string order is the rank order CLEARED, ACTIVE, ACKNOWLEDGED. |
| AlarmMigration.SortAlarmsByStatus | src/main/java/com/softwareag/signalmigration/service/AlarmMigrationService.java:112-118 | CLEARED alarms come first, then ACTIVE, then ACKNOWLEDGED. |
| AlarmMigration.Clamp | src/main/java/com/softwareag/signalmigration/service/AlarmMigrationService.java:162-164 | The count becomes min(count, maxAlarmCountValue); nothing else changes. |
| AlarmMigration.TargetFingerprints | src/main/java/com/softwareag/signalmigration/service/AlarmMigrationService.java:236-250 | One fingerprint per target alarm, in order: the hash of the trimmed alarm with the count it has on the target, which is not clamped. |
| AlarmMigration.CreateUniqueHashesSet | src/main/java/com/softwareag/signalmigration/service/AlarmMigrationService.java:237-250 | The multiset holds one occurrence per target alarm fingerprint. |
| AlarmMigration.KeysCount | src/main/java/com/softwareag/signalmigration/service/AlarmMigrationService.java:155-166 | Every alarm either reaches the fingerprint test or fails before it. |
| AlarmMigration.Repeat | src/main/java/com/softwareag/signalmigration/service/AlarmMigrationService.java:196-210 | The for loop's creates: n copies of the call, none for n <= 0. |
| AlarmMigration.CreatesInAppend | src/main/java/com/softwareag/signalmigration/service/AlarmMigrationService.java:176-218 | Creates of a concatenation add up. |
| AlarmMigration.CreatesInRepeat | src/main/java/com/softwareag/signalmigration/service/AlarmMigrationService.java:196-210 | Repeating a create n times makes max(n,0) creates. |
| AlarmMigration.PlanShape | src/main/java/com/softwareag/signalmigration/service/AlarmMigrationService.java:176-218 | Count 1 is one create with the alarm's own time and status; count c > 1 is an ACTIVE create at the first occurrence, c-1 creates at the last time, and one status update iff the status is not ACTIVE. |
| AlarmMigration.AttemptedAll | src/main/java/com/softwareag/signalmigration/service/AlarmMigrationService.java:176-218 | Without a failing call every planned call is made. |
| AlarmMigration.AttemptedUpTo | src/main/java/com/softwareag/signalmigration/service/AlarmMigrationService.java:176-218 | A failing call is the last one made for that alarm. |
| AlarmMigration.Replicate | src/main/java/com/softwareag/signalmigration/service/AlarmMigrationService.java:176-218 | The calls made are the plan up to and including the first that throws, and the alarm succeeds iff none throws. |
| AlarmMigration.DoMigrateAlarms | src/main/java/com/softwareag/signalmigration/service/AlarmMigrationService.java:140-234 | The loop's counters, multiset and calls are those of the specification run over the sorted alarms. |
| AlarmMigration.RunCountsEachAlarmOnce | src/main/java/com/softwareag/signalmigration/service/AlarmMigrationService.java:151-233 | Every alarm is counted once: migrated (one per alarm, not per call), error or duplicate. |
| AlarmMigration.RunFollowsDedup | src/main/java/com/softwareag/signalmigration/service/AlarmMigrationService.java:150-174 | Duplicates are skipped by the common scheme over the clamped fingerprints, the multiset keeps the unclaimed part, and every other alarm is migrated or an error. |
| AlarmMigration.RunWithoutFailures | src/main/java/com/softwareag/signalmigration/service/AlarmMigrationService.java:151-233 | Without failing calls, no error is counted and every non-duplicate is migrated. |
| AlarmMigration.KeptAlarmsFollowDedup | src/main/java/com/softwareag/signalmigration/service/AlarmMigrationService.java:150-174 | The alarms that are replayed, trimmed and clamped, carry exactly the fingerprints the common scheme keeps. |
| AlarmMigration.RunReplaysKept | src/main/java/com/softwareag/signalmigration/service/AlarmMigrationService.java:150-218 | Without failing calls the call log is the full replay plan of every kept alarm, in order; a duplicate or an alarm that fails before its fingerprint makes no call. |
| AlarmMigration.DuplicatesMakeNoCall | src/main/java/com/softwareag/signalmigration/service/AlarmMigrationService.java:166-174 | Whatever calls fail, a run in which no alarm is kept makes no call. |
| AlarmMigration.MigrateAlarms | src/main/java/com/softwareag/signalmigration/service/AlarmMigrationService.java:63-137 | A fetch failure gives the fetch-failure report and no call; otherwise the sorted alarms are migrated and the completed report carries the run's counters; the report is `MigrationReport` of the inputs. |
| AlarmMigration.CompletedReportCounts | src/main/java/com/softwareag/signalmigration/service/AlarmMigrationService.java:63-137 | Duplicates are the common part of the fingerprints, the rest are migrated or errors, and the three counters add up to the number of alarms. |
| EventMigration.Fingerprints | src/main/java/com/softwareag/signalmigration/service/EventMigrationService.java:123-136 | One fingerprint per event, in order. |
| EventMigration.FingerprintsAppend | src/main/java/com/softwareag/signalmigration/service/EventMigrationService.java:123-136 | Fingerprints of a concatenation concatenate. |
| EventMigration.CreateUniqueHashesSet | src/main/java/com/softwareag/signalmigration/service/EventMigrationService.java:123-136 | The multiset holds one occurrence per target event fingerprint. |
| EventMigration.CopyKeepsFingerprint | src/main/java/com/softwareag/signalmigration/service/EventMigrationService.java:86-88 | Re-pointing an event to the target device keeps its fingerprint. |
| EventMigration.CopyEvents | src/main/java/com/softwareag/signalmigration/service/EventMigrationService.java:62-98 | The loop's counters, multiset and creates are those of the specification run. |
| EventMigration.RunFollowsDedup | src/main/java/com/softwareag/signalmigration/service/EventMigrationService.java:77-97 | Skipped events follow the common scheme; every other event is created once and counted migrated or an error. |
| EventMigration.RunWithoutFailures | src/main/java/com/softwareag/signalmigration/service/EventMigrationService.java:86-97 | Without failing creates no error is counted, and the created events carry exactly the kept fingerprints, in order. |
| EventMigration.KeptEventsFollowDedup | src/main/java/com/softwareag/signalmigration/service/EventMigrationService.java:77-84 | The events that are copied carry exactly the fingerprints the common scheme keeps. |
| EventMigration.RunCreatesKept | src/main/java/com/softwareag/signalmigration/service/EventMigrationService.java:65-97 | Whatever creates fail, one create is attempted per kept event, in order, with the trimmed event re-pointed at the target device, and none for a duplicate. |
| EventMigration.MigrateEvents | src/main/java/com/softwareag/signalmigration/service/EventMigrationService.java:37-120 | A fetch failure gives the fetch-failure report; otherwise the report carries both ids and the run's counters; the report is `MigrationReport` of the inputs. |
| EventMigration.CleanRun | src/main/java/com/softwareag/signalmigration/service/EventMigrationService.java:62-110 | A run without failures accounts for every event as migrated or skipped, skips the common part, and leaves the target holding its old fingerprints plus the excess of the source. |
| EventMigration.RerunSkipsEverything | src/test/java/com/softwareag/signalmigration/MigrationIT.java:700-703 | Re-running against the target with the first run's creates added migrates nothing, counts no error and skips what the first run migrated or skipped; against an empty target that is the first run's migrated count. |
| MeasurementMigration.Fingerprints | src/main/java/com/softwareag/signalmigration/service/MeasurementMigrationService.java:138-151 | One fingerprint per measurement, in order. |
| MeasurementMigration.FingerprintsAppend | src/main/java/com/softwareag/signalmigration/service/MeasurementMigrationService.java:138-151 | Fingerprints of a concatenation concatenate. |
| MeasurementMigration.CreateUniqueHashesSet | src/main/java/com/softwareag/signalmigration/service/MeasurementMigrationService.java:138-151 | The multiset holds one occurrence per target measurement fingerprint. |
| MeasurementMigration.CopyMeasurements | src/main/java/com/softwareag/signalmigration/service/MeasurementMigrationService.java:63-114 | The loop's counters, multiset, batch and bulk requests are those of the specification run. |
| MeasurementMigration.RunFollowsDedup | src/main/java/com/softwareag/signalmigration/service/MeasurementMigrationService.java:77-84 | Duplicates are skipped by the common scheme whatever the requests do. |
| MeasurementMigration.RunWithoutFailures | src/main/java/com/softwareag/signalmigration/service/MeasurementMigrationService.java:69-114 | Without failing requests, the bulk requests followed by the pending batch are the copies of the kept measurements, in order; every request holds 1 to 200 measurements and all but the last exactly 200; migrated counts what the requests carried; only a run ending with a kept measurement can end with a short request. |
| MeasurementMigration.KeptMeasurementsFollowDedup | src/main/java/com/softwareag/signalmigration/service/MeasurementMigrationService.java:71-84 | The measurements that are copied carry exactly the fingerprints the common scheme keeps. |
| MeasurementMigration.StepWithoutFailures | src/main/java/com/softwareag/signalmigration/service/MeasurementMigrationService.java:71-104 | One iteration adds the copy of a kept measurement to the requests and batch and nothing otherwise; a request is full unless it is sent for the last measurement. |
| MeasurementMigration.ErrorsWithoutFailures | src/main/java/com/softwareag/signalmigration/service/MeasurementMigrationService.java:69-113 | Without failing requests, only a measurement without an id adds to the error counter (the pending batch's size), so with every id present no error is counted. |
| MeasurementMigration.Batching | src/main/java/com/softwareag/signalmigration/service/MeasurementMigrationService.java:63-114 | From the loop's start without failing requests: the requests followed by the pending batch are the kept copies in order, in requests of 200 except the last, every sent measurement counts as migrated, and a kept last measurement leaves nothing pending. |
| MeasurementMigration.LastKeptFlushesBatch | src/main/java/com/softwareag/signalmigration/service/MeasurementMigrationService.java:89-104 | When the last measurement is kept and nothing fails, the batch is sent and left empty. |
| MeasurementMigration.FailedSubmitKeepsBatch | src/main/java/com/softwareag/signalmigration/service/MeasurementMigrationService.java:108-111 | A failed bulk request counts the whole batch as errors and does not clear it. |
| MeasurementMigration.TrailingUnkeptLeavesBatch | src/main/java/com/softwareag/signalmigration/service/MeasurementMigrationService.java:83-89 | When the last measurement is a duplicate or has no id, the kept copies beyond the last multiple of 200 stay pending, neither sent nor counted: the run makes (kept / 200) requests and migrates kept - (kept mod 200). |
| MeasurementMigration.MigrateMeasurements | src/main/java/com/softwareag/signalmigration/service/MeasurementMigrationService.java:39-135 | A fetch failure gives the fetch-failure report; otherwise the report carries both ids and the run's counters; the report is `MigrationReport` of the inputs. |
| ManagedObjectUtil.Get | src/main/java/com/softwareag/signalmigration/util/ManagedObjectUtil.java:39 | `map.get` is null for an absent key and for a stored null, and otherwise the stored value. |
| ManagedObjectUtil.GetNestedProperty | src/main/java/com/softwareag/signalmigration/util/ManagedObjectUtil.java:28-40 | The loop returns null when an intermediate segment is missing or not a map, throws for a path without segments, and otherwise reads the last segment. |
| ManagedObjectUtil.PutAlongWalk | src/main/java/com/softwareag/signalmigration/util/ManagedObjectUtil.java:47-54 | The put succeeds iff every intermediate segment leads to a map, and then changes that map at the key only. |
| ManagedObjectUtil.PutMissing | src/main/java/com/softwareag/signalmigration/util/ManagedObjectUtil.java:47-49 | The set returns false, changing nothing, iff some intermediate key is missing from the map reached before it. |
| ManagedObjectUtil.GetAfterSet | src/main/java/com/softwareag/signalmigration/util/ManagedObjectUtil.java:28-55 | After a set that returned true, a get on the same path returns the value, and other top-level fragments are unchanged. |
| ManagedObjectUtil.SingleSegment | src/main/java/com/softwareag/signalmigration/util/ManagedObjectUtil.java:28-55 | For a path without dots, get is a lookup and set a plain put. |
| ManagedObjectUtil.ReadFragment | src/main/java/com/softwareag/signalmigration/util/ManagedObjectUtil.java:81-92 | Null comes back iff the fragment is absent or null; a map fragment is converted. |
| ManagedObjectUtil.ReadAfterWrite | src/main/java/com/softwareag/signalmigration/util/ManagedObjectUtil.java:74-92 | Reading a written fragment gives the written fields; the id and the other fragments are unchanged. |
| ManagedObjectUtil.FilterNonUpdateable | src/main/java/com/softwareag/signalmigration/util/ManagedObjectUtil.java:112-120 | Clears id, lastUpdated, creation time, childAdditions, childDevices and deviceParents, keeping the fragments. |
| ManagedObjectUtil.FilterNonUpdateableByFragments | src/main/java/com/softwareag/signalmigration/util/ManagedObjectUtil.java:112-120 | Filtering is idempotent, and two objects filter to the same object iff their fragments are equal. |
| C8yService.BuildQueryByIdShape | src/main/java/com/softwareag/signalmigration/service/CumulocityService.java:313-319 | Every query starts with the id filter on the cursor, ends with the order by id, carries " and (query)" iff the query is not blank, and the cursor can be read back. |
| C8yService.CursorReadBack | src/main/java/com/softwareag/signalmigration/service/CumulocityService.java:314 | The cursor is recovered from the query when it holds no quote. |
| C8yService.Advance | src/main/java/com/softwareag/signalmigration/service/CumulocityService.java:274-304 | A thrown fetch counts one error and keeps cursor and done; a page is processed whole, moves the cursor to its last id when non-empty, and sets done iff it is short. |
| C8yService.PageStepInvariants | src/main/java/com/softwareag/signalmigration/service/CumulocityService.java:262-305 | One round keeps the cursor an id already processed, is done only after a short page, and never lowers the error count. |
| C8yService.AdvanceKeepsCursor | src/main/java/com/softwareag/signalmigration/service/CumulocityService.java:289 | Answering a query keeps the cursor "0" or an id already processed. |
| C8yService.IterateInvariants | src/main/java/com/softwareag/signalmigration/service/CumulocityService.java:256-305 | Whatever the pages, the cursor stays "0" or a processed id and the loop is done only after a short page. |
| C8yService.IterateCountsFailures | src/main/java/com/softwareag/signalmigration/service/CumulocityService.java:279-286 | Every object fetched is handed to the action in order; a failing action counts an error and does not stop the page. |
| C8yService.AdvanceCountsFailures | src/main/java/com/softwareag/signalmigration/service/CumulocityService.java:279-286 | One answer keeps the objects handed over so far and counts at least their failures. |
| C8yService.FailuresAppend | src/main/java/com/softwareag/signalmigration/service/CumulocityService.java:279-286 | Failures of consecutive pages add up. |
| C8yService.CumulocityService.ProcessPage | src/main/java/com/softwareag/signalmigration/service/CumulocityService.java:279-287 | The page loop processes every object and counts exactly the failing ones. |
| C8yService.CumulocityService.ProcessManagedObjects | src/main/java/com/softwareag/signalmigration/service/CumulocityService.java:251-311 | The loop's state after at most `fuel` rounds is that of the specification iteration. |
| C8yService.CumulocityService.Round | src/main/java/com/softwareag/signalmigration/service/CumulocityService.java:262-305 | One round queries the page after the cursor and takes its answer. |
| C8yService.CumulocityService.TakeAnswer | src/main/java/com/softwareag/signalmigration/service/CumulocityService.java:275-292 | Processing a page and moving the cursor gives the specified next state. |
| C8yService.CumulocityService.constructor | src/main/java/com/softwareag/signalmigration/service/CumulocityService.java:50-51 | A new service has sent no write. |
| C8yService.CumulocityService.CreateManagedObject | src/main/java/com/softwareag/signalmigration/service/CumulocityService.java:85-93 | With writes disabled it returns null without a call; otherwise it sends one create and returns the object with its new id, or the failure. |
| C8yService.CumulocityService.UpdateManagedObject | src/main/java/com/softwareag/signalmigration/service/CumulocityService.java:96-104 | With writes disabled it returns null without a call; otherwise it sends one update. |
| C8yService.CumulocityService.DeleteManagedObject | src/main/java/com/softwareag/signalmigration/service/CumulocityService.java:107-115 | With writes disabled it returns without a call; otherwise it sends one delete. |
| C8yService.Ids | src/main/java/com/softwareag/signalmigration/service/CumulocityService.java:139-145 | The ids of all objects, in order, or none when one object has no id. |
| C8yService.CollectIds | src/main/java/com/softwareag/signalmigration/service/CumulocityService.java:139-145 | The collecting loop gives exactly those ids. |
| C8yService.DeleteCalls | src/main/java/com/softwareag/signalmigration/service/CumulocityService.java:146-153 | One delete per id, in order. |
| C8yService.DeleteCallsAppend | src/main/java/com/softwareag/signalmigration/service/CumulocityService.java:146-153 | Deletes of consecutive id lists concatenate. |
| C8yService.CumulocityService.DeleteEach | src/main/java/com/softwareag/signalmigration/service/CumulocityService.java:146-153 | Every id gets its delete in order, a failing one does not stop the rest, and disabled writes send nothing. |
| C8yService.CumulocityService.DeleteManagedObjectsByFilter | src/main/java/com/softwareag/signalmigration/service/CumulocityService.java:134-155 | A null result returns, an object without id throws before any delete, and otherwise all ids are collected first and each deleted. |
| MeasurementRename.FragmentOf | src/main/java/com/softwareag/signalmigration/service/MeasurementRenameService.java:95 | The fragment is null iff absent or null, a map when it holds one, and otherwise the cast throws. |
| MeasurementRename.Renamed | src/main/java/com/softwareag/signalmigration/service/MeasurementRenameService.java:119-121 | The new key maps to the old series value, the old key is gone when different, and other keys are unchanged. |
| MeasurementRename.RenamedInverse | src/main/java/com/softwareag/signalmigration/service/MeasurementRenameService.java:119-121 | Renaming to itself changes nothing, and renaming to a free key and back restores the fragment. |
| MeasurementRename.RenamedCopyFields | src/main/java/com/softwareag/signalmigration/service/MeasurementRenameService.java:108-121 | The copy has no id or self and differs from the original only in the renamed fragment. |
| MeasurementRename.RenameStepSpec | src/main/java/com/softwareag/signalmigration/service/MeasurementRenameService.java:90-148 | Skipped iff the fragment reads and lacks the series, and then no call; under dryRun no call; otherwise the renamed copy is created and the original deleted only when the create did not throw; a throw gives error, never together with skipped. |
| MeasurementRename.RenameNext | src/main/java/com/softwareag/signalmigration/service/MeasurementRenameService.java:66-76 | One more rename appends one result and only appends calls. |
| MeasurementRename.RenameFrom | src/main/java/com/softwareag/signalmigration/service/MeasurementRenameService.java:66-76 | A run appends one result per measurement and only appends calls. |
| MeasurementRename.RenameFromStep | src/main/java/com/softwareag/signalmigration/service/MeasurementRenameService.java:66-76 | A run from position i is the rename of the i-th measurement followed by the run from i+1. |
| MeasurementRename.CountErrors | src/main/java/com/softwareag/signalmigration/service/MeasurementRenameService.java:81 | At most one error per result. |
| MeasurementRename.CountSkipped | src/main/java/com/softwareag/signalmigration/service/MeasurementRenameService.java:82 | At most one skip per result. |
| MeasurementRename.NumProcessed | src/main/java/com/softwareag/signalmigration/service/MeasurementRenameService.java:66-76 | At most maxMsmtsToProcess (at least one when any is available) measurements are handed over, and fewer than available only when the cap was reached. |
| MeasurementRename.DryRunCallsNothing | src/main/java/com/softwareag/signalmigration/service/MeasurementRenameService.java:102 | Under dryRun a run makes no call and copies nothing. |
| MeasurementRename.CountsWithinProcessed | src/main/java/com/softwareag/signalmigration/service/MeasurementRenameService.java:79-84 | When no result is both, errors plus skips never exceed the results counted. |
| MeasurementRename.RenameFromExclusive | src/main/java/com/softwareag/signalmigration/service/MeasurementRenameService.java:100-142 | No rename result is both an error and a skip. |
| MeasurementRename.RenameTallyBounds | src/main/java/com/softwareag/signalmigration/service/MeasurementRenameService.java:79-84 | A run has one result per measurement and its two counters together stay within that number. |
| MeasurementRename.CountResults | src/main/java/com/softwareag/signalmigration/service/MeasurementRenameService.java:79-84 | The second loop counts exactly the error and skip flags. |
| MeasurementRename.MeasurementRenameService.constructor | src/main/java/com/softwareag/signalmigration/service/MeasurementRenameService.java:30-35 | A new service has made no call and copied nothing. |
| MeasurementRename.MeasurementRenameService.RenameMsmt | src/main/java/com/softwareag/signalmigration/service/MeasurementRenameService.java:90-148 | The calls and copy count change as the one-measurement specification says, and the result is its flags. |
| MeasurementRename.MeasurementRenameService.RenameAndRecord | src/main/java/com/softwareag/signalmigration/service/MeasurementRenameService.java:68-70 | One submission renames a measurement and keeps its result. |
| MeasurementRename.MeasurementRenameService.SubmitRenames | src/main/java/com/softwareag/signalmigration/service/MeasurementRenameService.java:62-76 | The submit loop renames exactly the first numProcessed measurements, in order. |
| MeasurementRename.MeasurementRenameService.RenameValueFragmentSeries | src/main/java/com/softwareag/signalmigration/service/MeasurementRenameService.java:50-88 | A failed query changes nothing; otherwise numCopied restarts at 0, exactly the capped prefix is renamed in order, and the returned counters are those of its results. |
| SignalMetrics.CompareInstants | src/main/java/com/softwareag/signalmigration/service/SignalMetricCollectionService.java:124 | -1, 0 or 1 as the first instant is before, equal to or after the second. |
| SignalMetrics.CompareMetrics | src/main/java/com/softwareag/signalmigration/service/SignalMetricCollectionService.java:111-126 | Two undated metrics are equal, a dated metric comes before an undated one in both argument orders, and two dated ones compare chronologically. |
| SignalMetrics.CompareMetricsIsComparator | src/main/java/com/softwareag/signalmigration/service/SignalMetricCollectionService.java:111-126 | The comparator meets the `Comparator` contract. |
| SignalMetrics.GetMetrics | src/main/java/com/softwareag/signalmigration/service/SignalMetricCollectionService.java:133-139 | A metric is tagged with the type and device asked for. |
| SignalMetrics.CollectDeviceMetrics | src/main/java/com/softwareag/signalmigration/service/SignalMetricCollectionService.java:128-143 | A device's metrics are measurement, alarm, event, in that order, each for that device. |
| SignalMetrics.ContributionOfDevice | src/main/java/com/softwareag/signalmigration/service/SignalMetricCollectionService.java:84-89 | A device contributes three metrics or none, all for that device. |
| SignalMetrics.GatheredInThrees | src/main/java/com/softwareag/signalmigration/service/SignalMetricCollectionService.java:82-95 | The gathered list's length is a multiple of three. |
| SignalMetrics.GatheredFromDevices | src/main/java/com/softwareag/signalmigration/service/SignalMetricCollectionService.java:82-95 | Every gathered metric belongs to one of the devices. |
| SignalMetrics.CollectDeviceSignalMetrics | src/main/java/com/softwareag/signalmigration/service/SignalMetricCollectionService.java:71-109 | A failed device query is returned; otherwise the gathered metrics sorted by the comparator. |
| SignalMetrics.CollectedSorted | src/main/java/com/softwareag/signalmigration/service/SignalMetricCollectionService.java:106 | The returned list is sorted, a permutation of the gathered metrics, and stable. |
| SignalMetrics.UndatedLast | src/main/java/com/softwareag/signalmigration/service/SignalMetricCollectionService.java:106-123 | In the sorted list every undated metric comes after every dated one. |
| SignalMetrics.OfType | src/main/java/com/softwareag/signalmigration/service/SignalMetricCollectionService.java:40-50 | The filter keeps exactly the metrics of the type. |
| SignalMetrics.TypesPartition | src/main/java/com/softwareag/signalmigration/service/SignalMetricCollectionService.java:40-50 | The three per-type lists together are exactly the metrics, each in one list. |
| SignalMetrics.Summarize | src/main/java/com/softwareag/signalmigration/service/SignalMetricCollectionService.java:40-50 | The statistics count the values and sum them; min and max are bounds attained by some value, with Long's extremes for no value. |
| SignalMetrics.GroupOf | src/main/java/com/softwareag/signalmigration/service/SignalMetricCollectionService.java:35-68 | The group carries the device metrics unchanged. |
| SignalMetrics.GroupCountsAddUp | src/main/java/com/softwareag/signalmigration/service/SignalMetricCollectionService.java:40-50 | The three per-type counts add up to the number of metrics and the three sums to the total. |
| SignalMetrics.SumSplit | src/main/java/com/softwareag/signalmigration/service/SignalMetricCollectionService.java:40-50 | The per-type sums add up to the total sum. |
| SignalMetrics.SumAppend | src/main/java/com/softwareag/signalmigration/service/SignalMetricCollectionService.java:40-50 | Sums of consecutive lists add up. |

## Left out

- Threads, executors and `synchronized`: the device tasks of a job run one after another (`RunDeviceTasks`), each completion is one atomic `HandleDeviceReport`, rename submissions are taken back in submission order, and metrics are gathered in device order.
- The platform SDK: paged fetches, creates, bulk creates, updates, deletes and identity lookups are oracles and call logs. A fetch that fails part-way through its pages is modelled as a fetch that fails as a whole.
- `toJSON().hashCode()`, `Objects.hash` and Jackson's `convertValue` are function parameters; nothing is assumed about collisions.
- Dates are integers; the date range of the signal queries and of the metrics, `DateUtil`, `CustomFilter` and `MigrationJobConfig.getSignalQueryParams` are not part of this model (the query parameters are given).
- The clock: `durationSec` is a parameter; `Thread.sleep` is dropped.
- The resilience4j retry around `saveJob` and the identity fetch: a single attempt is modelled.
- Logging and the `MeterRegistry` counters.
- Java `int`/`long` overflow of the counters and of the page-statistics sums.
- In-place mutation of records (`trimTenantSpecificFields`, `setCount`, `setSource`, `setNestedProperty`'s put, the rename's `remove`/`put`): records are values and these return the changed record, so aliasing between a caller's record and the mutated one is not captured.
- `e.getMessage()` is taken as a non-null message.
- C8yService.CumulocityService.ProcessManagedObjects: the source loop can run forever when every fetch throws; the model runs at most `fuel` rounds.
- The alarm status order follows the code's descending string comparison, CLEARED, ACTIVE, ACKNOWLEDGED, and not the order CLEARED, ACKNOWLEDGED, ACTIVE that a description of the system gives.
- `dryRun` and `maxMsmtsToProcess` are fixed private fields in the source; the model takes them as parameters of the service.
- SignalMetrics.Summarize: the `LongSummaryStatistics` average is floating point and is left out; min and max are the exact long values.
- `CustomQueryParam.setValue` mutates a shared enum constant, a race between workers that is not modelled.
- The pass-through inventory calls (`getManagedObject`, `getManagedObjectsByFilter`, operations, child assets, measurement helpers), `deleteManagedObjectsByType`/`ByFragment` (filter builders around `deleteManagedObjectsByFilter`), `loadIncompleteJobs`, `resumeIncompleteJobs`, the subscription hook, `saveJob`'s retry wrapper, `parseC8yRepresenationJSON` and `getObjectMapper`.
- JobService.MigrationJobService.MigrateDeviceSignals: the writes the migrators send to the target tenant are returned by them but not kept by the job service.
- Null alarm statuses and a null signal type: `Alarm.status` is a string and the signal type a three-valued enumeration. The source's NullPointerExceptions are not modelled: the sort's `compareTo` with two or more alarms, one without status (caught at AlarmMigrationService.java:128-135, giving the fetch-failure report); the `equals` at :212 for a multi-count alarm without status (an error); the `equals` at MigrationJobService.java:252 for a job without signal type (an error report).
- Ids are `Option<string>`, so a missing `GId` and a `GId` whose value is null are one case, the NullPointerException. In the source the second does not throw: `getValue()` gives null, which at CumulocityService.java:289 becomes the string "null" in the next page's query.
- The `UnsupportedOperationException` branch of `migrateDeviceSignals` cannot be reached, since the signal type is a three-valued enumeration.
- `DeviceMigrationService`, the REST controllers, `Application` and `RetryConfiguration` are not part of this model.
