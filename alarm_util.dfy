/** Alarm helpers: the fetch query, the removal of tenant-specific fields,
    the fingerprint and the loose equality. */
module AlarmUtil {
  import opened Wrappers
  import opened Records

  /** `getAlarms`: the device's alarms that match the caller's parameters. */
  function GetAlarms(t: Tenant, deviceId: string, params: seq<QueryParam>): Result<seq<Alarm>>
  {
    t.alarms(WithSource(params, deviceId))
  }

  /** None of the fields that only make sense inside one tenant is set. */
  predicate IsTrimmed(a: Alarm)
  {
    a.self.None? && a.id.None? && a.source.None? && a.lastUpdated.None?
    && a.creationTime.None? && a.history.None?
  }

  /** What an alarm says, as opposed to where it is stored. */
  datatype AlarmContent = AlarmContent(
    alarmType: string, text: string, status: string, count: Option<int>, severity: string,
    time: Option<int>, firstOccurrence: Option<int>, attrs: map<string, Json>)

  function Content(a: Alarm): AlarmContent
  {
    AlarmContent(a.alarmType, a.text, a.status, a.count, a.severity, a.time, a.firstOccurrence, a.attrs)
  }

  /** `trimTenantSpecificFields`: clears self, id, source, lastUpdated,
      creationTime and history and keeps everything else. */
  function Trim(a: Alarm): (r: Alarm)
    ensures IsTrimmed(r)
    ensures Content(r) == Content(a)
  {
    a.(self := None, id := None, source := None, lastUpdated := None,
       creationTime := None, history := None)
  }

  lemma TrimIdempotent(a: Alarm)
    ensures Trim(Trim(a)) == Trim(a)
  {
  }

  /** Two alarms trim to the same record exactly when they say the same thing. */
  lemma TrimDeterminedByContent(a: Alarm, b: Alarm)
    ensures Trim(a) == Trim(b) <==> Content(a) == Content(b)
  {
    if Content(a) == Content(b) {
      assert Content(Trim(a)) == Content(Trim(b));
    }
  }

  /** `generateUniqueHash` hashes the alarm as it is; `fingerprint` stands for
      `toJSON().hashCode()`. Callers trim first, which makes the fingerprint a
      function of the content alone. */
  function Fingerprint(fingerprint: Alarm -> int, a: Alarm): int
  {
    fingerprint(a)
  }

  lemma TrimmedFingerprintIgnoresTenantFields(fingerprint: Alarm -> int, a: Alarm, b: Alarm)
    requires Content(a) == Content(b)
    ensures Fingerprint(fingerprint, Trim(a)) == Fingerprint(fingerprint, Trim(b))
  {
    TrimDeterminedByContent(a, b);
  }

  /** The fields `equalIgnoringTenantSpecificFields` feeds to `Objects.hash`. */
  datatype EqualityKey = EqualityKey(attrs: map<string, Json>, alarmType: string,
                                     time: Option<int>, firstOccurrence: Option<int>)

  /** `equalIgnoringTenantSpecificFields`: the hashes of (attrs, type, time,
      firstOccurrence) agree; `objectsHash` stands for `Objects.hash`. */
  predicate EqualIgnoringTenantSpecificFields(objectsHash: EqualityKey -> int, a: Alarm, b: Alarm)
  {
    objectsHash(EqualityKey(a.attrs, a.alarmType, a.time, a.firstOccurrence))
      == objectsHash(EqualityKey(b.attrs, b.alarmType, b.time, b.firstOccurrence))
  }

  lemma EqualIgnoringIsEquivalence(objectsHash: EqualityKey -> int, a: Alarm, b: Alarm, c: Alarm)
    ensures EqualIgnoringTenantSpecificFields(objectsHash, a, a)
    ensures EqualIgnoringTenantSpecificFields(objectsHash, a, b) == EqualIgnoringTenantSpecificFields(objectsHash, b, a)
    ensures EqualIgnoringTenantSpecificFields(objectsHash, a, b) && EqualIgnoringTenantSpecificFields(objectsHash, b, c)
            ==> EqualIgnoringTenantSpecificFields(objectsHash, a, c)
  {
  }

  /** Trimming never changes what the loose equality sees. */
  lemma EqualIgnoringTrim(objectsHash: EqualityKey -> int, a: Alarm)
    ensures EqualIgnoringTenantSpecificFields(objectsHash, a, Trim(a))
  {
  }
}
