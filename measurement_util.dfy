/** Measurement helpers: the fetch query, the removal of tenant-specific
    fields, the fingerprint and the loose equality. */
module MeasurementUtil {
  import opened Wrappers
  import opened Records

  /** `getMeasurements`: the device's measurements that match the caller's parameters. */
  function GetMeasurements(t: Tenant, deviceId: string, params: seq<QueryParam>): Result<seq<Measurement>>
  {
    t.measurements(WithSource(params, deviceId))
  }

  predicate IsTrimmed(m: Measurement)
  {
    m.self.None? && m.id.None? && m.source.None?
  }

  /** What a measurement says, as opposed to where it is stored. The creation
      time is part of it: trimming keeps it. */
  datatype MeasurementContent = MeasurementContent(
    creationTime: Option<int>, msmtType: string, time: int, attrs: map<string, Json>)

  function Content(m: Measurement): MeasurementContent
  {
    MeasurementContent(m.creationTime, m.msmtType, m.time, m.attrs)
  }

  /** `trimTenantSpecificFields`: clears self, id and source only. */
  function Trim(m: Measurement): (r: Measurement)
    ensures IsTrimmed(r)
    ensures Content(r) == Content(m)
  {
    m.(self := None, id := None, source := None)
  }

  lemma TrimIdempotent(m: Measurement)
    ensures Trim(Trim(m)) == Trim(m)
  {
  }

  /** Two measurements trim to the same record exactly when they say the same thing. */
  lemma TrimDeterminedByContent(a: Measurement, b: Measurement)
    ensures Trim(a) == Trim(b) <==> Content(a) == Content(b)
  {
    if Content(a) == Content(b) {
      assert Content(Trim(a)) == Content(Trim(b));
    }
  }

  /** `generateUniqueHash`: trims the measurement (in place in the source;
      the trimmed record is `Trim(m)` here) and hashes the result;
      `fingerprint` stands for `toJSON().hashCode()`. */
  function Fingerprint(fingerprint: Measurement -> int, m: Measurement): int
  {
    fingerprint(Trim(m))
  }

  /** The fingerprint depends on the content only, so re-fingerprinting a
      fingerprinted (trimmed) record gives the same value. */
  lemma FingerprintIgnoresTenantFields(fingerprint: Measurement -> int, a: Measurement, b: Measurement)
    ensures Content(a) == Content(b) ==> Fingerprint(fingerprint, a) == Fingerprint(fingerprint, b)
    ensures Fingerprint(fingerprint, Trim(a)) == Fingerprint(fingerprint, a)
  {
    TrimDeterminedByContent(a, b);
  }

  /** The fields `equalIgnoringTenantSpecificFields` feeds to `Objects.hash`. */
  datatype EqualityKey = EqualityKey(attrs: map<string, Json>, msmtType: string, time: int)

  /** `equalIgnoringTenantSpecificFields`: the hashes of (attrs, type, time)
      agree; `objectsHash` stands for `Objects.hash`. */
  predicate EqualIgnoringTenantSpecificFields(objectsHash: EqualityKey -> int, a: Measurement, b: Measurement)
  {
    objectsHash(EqualityKey(a.attrs, a.msmtType, a.time))
      == objectsHash(EqualityKey(b.attrs, b.msmtType, b.time))
  }

  lemma EqualIgnoringIsEquivalence(objectsHash: EqualityKey -> int, a: Measurement, b: Measurement, c: Measurement)
    ensures EqualIgnoringTenantSpecificFields(objectsHash, a, a)
    ensures EqualIgnoringTenantSpecificFields(objectsHash, a, b) == EqualIgnoringTenantSpecificFields(objectsHash, b, a)
    ensures EqualIgnoringTenantSpecificFields(objectsHash, a, b) && EqualIgnoringTenantSpecificFields(objectsHash, b, c)
            ==> EqualIgnoringTenantSpecificFields(objectsHash, a, c)
  {
  }

  /** Trimming never changes what the loose equality sees. */
  lemma EqualIgnoringTrim(objectsHash: EqualityKey -> int, m: Measurement)
    ensures EqualIgnoringTenantSpecificFields(objectsHash, m, Trim(m))
  {
  }
}
