/** Event helpers: the fetch query, the removal of tenant-specific fields,
    the fingerprint and the loose equality. */
module EventUtil {
  import opened Wrappers
  import opened Records

  /** `getEvents`: the device's events that match the caller's parameters. */
  function GetEvents(t: Tenant, deviceId: string, params: seq<QueryParam>): Result<seq<Event>>
  {
    t.events(WithSource(params, deviceId))
  }

  predicate IsTrimmed(e: Event)
  {
    e.self.None? && e.id.None? && e.source.None? && e.creationTime.None? && e.lastUpdated.None?
  }

  /** What an event says, as opposed to where it is stored. */
  datatype EventContent = EventContent(eventType: string, text: string, time: int, attrs: map<string, Json>)

  function Content(e: Event): EventContent
  {
    EventContent(e.eventType, e.text, e.time, e.attrs)
  }

  /** `trimTenantSpecificFields`: clears self, id, source, creationTime and
      lastUpdated and keeps everything else. */
  function Trim(e: Event): (r: Event)
    ensures IsTrimmed(r)
    ensures Content(r) == Content(e)
  {
    e.(self := None, id := None, source := None, creationTime := None, lastUpdated := None)
  }

  lemma TrimIdempotent(e: Event)
    ensures Trim(Trim(e)) == Trim(e)
  {
  }

  /** Two events trim to the same record exactly when they say the same thing. */
  lemma TrimDeterminedByContent(a: Event, b: Event)
    ensures Trim(a) == Trim(b) <==> Content(a) == Content(b)
  {
    if Content(a) == Content(b) {
      assert Content(Trim(a)) == Content(Trim(b));
    }
  }

  /** `generateUniqueHash`: trims the event (in place in the source; the
      trimmed record is `Trim(e)` here) and hashes the result; `fingerprint`
      stands for `toJSON().hashCode()`. */
  function Fingerprint(fingerprint: Event -> int, e: Event): int
  {
    fingerprint(Trim(e))
  }

  /** The fingerprint depends on the content only, so hashing a record that
      was already hashed (and therefore trimmed) gives the same value. */
  lemma FingerprintIgnoresTenantFields(fingerprint: Event -> int, a: Event, b: Event)
    ensures Content(a) == Content(b) ==> Fingerprint(fingerprint, a) == Fingerprint(fingerprint, b)
    ensures Fingerprint(fingerprint, Trim(a)) == Fingerprint(fingerprint, a)
  {
    TrimDeterminedByContent(a, b);
  }

  /** The fields `equalIgnoringTenantSpecificFields` feeds to `Objects.hash`. */
  datatype EqualityKey = EqualityKey(attrs: map<string, Json>, eventType: string, time: int, text: string)

  /** `equalIgnoringTenantSpecificFields`: the hashes of (attrs, type, time,
      text) agree; `objectsHash` stands for `Objects.hash`. */
  predicate EqualIgnoringTenantSpecificFields(objectsHash: EqualityKey -> int, a: Event, b: Event)
  {
    objectsHash(EqualityKey(a.attrs, a.eventType, a.time, a.text))
      == objectsHash(EqualityKey(b.attrs, b.eventType, b.time, b.text))
  }

  lemma EqualIgnoringIsEquivalence(objectsHash: EqualityKey -> int, a: Event, b: Event, c: Event)
    ensures EqualIgnoringTenantSpecificFields(objectsHash, a, a)
    ensures EqualIgnoringTenantSpecificFields(objectsHash, a, b) == EqualIgnoringTenantSpecificFields(objectsHash, b, a)
    ensures EqualIgnoringTenantSpecificFields(objectsHash, a, b) && EqualIgnoringTenantSpecificFields(objectsHash, b, c)
            ==> EqualIgnoringTenantSpecificFields(objectsHash, a, c)
  {
  }

  /** Trimming never changes what the loose equality sees. */
  lemma EqualIgnoringTrim(objectsHash: EqualityKey -> int, e: Event)
    ensures EqualIgnoringTenantSpecificFields(objectsHash, e, Trim(e))
  {
  }
}
