/** `EventMigrationService`: copies one device's events to its target device,
    one create per event, skipping the events the target already has. */
module EventMigration {
  import opened Wrappers
  import opened Records
  import EventUtil
  import opened Dedup
  import opened JobModel

  /** The fingerprint of every event of `s`, in order. */
  function Fingerprints(fingerprint: Event -> int, s: seq<Event>): (r: seq<int>)
    ensures |r| == |s| && forall i :: 0 <= i < |s| ==> r[i] == EventUtil.Fingerprint(fingerprint, s[i])
  {
    if s == [] then [] else [EventUtil.Fingerprint(fingerprint, s[0])] + Fingerprints(fingerprint, s[1..])
  }

  lemma FingerprintsSnoc(fingerprint: Event -> int, s: seq<Event>, i: int)
    requires 0 <= i < |s|
    ensures Fingerprints(fingerprint, s[..i + 1]) == Fingerprints(fingerprint, s[..i]) + [EventUtil.Fingerprint(fingerprint, s[i])]
  {
    assert s[..i + 1] == s[..i] + [s[i]];
    FingerprintsAppend(fingerprint, s[..i], [s[i]]);
  }

  /** `createUniqueHashesSet`: one occurrence per target event. */
  method CreateUniqueHashesSet(fingerprint: Event -> int, targets: seq<Event>) returns (hashes: multiset<int>)
    ensures hashes == multiset(Fingerprints(fingerprint, targets))
    ensures |hashes| == |targets|
  {
    hashes := multiset{};
    for i := 0 to |targets|
      invariant hashes == multiset(Fingerprints(fingerprint, targets[..i]))
    {
      FingerprintsSnoc(fingerprint, targets, i);
      hashes := hashes + multiset{EventUtil.Fingerprint(fingerprint, targets[i])};
    }
    assert targets[..|targets|] == targets;
  }

  /** The event that is created on the target: the trimmed source event with
      the target device as its source. */
  function CopyFor(e: Event, targetDeviceId: string): Event
  {
    EventUtil.Trim(e).(source := Some(targetDeviceId))
  }

  /** A copy has the fingerprint of its original. */
  lemma CopyKeepsFingerprint(fingerprint: Event -> int, e: Event, targetDeviceId: string)
    ensures EventUtil.Fingerprint(fingerprint, CopyFor(e, targetDeviceId)) == EventUtil.Fingerprint(fingerprint, e)
  {
    assert EventUtil.Trim(CopyFor(e, targetDeviceId)) == EventUtil.Trim(e);
  }

  /** The loop's counters, the hash multiset, and the creates attempted on
      the target (create number `i` throws iff `i` is in `fails`). */
  datatype Tally = Tally(migrated: int, errors: int, skipped: int, hashes: multiset<int>, created: seq<Event>)

  function Step(fingerprint: Event -> int, targetDeviceId: string, fails: set<nat>, t: Tally, e: Event): Tally
  {
    var k := EventUtil.Fingerprint(fingerprint, e);
    if k in t.hashes then t.(skipped := t.skipped + 1, hashes := t.hashes - multiset{k})
    else if |t.created| in fails then t.(errors := t.errors + 1, created := t.created + [CopyFor(e, targetDeviceId)])
    else t.(migrated := t.migrated + 1, created := t.created + [CopyFor(e, targetDeviceId)])
  }

  function Run(fingerprint: Event -> int, targetDeviceId: string, fails: set<nat>, t: Tally, s: seq<Event>): Tally
    decreases |s|
  {
    if s == [] then t else Run(fingerprint, targetDeviceId, fails, Step(fingerprint, targetDeviceId, fails, t, s[0]), s[1..])
  }

  function InitialTally(hashes: multiset<int>): Tally
  {
    Tally(0, 0, 0, hashes, [])
  }

  /** The loop of `migrateEvents` over the source events. */
  method CopyEvents(events: seq<Event>, targetDeviceId: string, fingerprint: Event -> int, fails: set<nat>,
                    uniqueHashes: multiset<int>)
    returns (numMigrated: int, numErrors: int, numDuplicatesSkipped: int, left: multiset<int>, created: seq<Event>)
    ensures Tally(numMigrated, numErrors, numDuplicatesSkipped, left, created)
      == Run(fingerprint, targetDeviceId, fails, InitialTally(uniqueHashes), events)
  {
    numMigrated, numErrors, numDuplicatesSkipped, left, created := 0, 0, 0, uniqueHashes, [];
    var i := 0;
    while i < |events|
      invariant 0 <= i <= |events|
      invariant Run(fingerprint, targetDeviceId, fails, Tally(numMigrated, numErrors, numDuplicatesSkipped, left, created), events[i..])
        == Run(fingerprint, targetDeviceId, fails, InitialTally(uniqueHashes), events)
    {
      assert events[i..][1..] == events[i + 1..];
      var event := EventUtil.Trim(events[i]);
      var uniqueHash := EventUtil.Fingerprint(fingerprint, event);
      assert uniqueHash == EventUtil.Fingerprint(fingerprint, events[i]);
      if uniqueHash in left {
        left := left - multiset{uniqueHash};
        numDuplicatesSkipped := numDuplicatesSkipped + 1;
      } else {
        event := event.(source := Some(targetDeviceId));
        var failed := |created| in fails;
        created := created + [event];
        if failed {
          numErrors := numErrors + 1;
        } else {
          numMigrated := numMigrated + 1;
        }
      }
      i := i + 1;
    }
  }

  /** The report `migrateEvents` hands over: the failed fetch's report, or
      the completed report with the loop's counters. */
  function MigrationReport(source: Tenant, target: Tenant, sourceDeviceId: string, targetDeviceId: string,
                           params: seq<QueryParam>, fingerprint: Event -> int, fails: set<nat>, durationSec: int): Report
  {
    var targets := EventUtil.GetEvents(target, targetDeviceId, params);
    var sources := EventUtil.GetEvents(source, sourceDeviceId, params);
    if targets.Err? then FetchFailedReport(targets.msg, durationSec)
    else if sources.Err? then FetchFailedReport(sources.msg, durationSec)
    else
      var r := Run(fingerprint, targetDeviceId, fails, InitialTally(multiset(Fingerprints(fingerprint, targets.value))), sources.value);
      CompletedReport(sourceDeviceId, targetDeviceId, r.migrated, r.errors, r.skipped, durationSec)
  }

  /** `migrateEvents`. `durationSec` is what the clock measured. */
  method MigrateEvents(source: Tenant, target: Tenant, sourceDeviceId: string, targetDeviceId: string,
                       params: seq<QueryParam>, fingerprint: Event -> int, fails: set<nat>, durationSec: int)
    returns (report: Report, created: seq<Event>)
    ensures report == MigrationReport(source, target, sourceDeviceId, targetDeviceId, params, fingerprint, fails, durationSec)
    ensures var targets := EventUtil.GetEvents(target, targetDeviceId, params);
      var sources := EventUtil.GetEvents(source, sourceDeviceId, params);
      if targets.Err? then report == FetchFailedReport(targets.msg, durationSec) && created == []
      else if sources.Err? then report == FetchFailedReport(sources.msg, durationSec) && created == []
      else
        var r := Run(fingerprint, targetDeviceId, fails, InitialTally(multiset(Fingerprints(fingerprint, targets.value))), sources.value);
        && report == CompletedReport(sourceDeviceId, targetDeviceId, r.migrated, r.errors, r.skipped, durationSec)
        && created == r.created
  {
    var trgtEvents := EventUtil.GetEvents(target, targetDeviceId, params);
    if trgtEvents.Err? {
      report, created := FetchFailedReport(trgtEvents.msg, durationSec), [];
      return;
    }
    var uniqueHashes := CreateUniqueHashesSet(fingerprint, trgtEvents.value);
    var sourceEvents := EventUtil.GetEvents(source, sourceDeviceId, params);
    if sourceEvents.Err? {
      report, created := FetchFailedReport(sourceEvents.msg, durationSec), [];
      return;
    }
    var numMigrated, numErrors, numDuplicatesSkipped, _, made
      := CopyEvents(sourceEvents.value, targetDeviceId, fingerprint, fails, uniqueHashes);
    created := made;
    report := CompletedReport(sourceDeviceId, targetDeviceId, numMigrated, numErrors, numDuplicatesSkipped, durationSec);
  }

  /** The loop follows the deduplication scheme: the skipped events are the
      common part of source and target, every other one is created once (and
      counted as migrated or, when the create throws, as an error). */
  lemma {:induction false} RunFollowsDedup(fingerprint: Event -> int, targetDeviceId: string, fails: set<nat>,
                                           t: Tally, s: seq<Event>)
    decreases |s|
    ensures var r := Run(fingerprint, targetDeviceId, fails, t, s);
      var ks := Fingerprints(fingerprint, s);
      && r.skipped == t.skipped + |Skipped(t.hashes, ks)|
      && r.hashes == Left(t.hashes, ks)
      && r.migrated + r.errors == t.migrated + t.errors + |Kept(t.hashes, ks)|
      && |r.created| == |t.created| + |Kept(t.hashes, ks)|
      && r.migrated >= t.migrated && r.errors >= t.errors
  {
    if s != [] {
      RunFollowsDedup(fingerprint, targetDeviceId, fails, Step(fingerprint, targetDeviceId, fails, t, s[0]), s[1..]);
      var ks := Fingerprints(fingerprint, s);
      assert ks[0] == EventUtil.Fingerprint(fingerprint, s[0]);
      assert ks[1..] == Fingerprints(fingerprint, s[1..]);
    }
  }

  /** The source events that are copied, in order: those whose fingerprint
      finds no occurrence left in the multiset. */
  function KeptEvents(fingerprint: Event -> int, hashes: multiset<int>, s: seq<Event>): seq<Event>
    decreases |s|
  {
    if s == [] then []
    else
      var k := EventUtil.Fingerprint(fingerprint, s[0]);
      if k in hashes then KeptEvents(fingerprint, hashes - multiset{k}, s[1..])
      else [s[0]] + KeptEvents(fingerprint, hashes, s[1..])
  }

  /** The kept events carry exactly the fingerprints the deduplication
      scheme keeps. */
  lemma {:induction false} KeptEventsFollowDedup(fingerprint: Event -> int, hashes: multiset<int>, s: seq<Event>)
    decreases |s|
    ensures Fingerprints(fingerprint, KeptEvents(fingerprint, hashes, s)) == Kept(hashes, Fingerprints(fingerprint, s))
  {
    if s != [] {
      var ks := Fingerprints(fingerprint, s);
      var k := EventUtil.Fingerprint(fingerprint, s[0]);
      assert ks[0] == k && ks[1..] == Fingerprints(fingerprint, s[1..]);
      if k in hashes {
        KeptEventsFollowDedup(fingerprint, hashes - multiset{k}, s[1..]);
      } else {
        var rest := KeptEvents(fingerprint, hashes, s[1..]);
        KeptEventsFollowDedup(fingerprint, hashes, s[1..]);
        assert ([s[0]] + rest)[1..] == rest;
      }
    }
  }

  /** The events created from `s`: each trimmed and re-pointed. */
  function Copies(s: seq<Event>, targetDeviceId: string): (r: seq<Event>)
    ensures |r| == |s| && forall i :: 0 <= i < |s| ==> r[i] == CopyFor(s[i], targetDeviceId)
  {
    if s == [] then [] else [CopyFor(s[0], targetDeviceId)] + Copies(s[1..], targetDeviceId)
  }

  /** Whatever creates fail, a create is attempted for every kept event, in
      order, with the trimmed event re-pointed at the target device, and for
      no skipped one. */
  lemma {:induction false} RunCreatesKept(fingerprint: Event -> int, targetDeviceId: string, fails: set<nat>,
                                          t: Tally, s: seq<Event>)
    decreases |s|
    ensures Run(fingerprint, targetDeviceId, fails, t, s).created
         == t.created + Copies(KeptEvents(fingerprint, t.hashes, s), targetDeviceId)
  {
    if s != [] {
      RunCreatesKept(fingerprint, targetDeviceId, fails, Step(fingerprint, targetDeviceId, fails, t, s[0]), s[1..]);
      if EventUtil.Fingerprint(fingerprint, s[0]) !in t.hashes {
        var rest := KeptEvents(fingerprint, t.hashes, s[1..]);
        assert ([s[0]] + rest)[1..] == rest;
      }
    }
  }

  /** Without failing creates, no error is counted and the created events
      carry exactly the kept fingerprints, in order. */
  lemma {:induction false} RunWithoutFailures(fingerprint: Event -> int, targetDeviceId: string, t: Tally, s: seq<Event>)
    decreases |s|
    ensures var r := Run(fingerprint, targetDeviceId, {}, t, s);
      && r.errors == t.errors
      && Fingerprints(fingerprint, r.created)
         == Fingerprints(fingerprint, t.created) + Kept(t.hashes, Fingerprints(fingerprint, s))
  {
    if s != [] {
      var t' := Step(fingerprint, targetDeviceId, {}, t, s[0]);
      RunWithoutFailures(fingerprint, targetDeviceId, t', s[1..]);
      var ks := Fingerprints(fingerprint, s);
      var k := EventUtil.Fingerprint(fingerprint, s[0]);
      assert ks[0] == k;
      assert ks[1..] == Fingerprints(fingerprint, s[1..]);
      if k !in t.hashes {
        CopyKeepsFingerprint(fingerprint, s[0], targetDeviceId);
        assert Fingerprints(fingerprint, t'.created) == Fingerprints(fingerprint, t.created) + [k];
        assert Kept(t.hashes, ks) == [k] + Kept(t.hashes, ks[1..]);
      }
    }
  }

  lemma FingerprintsAppend(fingerprint: Event -> int, a: seq<Event>, b: seq<Event>)
    ensures Fingerprints(fingerprint, a + b) == Fingerprints(fingerprint, a) + Fingerprints(fingerprint, b)
  {
  }

  /** A run without failures accounts for every source event as migrated
      or skipped, and adds exactly the kept fingerprints to the target. */
  lemma CleanRun(fingerprint: Event -> int, targetDeviceId: string, targets: seq<Event>, sources: seq<Event>)
    ensures var bag := multiset(Fingerprints(fingerprint, targets));
      var ks := Fingerprints(fingerprint, sources);
      var r := Run(fingerprint, targetDeviceId, {}, InitialTally(bag), sources);
      && r.migrated + r.skipped == |sources|
      && r.skipped == |multiset(ks) * bag|
      && multiset(Fingerprints(fingerprint, targets + r.created)) == bag + multiset(Kept(bag, ks))
  {
    var bag := multiset(Fingerprints(fingerprint, targets));
    var ks := Fingerprints(fingerprint, sources);
    var r := Run(fingerprint, targetDeviceId, {}, InitialTally(bag), sources);
    RunFollowsDedup(fingerprint, targetDeviceId, {}, InitialTally(bag), sources);
    RunWithoutFailures(fingerprint, targetDeviceId, InitialTally(bag), sources);
    SkippedPlusKept(bag, ks);
    DedupLaw(bag, ks);
    FingerprintsAppend(fingerprint, targets, r.created);
  }

  /** Re-running a migration that met no failure, against the target as the
      first run left it, copies nothing and skips every source event: as many
      as the first run migrated plus those it already skipped. */
  lemma RerunSkipsEverything(fingerprint: Event -> int, targetDeviceId: string, fails: set<nat>,
                             targets: seq<Event>, sources: seq<Event>)
    ensures var r1 := Run(fingerprint, targetDeviceId, {}, InitialTally(multiset(Fingerprints(fingerprint, targets))), sources);
      var r2 := Run(fingerprint, targetDeviceId, fails,
                    InitialTally(multiset(Fingerprints(fingerprint, targets + r1.created))), sources);
      && r2.migrated == 0 && r2.errors == 0 && r2.created == []
      && r2.skipped == r1.migrated + r1.skipped
      && (targets == [] ==> r2.skipped == r1.migrated)
  {
    var bag := multiset(Fingerprints(fingerprint, targets));
    var ks := Fingerprints(fingerprint, sources);
    var r1 := Run(fingerprint, targetDeviceId, {}, InitialTally(bag), sources);
    var bag2 := bag + multiset(Kept(bag, ks));
    CleanRun(fingerprint, targetDeviceId, targets, sources);
    RerunKeepsNothing(bag, ks);
    assert multiset(Fingerprints(fingerprint, targets + r1.created)) == bag2;
    var r2 := Run(fingerprint, targetDeviceId, fails, InitialTally(bag2), sources);
    RunFollowsDedup(fingerprint, targetDeviceId, fails, InitialTally(bag2), sources);
    assert r2.migrated + r2.errors == 0;
    assert |multiset(ks)| == |sources|;
  }
}
