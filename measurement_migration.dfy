/** `MeasurementMigrationService`: copies one device's measurements to its
    target device in bulk requests of up to 200, skipping the measurements the
    target already has. Two behaviours of the loop are kept as they are: a
    failed bulk request leaves its batch in place (it is sent again with the
    next request and its size counted again on the next failure), and the
    submit test only follows an append, so a batch pending when the last
    measurements turn out to be duplicates is never sent. */
module MeasurementMigration {
  import opened Wrappers
  import opened Records
  import MeasurementUtil
  import opened Dedup
  import opened JobModel

  /** `maxBatchSize`. */
  const MAX_BATCH_SIZE: int := 200

  function Fingerprints(fingerprint: Measurement -> int, s: seq<Measurement>): (r: seq<int>)
    ensures |r| == |s| && forall i :: 0 <= i < |s| ==> r[i] == MeasurementUtil.Fingerprint(fingerprint, s[i])
  {
    if s == [] then [] else [MeasurementUtil.Fingerprint(fingerprint, s[0])] + Fingerprints(fingerprint, s[1..])
  }

  lemma FingerprintsAppend(fingerprint: Measurement -> int, a: seq<Measurement>, b: seq<Measurement>)
    ensures Fingerprints(fingerprint, a + b) == Fingerprints(fingerprint, a) + Fingerprints(fingerprint, b)
  {
  }

  lemma FingerprintsSnoc(fingerprint: Measurement -> int, s: seq<Measurement>, i: int)
    requires 0 <= i < |s|
    ensures Fingerprints(fingerprint, s[..i + 1]) == Fingerprints(fingerprint, s[..i]) + [MeasurementUtil.Fingerprint(fingerprint, s[i])]
  {
    assert s[..i + 1] == s[..i] + [s[i]];
    FingerprintsAppend(fingerprint, s[..i], [s[i]]);
  }

  /** `createUniqueHashesSet`: one occurrence per target measurement. */
  method CreateUniqueHashesSet(fingerprint: Measurement -> int, targets: seq<Measurement>) returns (hashes: multiset<int>)
    ensures hashes == multiset(Fingerprints(fingerprint, targets))
    ensures |hashes| == |targets|
  {
    hashes := multiset{};
    for i := 0 to |targets|
      invariant hashes == multiset(Fingerprints(fingerprint, targets[..i]))
    {
      FingerprintsSnoc(fingerprint, targets, i);
      hashes := hashes + multiset{MeasurementUtil.Fingerprint(fingerprint, targets[i])};
    }
    assert targets[..|targets|] == targets;
  }

  /** The measurement that goes into the batch: trimmed, with the target
      device as its source. */
  function CopyFor(m: Measurement, targetDeviceId: string): Measurement
  {
    MeasurementUtil.Trim(m).(source := Some(targetDeviceId))
  }

  /** The loop's counters, the hash multiset, the pending batch and the bulk
      requests made (request number `i` throws iff `i` is in `fails`). */
  datatype Tally = Tally(migrated: int, errors: int, skipped: int, hashes: multiset<int>,
                         batch: seq<Measurement>, requests: seq<seq<Measurement>>)

  /** One iteration; `last` says that the iterator has no further element. */
  function Step(fingerprint: Measurement -> int, targetDeviceId: string, fails: set<nat>,
                t: Tally, m: Measurement, last: bool): Tally
  {
    if m.id.None? then
      // reading the id throws; the catch adds the pending batch's size
      t.(errors := t.errors + |t.batch|)
    else
      var k := MeasurementUtil.Fingerprint(fingerprint, m);
      if k in t.hashes then t.(skipped := t.skipped + 1, hashes := t.hashes - multiset{k})
      else
        var batch := t.batch + [CopyFor(m, targetDeviceId)];
        if |batch| < MAX_BATCH_SIZE && !last then t.(batch := batch)
        else if |t.requests| in fails then
          t.(errors := t.errors + |batch|, batch := batch, requests := t.requests + [batch])
        else t.(migrated := t.migrated + |batch|, batch := [], requests := t.requests + [batch])
  }

  function Run(fingerprint: Measurement -> int, targetDeviceId: string, fails: set<nat>,
               t: Tally, s: seq<Measurement>): Tally
    decreases |s|
  {
    if s == [] then t
    else Run(fingerprint, targetDeviceId, fails, Step(fingerprint, targetDeviceId, fails, t, s[0], |s| == 1), s[1..])
  }

  function InitialTally(hashes: multiset<int>): Tally
  {
    Tally(0, 0, 0, hashes, [], [])
  }

  /** The loop of `migrateMeasurements` over the source measurements. */
  method CopyMeasurements(msmts: seq<Measurement>, targetDeviceId: string, fingerprint: Measurement -> int,
                          fails: set<nat>, uniqueHashes: multiset<int>)
    returns (t: Tally)
    ensures t == Run(fingerprint, targetDeviceId, fails, InitialTally(uniqueHashes), msmts)
  {
    var numMigrated, numErrors, numDuplicatesSkipped := 0, 0, 0;
    var left := uniqueHashes;
    var msmtBatch: seq<Measurement> := [];
    var requests: seq<seq<Measurement>> := [];
    var i := 0;
    while i < |msmts|
      invariant 0 <= i <= |msmts|
      invariant Run(fingerprint, targetDeviceId, fails,
                    Tally(numMigrated, numErrors, numDuplicatesSkipped, left, msmtBatch, requests), msmts[i..])
        == Run(fingerprint, targetDeviceId, fails, InitialTally(uniqueHashes), msmts)
    {
      assert msmts[i..][1..] == msmts[i + 1..];
      var msmt := msmts[i];
      if msmt.id.None? {
        numErrors := numErrors + |msmtBatch|;
      } else {
        msmt := MeasurementUtil.Trim(msmt);
        var uniqueHash := MeasurementUtil.Fingerprint(fingerprint, msmt);
        assert uniqueHash == MeasurementUtil.Fingerprint(fingerprint, msmts[i]);
        if uniqueHash in left {
          left := left - multiset{uniqueHash};
          numDuplicatesSkipped := numDuplicatesSkipped + 1;
        } else {
          msmt := msmt.(source := Some(targetDeviceId));
          msmtBatch := msmtBatch + [msmt];
          if |msmtBatch| >= MAX_BATCH_SIZE || i + 1 == |msmts| {
            var failed := |requests| in fails;
            requests := requests + [msmtBatch];
            if failed {
              numErrors := numErrors + |msmtBatch|;
            } else {
              numMigrated := numMigrated + |msmtBatch|;
              msmtBatch := [];
            }
          }
        }
      }
      i := i + 1;
    }
    t := Tally(numMigrated, numErrors, numDuplicatesSkipped, left, msmtBatch, requests);
  }

  /** The report `migrateMeasurements` hands over: the failed fetch's report,
      or the completed report with the loop's counters. */
  function MigrationReport(source: Tenant, target: Tenant, sourceDeviceId: string, targetDeviceId: string,
                           params: seq<QueryParam>, fingerprint: Measurement -> int, fails: set<nat>,
                           durationSec: int): Report
  {
    var targets := MeasurementUtil.GetMeasurements(target, targetDeviceId, params);
    var sources := MeasurementUtil.GetMeasurements(source, sourceDeviceId, params);
    if targets.Err? then FetchFailedReport(targets.msg, durationSec)
    else if sources.Err? then FetchFailedReport(sources.msg, durationSec)
    else
      var r := Run(fingerprint, targetDeviceId, fails, InitialTally(multiset(Fingerprints(fingerprint, targets.value))), sources.value);
      CompletedReport(sourceDeviceId, targetDeviceId, r.migrated, r.errors, r.skipped, durationSec)
  }

  /** `migrateMeasurements`. `durationSec` is what the clock measured. */
  method MigrateMeasurements(source: Tenant, target: Tenant, sourceDeviceId: string, targetDeviceId: string,
                             params: seq<QueryParam>, fingerprint: Measurement -> int, fails: set<nat>,
                             durationSec: int)
    returns (report: Report, requests: seq<seq<Measurement>>)
    ensures report == MigrationReport(source, target, sourceDeviceId, targetDeviceId, params, fingerprint, fails, durationSec)
    ensures var targets := MeasurementUtil.GetMeasurements(target, targetDeviceId, params);
      var sources := MeasurementUtil.GetMeasurements(source, sourceDeviceId, params);
      if targets.Err? then report == FetchFailedReport(targets.msg, durationSec) && requests == []
      else if sources.Err? then report == FetchFailedReport(sources.msg, durationSec) && requests == []
      else
        var r := Run(fingerprint, targetDeviceId, fails, InitialTally(multiset(Fingerprints(fingerprint, targets.value))), sources.value);
        && report == CompletedReport(sourceDeviceId, targetDeviceId, r.migrated, r.errors, r.skipped, durationSec)
        && requests == r.requests
  {
    var trgtMsmts := MeasurementUtil.GetMeasurements(target, targetDeviceId, params);
    if trgtMsmts.Err? {
      report, requests := FetchFailedReport(trgtMsmts.msg, durationSec), [];
      return;
    }
    var uniqueHashes := CreateUniqueHashesSet(fingerprint, trgtMsmts.value);
    var sourceMsmts := MeasurementUtil.GetMeasurements(source, sourceDeviceId, params);
    if sourceMsmts.Err? {
      report, requests := FetchFailedReport(sourceMsmts.msg, durationSec), [];
      return;
    }
    var t := CopyMeasurements(sourceMsmts.value, targetDeviceId, fingerprint, fails, uniqueHashes);
    report := CompletedReport(sourceDeviceId, targetDeviceId, t.migrated, t.errors, t.skipped, durationSec);
    requests := t.requests;
  }

  /** The fingerprints of the measurements that reach the multiset test. */
  function Keys(fingerprint: Measurement -> int, s: seq<Measurement>): seq<int>
  {
    if s == [] then []
    else (if s[0].id.Some? then [MeasurementUtil.Fingerprint(fingerprint, s[0])] else []) + Keys(fingerprint, s[1..])
  }

  /** Duplicates are skipped by the common deduplication scheme, whatever
      happens to the batches. */
  lemma {:induction false} RunFollowsDedup(fingerprint: Measurement -> int, targetDeviceId: string, fails: set<nat>,
                                           t: Tally, s: seq<Measurement>)
    decreases |s|
    ensures var r := Run(fingerprint, targetDeviceId, fails, t, s);
      var ks := Keys(fingerprint, s);
      && r.skipped == t.skipped + |Skipped(t.hashes, ks)|
      && r.hashes == Left(t.hashes, ks)
  {
    if s != [] {
      var t' := Step(fingerprint, targetDeviceId, fails, t, s[0], |s| == 1);
      RunFollowsDedup(fingerprint, targetDeviceId, fails, t', s[1..]);
      var ks := Keys(fingerprint, s);
      if s[0].id.Some? {
        var k := MeasurementUtil.Fingerprint(fingerprint, s[0]);
        assert ks == [k] + Keys(fingerprint, s[1..]);
        assert ks[0] == k && ks[1..] == Keys(fingerprint, s[1..]);
        if k in t.hashes {
          assert t'.hashes == t.hashes - multiset{k} && t'.skipped == t.skipped + 1;
        } else {
          assert t'.hashes == t.hashes && t'.skipped == t.skipped;
        }
      } else {
        assert ks == Keys(fingerprint, s[1..]);
        assert t'.hashes == t.hashes && t'.skipped == t.skipped;
      }
    }
  }

  /** The source measurements that are copied, in order: those with an id
      whose fingerprint finds no occurrence left in the multiset. */
  function KeptMeasurements(fingerprint: Measurement -> int, hashes: multiset<int>, s: seq<Measurement>): seq<Measurement>
    decreases |s|
  {
    if s == [] then []
    else if s[0].id.None? then KeptMeasurements(fingerprint, hashes, s[1..])
    else
      var k := MeasurementUtil.Fingerprint(fingerprint, s[0]);
      if k in hashes then KeptMeasurements(fingerprint, hashes - multiset{k}, s[1..])
      else [s[0]] + KeptMeasurements(fingerprint, hashes, s[1..])
  }

  /** The kept measurements carry exactly the fingerprints the deduplication
      scheme keeps. */
  lemma {:induction false} KeptMeasurementsFollowDedup(fingerprint: Measurement -> int, hashes: multiset<int>,
                                                       s: seq<Measurement>)
    decreases |s|
    ensures Fingerprints(fingerprint, KeptMeasurements(fingerprint, hashes, s)) == Kept(hashes, Keys(fingerprint, s))
  {
    if s != [] {
      var ks := Keys(fingerprint, s);
      if s[0].id.None? {
        assert ks == Keys(fingerprint, s[1..]);
        KeptMeasurementsFollowDedup(fingerprint, hashes, s[1..]);
      } else {
        var k := MeasurementUtil.Fingerprint(fingerprint, s[0]);
        assert ks == [k] + Keys(fingerprint, s[1..]);
        assert ks[0] == k && ks[1..] == Keys(fingerprint, s[1..]);
        if k in hashes {
          KeptMeasurementsFollowDedup(fingerprint, hashes - multiset{k}, s[1..]);
        } else {
          var rest := KeptMeasurements(fingerprint, hashes, s[1..]);
          KeptMeasurementsFollowDedup(fingerprint, hashes, s[1..]);
          assert ([s[0]] + rest)[1..] == rest;
        }
      }
    }
  }

  /** The batch entries made from `s`: each trimmed and re-pointed. */
  function Copies(s: seq<Measurement>, targetDeviceId: string): (r: seq<Measurement>)
    ensures |r| == |s| && forall i :: 0 <= i < |s| ==> r[i] == CopyFor(s[i], targetDeviceId)
  {
    if s == [] then [] else [CopyFor(s[0], targetDeviceId)] + Copies(s[1..], targetDeviceId)
  }

  /** The measurements of the bulk requests, in sending order. */
  function Concat(rs: seq<seq<Measurement>>): seq<Measurement>
  {
    if rs == [] then [] else Concat(rs[..|rs| - 1]) + rs[|rs| - 1]
  }

  lemma ConcatSnoc(rs: seq<seq<Measurement>>, b: seq<Measurement>)
    ensures Concat(rs + [b]) == Concat(rs) + b
  {
    assert (rs + [b])[..|rs|] == rs;
  }

  /** Every request holds exactly `maxBatchSize` measurements. */
  predicate AllFull(rs: seq<seq<Measurement>>)
  {
    forall j :: 0 <= j < |rs| ==> |rs[j]| == MAX_BATCH_SIZE
  }

  lemma {:induction false} ConcatFull(rs: seq<seq<Measurement>>)
    requires AllFull(rs)
    ensures |Concat(rs)| == MAX_BATCH_SIZE * |rs|
  {
    if rs != [] {
      ConcatFull(rs[..|rs| - 1]);
    }
  }

  /** The last measurement of `s` is kept: it has an id and its fingerprint
      finds no occurrence left after the measurements before it. */
  predicate LastKept(fingerprint: Measurement -> int, hashes: multiset<int>, s: seq<Measurement>)
  {
    && s != [] && s[|s| - 1].id.Some?
    && MeasurementUtil.Fingerprint(fingerprint, s[|s| - 1]) !in Left(hashes, Keys(fingerprint, s[..|s| - 1]))
  }

  /** One iteration moves the multiset the way the deduplication scheme does
      for the first measurement, so what is left before the last measurement
      is the same seen from either side of that iteration. */
  lemma LeftAfterStep(fingerprint: Measurement -> int, targetDeviceId: string, fails: set<nat>,
                      t: Tally, s: seq<Measurement>, last: bool)
    requires |s| > 1
    ensures Left(Step(fingerprint, targetDeviceId, fails, t, s[0], last).hashes, Keys(fingerprint, s[1..][..|s| - 2]))
         == Left(t.hashes, Keys(fingerprint, s[..|s| - 1]))
    ensures LastKept(fingerprint, Step(fingerprint, targetDeviceId, fails, t, s[0], last).hashes, s[1..])
        <==> LastKept(fingerprint, t.hashes, s)
  {
    var p := s[..|s| - 1];
    assert s[1..][..|s| - 2] == p[1..];
    var ks := Keys(fingerprint, p);
    if s[0].id.Some? {
      assert ks[0] == MeasurementUtil.Fingerprint(fingerprint, s[0]);
      assert ks[1..] == Keys(fingerprint, p[1..]);
    } else {
      assert ks == Keys(fingerprint, p[1..]);
    }
  }

  lemma AppendAssoc(a: seq<Measurement>, b: seq<Measurement>, c: seq<Measurement>)
    ensures (a + b) + c == a + (b + c)
  {
  }

  /** The measurement `m` is kept against `hashes`. */
  predicate KeptNow(fingerprint: Measurement -> int, hashes: multiset<int>, m: Measurement)
  {
    m.id.Some? && MeasurementUtil.Fingerprint(fingerprint, m) !in hashes
  }

  /** The kept measurements split at the first iteration. */
  lemma KeptAfterStep(fingerprint: Measurement -> int, targetDeviceId: string, fails: set<nat>,
                      t: Tally, s: seq<Measurement>, last: bool)
    requires s != []
    ensures KeptMeasurements(fingerprint, t.hashes, s)
         == (if KeptNow(fingerprint, t.hashes, s[0]) then [s[0]] else [])
            + KeptMeasurements(fingerprint, Step(fingerprint, targetDeviceId, fails, t, s[0], last).hashes, s[1..])
  {
  }

  lemma {:induction false} CopiesAppend(a: seq<Measurement>, b: seq<Measurement>, targetDeviceId: string)
    ensures Copies(a + b, targetDeviceId) == Copies(a, targetDeviceId) + Copies(b, targetDeviceId)
  {
    if a != [] {
      assert (a + b)[1..] == a[1..] + b;
      CopiesAppend(a[1..], b, targetDeviceId);
    }
  }

  /** One iteration without a failing request: the requests and the batch
      grow by the copy of `m` exactly when `m` is kept; a request is full
      unless it is sent for the last measurement. */
  lemma StepWithoutFailures(fingerprint: Measurement -> int, targetDeviceId: string, t: Tally, m: Measurement, last: bool)
    requires |t.batch| < MAX_BATCH_SIZE && AllFull(t.requests)
    ensures var t' := Step(fingerprint, targetDeviceId, {}, t, m, last);
      && Concat(t'.requests) + t'.batch
         == Concat(t.requests) + t.batch + (if KeptNow(fingerprint, t.hashes, m) then [CopyFor(m, targetDeviceId)] else [])
      && t'.migrated == t.migrated + |Concat(t'.requests)| - |Concat(t.requests)|
      && |t'.batch| < MAX_BATCH_SIZE
      && (forall j :: 0 <= j < |t'.requests| ==> 0 < |t'.requests[j]| <= MAX_BATCH_SIZE)
      && (forall j :: 0 <= j < |t'.requests| - 1 ==> |t'.requests[j]| == MAX_BATCH_SIZE)
      && (!(last && KeptNow(fingerprint, t.hashes, m)) ==> AllFull(t'.requests))
  {
    if KeptNow(fingerprint, t.hashes, m) {
      var batch := t.batch + [CopyFor(m, targetDeviceId)];
      if !(|batch| < MAX_BATCH_SIZE && !last) {
        ConcatSnoc(t.requests, batch);
      }
    }
  }

  /** With no failing request, the bulk requests followed by the pending
      batch are exactly the copies of the kept measurements, in order; every
      request but the last holds 200 measurements and none holds more;
      migrated counts what the requests carried; only a run ending with a
      kept measurement can end with a short request. */
  lemma {:induction false} RunWithoutFailures(fingerprint: Measurement -> int, targetDeviceId: string,
                                              t: Tally, s: seq<Measurement>)
    decreases |s|
    requires |t.batch| < MAX_BATCH_SIZE && AllFull(t.requests)
    ensures var r := Run(fingerprint, targetDeviceId, {}, t, s);
      && Concat(r.requests) + r.batch
         == Concat(t.requests) + t.batch + Copies(KeptMeasurements(fingerprint, t.hashes, s), targetDeviceId)
      && r.migrated == t.migrated + |Concat(r.requests)| - |Concat(t.requests)|
      && |r.batch| < MAX_BATCH_SIZE
      && (forall j :: 0 <= j < |r.requests| ==> 0 < |r.requests[j]| <= MAX_BATCH_SIZE)
      && (forall j :: 0 <= j < |r.requests| - 1 ==> |r.requests[j]| == MAX_BATCH_SIZE)
      && (!LastKept(fingerprint, t.hashes, s) ==> AllFull(r.requests))
  {
    if s == [] {
      return;
    }
    var t' := Step(fingerprint, targetDeviceId, {}, t, s[0], |s| == 1);
    var r := Run(fingerprint, targetDeviceId, {}, t', s[1..]);
    assert r == Run(fingerprint, targetDeviceId, {}, t, s);
    var add := if KeptNow(fingerprint, t.hashes, s[0]) then [s[0]] else [];
    var rest := KeptMeasurements(fingerprint, t'.hashes, s[1..]);
    StepWithoutFailures(fingerprint, targetDeviceId, t, s[0], |s| == 1);
    KeptAfterStep(fingerprint, targetDeviceId, {}, t, s, |s| == 1);
    CopiesAppend(add, rest, targetDeviceId);
    assert Copies(add, targetDeviceId) == (if KeptNow(fingerprint, t.hashes, s[0]) then [CopyFor(s[0], targetDeviceId)] else []);
    if |s| == 1 {
      assert s[1..] == [] && s[..0] == [];
      assert r == t';
    } else {
      LeftAfterStep(fingerprint, targetDeviceId, {}, t, s, false);
      RunWithoutFailures(fingerprint, targetDeviceId, t', s[1..]);
    }
    AppendAssoc(Concat(t.requests) + t.batch, Copies(add, targetDeviceId), Copies(rest, targetDeviceId));
  }

  /** With no failing request, a measurement without an id only adds the
      pending batch's size to the error counter, so with every id present no
      error is counted. */
  lemma {:induction false} ErrorsWithoutFailures(fingerprint: Measurement -> int, targetDeviceId: string,
                                                 t: Tally, s: seq<Measurement>)
    decreases |s|
    ensures var r := Run(fingerprint, targetDeviceId, {}, t, s);
      && r.errors >= t.errors
      && ((forall i :: 0 <= i < |s| ==> s[i].id.Some?) ==> r.errors == t.errors)
  {
    if s != [] {
      ErrorsWithoutFailures(fingerprint, targetDeviceId, Step(fingerprint, targetDeviceId, {}, t, s[0], |s| == 1), s[1..]);
      if forall i :: 0 <= i < |s| ==> s[i].id.Some? {
        assert forall i :: 0 <= i < |s[1..]| ==> s[1..][i].id.Some?;
      }
    }
  }

  /** `migrateMeasurements` without a failing request: the measurements sent
      in bulk, followed by those still pending, are the copies of the kept
      measurements in order, in requests of 200 except the last, and every
      sent measurement counts as migrated. When the last source measurement
      is kept, nothing stays pending. */
  lemma Batching(fingerprint: Measurement -> int, targetDeviceId: string, hashes: multiset<int>, s: seq<Measurement>)
    ensures var r := Run(fingerprint, targetDeviceId, {}, InitialTally(hashes), s);
      var sent := Copies(KeptMeasurements(fingerprint, hashes, s), targetDeviceId);
      && Concat(r.requests) + r.batch == sent
      && (forall j :: 0 <= j < |r.requests| ==> 0 < |r.requests[j]| <= MAX_BATCH_SIZE)
      && (forall j :: 0 <= j < |r.requests| - 1 ==> |r.requests[j]| == MAX_BATCH_SIZE)
      && r.migrated == |Concat(r.requests)|
      && (LastKept(fingerprint, hashes, s) ==> r.batch == [] && r.migrated == |sent|)
  {
    RunWithoutFailures(fingerprint, targetDeviceId, InitialTally(hashes), s);
    if LastKept(fingerprint, hashes, s) {
      LastKeptFlushesBatch(fingerprint, targetDeviceId, InitialTally(hashes), s);
    }
  }

  /** With no failing request, a run whose last measurement is kept ends with
      an empty batch: that measurement triggers the final request. */
  lemma {:induction false} LastKeptFlushesBatch(fingerprint: Measurement -> int, targetDeviceId: string,
                                                t: Tally, s: seq<Measurement>)
    decreases |s|
    requires LastKept(fingerprint, t.hashes, s)
    ensures Run(fingerprint, targetDeviceId, {}, t, s).batch == []
  {
    if |s| > 1 {
      var t' := Step(fingerprint, targetDeviceId, {}, t, s[0], false);
      LeftAfterStep(fingerprint, targetDeviceId, {}, t, s, false);
      LastKeptFlushesBatch(fingerprint, targetDeviceId, t', s[1..]);
    } else {
      assert s[..0] == [];
    }
  }

  /** A failed bulk request keeps its batch: the measurements stay pending
      and are counted as errors once more at the next failure. */
  lemma FailedSubmitKeepsBatch(fingerprint: Measurement -> int, targetDeviceId: string, fails: set<nat>,
                               t: Tally, m: Measurement)
    requires m.id.Some? && MeasurementUtil.Fingerprint(fingerprint, m) !in t.hashes
    requires |t.requests| in fails
    ensures var r := Step(fingerprint, targetDeviceId, fails, t, m, true);
      && r.batch == t.batch + [CopyFor(m, targetDeviceId)]
      && r.requests == t.requests + [r.batch]
      && r.errors == t.errors + |r.batch|
      && r.migrated == t.migrated
  {
  }

  /** A run whose last measurement is not kept (a duplicate or one without
      an id) never sends its pending batch: the last measurement does not
      reach the submit test. Without a failing request, the kept copies
      beyond the last multiple of 200 stay pending and are neither sent nor
      counted. */
  lemma TrailingUnkeptLeavesBatch(fingerprint: Measurement -> int, targetDeviceId: string, hashes: multiset<int>,
                                  s: seq<Measurement>)
    requires !LastKept(fingerprint, hashes, s)
    ensures var r := Run(fingerprint, targetDeviceId, {}, InitialTally(hashes), s);
      var sent := Copies(KeptMeasurements(fingerprint, hashes, s), targetDeviceId);
      && |r.requests| == |sent| / MAX_BATCH_SIZE
      && r.batch == sent[|sent| - |sent| % MAX_BATCH_SIZE..]
      && r.migrated == |sent| - |sent| % MAX_BATCH_SIZE
  {
    var r := Run(fingerprint, targetDeviceId, {}, InitialTally(hashes), s);
    var sent := Copies(KeptMeasurements(fingerprint, hashes, s), targetDeviceId);
    RunWithoutFailures(fingerprint, targetDeviceId, InitialTally(hashes), s);
    ConcatFull(r.requests);
    SuffixOfAppend(Concat(r.requests), r.batch);
    Remainder(|sent|, |r.requests|, |r.batch|);
  }

  lemma SuffixOfAppend(a: seq<Measurement>, b: seq<Measurement>)
    ensures (a + b)[|a|..] == b
  {
  }

  lemma Remainder(x: int, n: int, b: int)
    requires x == MAX_BATCH_SIZE * n + b && 0 <= b < MAX_BATCH_SIZE
    ensures x / MAX_BATCH_SIZE == n && x % MAX_BATCH_SIZE == b
  {
  }
}
