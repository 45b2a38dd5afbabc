/** `MeasurementRenameService`: renames one series of a value fragment by
    creating, for each measurement of that fragment type, a copy whose series
    key is renamed and then deleting the original. */
module MeasurementRename {
  import opened Wrappers
  import opened Records

  const CLASS_CAST: string := "ClassCastException"

  /** A measurement API call the rename makes. */
  datatype MsmtCall = CreateMsmt(m: Measurement) | DeleteMsmt(id: Option<string>)

  /** `RenameResult`: the two flags `renameMsmt` reports. */
  datatype RenameResult = RenameResult(error: bool, skipped: bool)

  /** What the rename of one measurement reports and the calls it makes. */
  datatype RenameOutcome = RenameOutcome(result: RenameResult, calls: seq<MsmtCall>)

  /** `renameValueFragmentSeries`' counters. */
  datatype RenameTally = RenameTally(numProcessed: int, numSkipped: int, numErrors: int)

  /** `(Map) msmt.get(valueFragmentType)`: null when the fragment is absent
      or null, the map when it is one, and a failed cast otherwise. */
  function FragmentOf(m: Measurement, valueFragmentType: string): (r: Result<Option<map<string, Json>>>)
    ensures r == Ok(None) <==> valueFragmentType !in m.attrs || m.attrs[valueFragmentType] == JNull
    ensures r.Ok? && r.value.Some? <==> valueFragmentType in m.attrs && m.attrs[valueFragmentType].JMap?
    ensures r.Ok? && r.value.Some? ==> r.value.value == m.attrs[valueFragmentType].fields
  {
    if valueFragmentType !in m.attrs || m.attrs[valueFragmentType] == JNull then Ok(None)
    else if m.attrs[valueFragmentType].JMap? then Ok(Some(m.attrs[valueFragmentType].fields))
    else Err(CLASS_CAST)
  }

  /** The value fragment after `remove(series)` and `put(newSeries, value)`. */
  function Renamed(vf: map<string, Json>, series: string, newSeries: string): (r: map<string, Json>)
    requires series in vf
    ensures newSeries in r && r[newSeries] == vf[series]
    ensures series != newSeries ==> series !in r
    ensures forall k :: k != series && k != newSeries ==> (k in r <==> k in vf) && (k in vf ==> r[k] == vf[k])
  {
    (vf - {series})[newSeries := vf[series]]
  }

  /** Renaming a series to itself changes nothing, and renaming to a free
      key and back restores the fragment. */
  lemma RenamedInverse(vf: map<string, Json>, series: string, newSeries: string)
    requires series in vf
    ensures Renamed(vf, series, series) == vf
    ensures newSeries !in vf ==> Renamed(Renamed(vf, series, newSeries), newSeries, series) == vf
  {
    assert Renamed(vf, series, series) == vf;
    if newSeries !in vf {
      var r := Renamed(vf, series, newSeries);
      assert Renamed(r, newSeries, series) == vf;
    }
  }

  /** The copy `renameMsmt` creates: the same measurement without id and
      self, with the fragment renamed. */
  function RenamedCopy(m: Measurement, valueFragmentType: string, vf: map<string, Json>, series: string, newSeries: string): Measurement
    requires series in vf
  {
    m.(self := None, id := None, attrs := m.attrs[valueFragmentType := JMap(Renamed(vf, series, newSeries))])
  }

  /** `renameMsmt`: `n` is the number of calls made before this one, and the
      calls whose positions are in `failing` throw. */
  function RenameStep(dryRun: bool, failing: set<nat>, n: nat, m: Measurement,
                      valueFragmentType: string, series: string, newSeries: string): RenameOutcome
  {
    match FragmentOf(m, valueFragmentType)
    case Err(_) => RenameOutcome(RenameResult(true, false), [])
    case Ok(None) => RenameOutcome(RenameResult(false, true), [])
    case Ok(Some(vf)) =>
      if series !in vf then RenameOutcome(RenameResult(false, true), [])
      else if dryRun then RenameOutcome(RenameResult(false, false), [])
      else if !(vf[series].JMap? || vf[series].JNull?) then RenameOutcome(RenameResult(true, false), [])
      else
        var create := CreateMsmt(RenamedCopy(m, valueFragmentType, vf, series, newSeries));
        if n in failing then RenameOutcome(RenameResult(true, false), [create])
        else RenameOutcome(RenameResult(n + 1 in failing, false), [create, DeleteMsmt(m.id)])
  }

  /** Whether the measurement has the series `renameMsmt` looks for. */
  predicate HasSeries(m: Measurement, valueFragmentType: string, series: string)
  {
    valueFragmentType in m.attrs && m.attrs[valueFragmentType].JMap? && series in m.attrs[valueFragmentType].fields
  }

  /** A measurement without the series is skipped with no call; one with it
      is never skipped. Under dryRun nothing is called. Otherwise the copy,
      without id and self and with the fragment renamed, is created first,
      and the original's id is deleted only if the create did not throw. */
  lemma RenameStepSpec(dryRun: bool, failing: set<nat>, n: nat, m: Measurement,
                       valueFragmentType: string, series: string, newSeries: string)
    ensures var o := RenameStep(dryRun, failing, n, m, valueFragmentType, series, newSeries);
      && !(o.result.error && o.result.skipped)
      && (o.result.skipped <==> FragmentOf(m, valueFragmentType).Ok? && !HasSeries(m, valueFragmentType, series))
      && (o.result.skipped || dryRun ==> o.calls == [])
      && (o.calls != [] ==>
            && HasSeries(m, valueFragmentType, series) && !dryRun
            && var vf := m.attrs[valueFragmentType].fields;
            && o.calls[0] == CreateMsmt(RenamedCopy(m, valueFragmentType, vf, series, newSeries))
            && (|o.calls| == 2 <==> n !in failing)
            && (|o.calls| == 2 ==> o.calls[1] == DeleteMsmt(m.id))
            && |o.calls| <= 2)
      && (o.calls != [] ==> (o.result.error <==> n in failing || n + 1 in failing))
  {
  }

  /** The renamed copy differs from the original only in id, self and the
      renamed fragment. */
  lemma RenamedCopyFields(m: Measurement, valueFragmentType: string, vf: map<string, Json>, series: string, newSeries: string)
    requires series in vf
    ensures var c := RenamedCopy(m, valueFragmentType, vf, series, newSeries);
      && c.id.None? && c.self.None?
      && c.source == m.source && c.msmtType == m.msmtType && c.time == m.time && c.creationTime == m.creationTime
      && c.attrs[valueFragmentType] == JMap(Renamed(vf, series, newSeries))
      && forall k :: k != valueFragmentType ==> (k in c.attrs <==> k in m.attrs) && (k in m.attrs ==> c.attrs[k] == m.attrs[k])
  {
  }

  /** What a run of `renameMsmt` calls has produced so far: the results, the
      calls made (including the ones before the run) and `numCopied`. */
  datatype RenameRun = RenameRun(results: seq<RenameResult>, calls: seq<MsmtCall>, numCopied: int)

  /** One more `renameMsmt` call in a run. */
  function RenameNext(dryRun: bool, failing: set<nat>, run: RenameRun, m: Measurement,
                      valueFragmentType: string, series: string, newSeries: string): (r: RenameRun)
    ensures |r.results| == |run.results| + 1 && r.results[..|run.results|] == run.results
    ensures |r.calls| >= |run.calls| && r.calls[..|run.calls|] == run.calls
  {
    var o := RenameStep(dryRun, failing, |run.calls|, m, valueFragmentType, series, newSeries);
    RenameRun(run.results + [o.result], run.calls + o.calls,
              run.numCopied + (if !dryRun && !o.result.error && !o.result.skipped then 1 else 0))
  }

  /** The renames of `ms`, in order, continuing `run`. */
  function RenameFrom(dryRun: bool, failing: set<nat>, run: RenameRun, ms: seq<Measurement>,
                      valueFragmentType: string, series: string, newSeries: string): (r: RenameRun)
    decreases |ms|
    ensures |r.results| == |run.results| + |ms| && r.results[..|run.results|] == run.results
    ensures |r.calls| >= |run.calls| && r.calls[..|run.calls|] == run.calls
  {
    if ms == [] then run
    else RenameFrom(dryRun, failing, RenameNext(dryRun, failing, run, ms[0], valueFragmentType, series, newSeries),
                    ms[1..], valueFragmentType, series, newSeries)
  }

  /** Renaming the measurements from position `i` is renaming the one at
      `i`, then the rest. */
  lemma RenameFromStep(dryRun: bool, failing: set<nat>, run: RenameRun, ms: seq<Measurement>, i: nat, k: nat,
                       valueFragmentType: string, series: string, newSeries: string)
    requires i < k <= |ms|
    ensures RenameFrom(dryRun, failing, run, ms[i..k], valueFragmentType, series, newSeries)
         == RenameFrom(dryRun, failing, RenameNext(dryRun, failing, run, ms[i], valueFragmentType, series, newSeries),
                       ms[i + 1..k], valueFragmentType, series, newSeries)
  {
    assert ms[i..k][0] == ms[i];
    assert ms[i..k][1..] == ms[i + 1..k];
  }

  function CountErrors(rs: seq<RenameResult>): (c: nat)
    ensures c <= |rs|
  {
    if rs == [] then 0 else CountErrors(rs[..|rs| - 1]) + (if rs[|rs| - 1].error then 1 else 0)
  }

  function CountSkipped(rs: seq<RenameResult>): (c: nat)
    ensures c <= |rs|
  {
    if rs == [] then 0 else CountSkipped(rs[..|rs| - 1]) + (if rs[|rs| - 1].skipped then 1 else 0)
  }

  /** How many measurements the submit loop hands over before its
      `++numProcessed >= maxMsmtsToProcess` break: at least one as soon as
      there is one. */
  function NumProcessed(available: nat, maxMsmtsToProcess: int): (k: nat)
    ensures k <= available
    ensures available > 0 ==> k > 0
    ensures maxMsmtsToProcess >= 1 ==> k <= maxMsmtsToProcess
    ensures maxMsmtsToProcess < 1 && available > 0 ==> k == 1
    ensures k < available ==> k >= maxMsmtsToProcess
  {
    if available == 0 then 0
    else if maxMsmtsToProcess < 1 then 1
    else if maxMsmtsToProcess < available then maxMsmtsToProcess
    else available
  }

  /** Under dryRun a run makes no call and copies nothing. */
  lemma {:induction false} DryRunCallsNothing(failing: set<nat>, run: RenameRun, ms: seq<Measurement>,
                                              valueFragmentType: string, series: string, newSeries: string)
    decreases |ms|
    ensures RenameFrom(true, failing, run, ms, valueFragmentType, series, newSeries).calls == run.calls
    ensures RenameFrom(true, failing, run, ms, valueFragmentType, series, newSeries).numCopied == run.numCopied
  {
    if ms != [] {
      RenameStepSpec(true, failing, |run.calls|, ms[0], valueFragmentType, series, newSeries);
      var next := RenameNext(true, failing, run, ms[0], valueFragmentType, series, newSeries);
      assert next.calls == run.calls;
      DryRunCallsNothing(failing, next, ms[1..], valueFragmentType, series, newSeries);
    }
  }

  /** No result is both an error and a skip. */
  predicate Exclusive(rs: seq<RenameResult>)
  {
    forall i :: 0 <= i < |rs| ==> !(rs[i].error && rs[i].skipped)
  }

  /** So the two counters together never exceed the results counted. */
  lemma {:induction false} CountsWithinProcessed(rs: seq<RenameResult>)
    requires Exclusive(rs)
    ensures CountErrors(rs) + CountSkipped(rs) <= |rs|
  {
    if rs != [] {
      var init := rs[..|rs| - 1];
      assert forall i :: 0 <= i < |init| ==> init[i] == rs[i];
      CountsWithinProcessed(init);
      assert !(rs[|rs| - 1].error && rs[|rs| - 1].skipped);
    }
  }

  lemma {:induction false} RenameFromExclusive(dryRun: bool, failing: set<nat>, run: RenameRun, ms: seq<Measurement>,
                                               valueFragmentType: string, series: string, newSeries: string)
    decreases |ms|
    requires Exclusive(run.results)
    ensures Exclusive(RenameFrom(dryRun, failing, run, ms, valueFragmentType, series, newSeries).results)
  {
    if ms != [] {
      var o := RenameStep(dryRun, failing, |run.calls|, ms[0], valueFragmentType, series, newSeries);
      RenameStepSpec(dryRun, failing, |run.calls|, ms[0], valueFragmentType, series, newSeries);
      var next := RenameNext(dryRun, failing, run, ms[0], valueFragmentType, series, newSeries);
      assert next.results == run.results + [o.result];
      forall i | 0 <= i < |next.results|
        ensures !(next.results[i].error && next.results[i].skipped)
      {
        if i < |run.results| {
          assert next.results[i] == run.results[i];
        }
      }
      RenameFromExclusive(dryRun, failing, next, ms[1..], valueFragmentType, series, newSeries);
    }
  }

  /** The counters of a run: at most `numProcessed` errors and skips
      together. */
  lemma RenameTallyBounds(dryRun: bool, failing: set<nat>, calls: seq<MsmtCall>, ms: seq<Measurement>,
                          valueFragmentType: string, series: string, newSeries: string)
    ensures var rs := RenameFrom(dryRun, failing, RenameRun([], calls, 0), ms, valueFragmentType, series, newSeries).results;
      |rs| == |ms| && CountErrors(rs) + CountSkipped(rs) <= |ms|
  {
    RenameFromExclusive(dryRun, failing, RenameRun([], calls, 0), ms, valueFragmentType, series, newSeries);
    var rs := RenameFrom(dryRun, failing, RenameRun([], calls, 0), ms, valueFragmentType, series, newSeries).results;
    CountsWithinProcessed(rs);
  }

  /** The second loop of `renameValueFragmentSeries`: counts the error and
      skipped flags over all results taken back. */
  method CountResults(results: seq<RenameResult>) returns (numSkipped: nat, numErrors: nat)
    ensures numSkipped == CountSkipped(results) && numErrors == CountErrors(results)
  {
    numSkipped := 0;
    numErrors := 0;
    for i := 0 to |results|
      invariant numErrors == CountErrors(results[..i]) && numSkipped == CountSkipped(results[..i])
    {
      assert results[..i + 1][..i] == results[..i];
      if results[i].error {
        numErrors := numErrors + 1;
      }
      if results[i].skipped {
        numSkipped := numSkipped + 1;
      }
    }
    assert results[..|results|] == results;
  }

  class MeasurementRenameService {
    /** The service's `dryRun` and `maxMsmtsToProcess` settings. */
    const dryRun: bool
    const maxMsmtsToProcess: int
    /** The positions, among all calls made, of the ones that throw. */
    const failing: set<nat>
    /** Every call made to the measurement API, in order. */
    var calls: seq<MsmtCall>
    /** `numCopied`: measurements copied and deleted in the current run. */
    var numCopied: int

    constructor(dryRun: bool, maxMsmtsToProcess: int, failing: set<nat>)
      ensures this.dryRun == dryRun && this.maxMsmtsToProcess == maxMsmtsToProcess && this.failing == failing
      ensures calls == [] && numCopied == 0
    {
      this.dryRun := dryRun;
      this.maxMsmtsToProcess := maxMsmtsToProcess;
      this.failing := failing;
      calls := [];
      numCopied := 0;
    }

    /** `renameMsmt`. */
    method RenameMsmt(msmt: Measurement, valueFragmentType: string, valueFragmentSeries: string, newValueFragmentSeries: string)
      returns (result: RenameResult)
      modifies this`calls, this`numCopied
      ensures var o := RenameStep(dryRun, failing, |old(calls)|, msmt, valueFragmentType, valueFragmentSeries, newValueFragmentSeries);
        && result == o.result
        && calls == old(calls) + o.calls
        && numCopied == old(numCopied) + (if !dryRun && !result.error && !result.skipped then 1 else 0)
    {
      var fragment := FragmentOf(msmt, valueFragmentType);
      if fragment.Err? {
        return RenameResult(true, false);
      }
      var valueFragment := fragment.value;
      var hasSeries := valueFragment.Some? && valueFragmentSeries in valueFragment.value;
      if !hasSeries {
        return RenameResult(false, true);
      }
      if dryRun {
        return RenameResult(false, false);
      }
      var vf := valueFragment.value;
      var series := vf[valueFragmentSeries];
      if !(series.JMap? || series.JNull?) {
        return RenameResult(true, false);
      }
      var copy := RenamedCopy(msmt, valueFragmentType, vf, valueFragmentSeries, newValueFragmentSeries);
      var n := |calls|;
      calls := calls + [CreateMsmt(copy)];
      if n in failing {
        return RenameResult(true, false);
      }
      calls := calls + [DeleteMsmt(msmt.id)];
      if n + 1 in failing {
        return RenameResult(true, false);
      }
      numCopied := numCopied + 1;
      return RenameResult(false, false);
    }

    /** One turn of that loop: rename a measurement and keep its result. */
    method RenameAndRecord(m: Measurement, results: seq<RenameResult>, valueFragmentType: string,
                           valueFragmentSeries: string, newValueFragmentSeries: string)
      returns (results': seq<RenameResult>)
      modifies this`calls, this`numCopied
      ensures RenameRun(results', calls, numCopied)
        == RenameNext(dryRun, failing, RenameRun(results, old(calls), old(numCopied)), m,
                      valueFragmentType, valueFragmentSeries, newValueFragmentSeries)
    {
      var result := RenameMsmt(m, valueFragmentType, valueFragmentSeries, newValueFragmentSeries);
      results' := results + [result];
    }

    /** The first loop of `renameValueFragmentSeries`: each measurement is
        renamed in turn until `++numProcessed >= maxMsmtsToProcess`. */
    method SubmitRenames(ms: seq<Measurement>, valueFragmentType: string,
                         valueFragmentSeries: string, newValueFragmentSeries: string)
      returns (results: seq<RenameResult>)
      modifies this`calls, this`numCopied
      ensures RenameRun(results, calls, numCopied)
        == RenameFrom(dryRun, failing, RenameRun([], old(calls), old(numCopied)), ms[..NumProcessed(|ms|, maxMsmtsToProcess)],
                      valueFragmentType, valueFragmentSeries, newValueFragmentSeries)
    {
      ghost var k := NumProcessed(|ms|, maxMsmtsToProcess);
      ghost var spec := RenameFrom(dryRun, failing, RenameRun([], calls, numCopied), ms[..k],
                                   valueFragmentType, valueFragmentSeries, newValueFragmentSeries);
      var numProcessed := 0;
      results := [];
      while numProcessed < |ms|
        invariant 0 <= numProcessed <= k
        invariant numProcessed == 0 || numProcessed < maxMsmtsToProcess
        invariant RenameFrom(dryRun, failing, RenameRun(results, calls, numCopied), ms[numProcessed..k],
                             valueFragmentType, valueFragmentSeries, newValueFragmentSeries) == spec
        decreases |ms| - numProcessed
      {
        RenameFromStep(dryRun, failing, RenameRun(results, calls, numCopied), ms, numProcessed, k,
                       valueFragmentType, valueFragmentSeries, newValueFragmentSeries);
        results := RenameAndRecord(ms[numProcessed], results, valueFragmentType, valueFragmentSeries, newValueFragmentSeries);
        numProcessed := numProcessed + 1;
        if numProcessed >= maxMsmtsToProcess {
          break;
        }
      }
      assert numProcessed == k;
      assert ms[k..k] == [];
    }

    /** `renameValueFragmentSeries`, given what the measurement query of the
        fragment type returns. The renames run one after the other here;
        the counters do not depend on their order. */
    method RenameValueFragmentSeries(sourceMsmts: Result<seq<Measurement>>, valueFragmentType: string,
                                     valueFragmentSeries: string, newValueFragmentSeries: string)
      returns (r: Result<RenameTally>)
      modifies this`calls, this`numCopied
      ensures sourceMsmts.Err? ==> r == Err(sourceMsmts.msg) && calls == old(calls) && numCopied == old(numCopied)
      ensures sourceMsmts.Ok? ==>
        var k := NumProcessed(|sourceMsmts.value|, maxMsmtsToProcess);
        var run := RenameFrom(dryRun, failing, RenameRun([], old(calls), 0), sourceMsmts.value[..k],
                              valueFragmentType, valueFragmentSeries, newValueFragmentSeries);
        && r == Ok(RenameTally(k, CountSkipped(run.results), CountErrors(run.results)))
        && calls == run.calls
        && numCopied == run.numCopied
    {
      if sourceMsmts.Err? {
        return Err(sourceMsmts.msg);
      }
      numCopied := 0;
      var results := SubmitRenames(sourceMsmts.value, valueFragmentType, valueFragmentSeries, newValueFragmentSeries);
      var numSkipped, numErrors := CountResults(results);
      return Ok(RenameTally(|results|, numSkipped, numErrors));
    }
  }
}
