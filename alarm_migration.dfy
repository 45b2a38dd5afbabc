/** `AlarmMigrationService`: copies one device's alarms to its target device.
    The source alarms are sorted by status (CLEARED first), deduplicated
    against the target's alarms by fingerprint, and each remaining alarm is
    replayed on the target with as many creates as its (clamped) count, so
    that the platform's own alarm deduplication rebuilds the count. */
module AlarmMigration {
  import opened Wrappers
  import opened Records
  import opened JavaString
  import StableSort
  import AlarmUtil
  import opened Dedup
  import opened JobModel

  /** Default of `AlarmMigrationService.maxAlarmCountValue`. */
  const DEFAULT_MAX_ALARM_COUNT: int := 99

  const ACTIVE: string := "ACTIVE"
  const ACKNOWLEDGED: string := "ACKNOWLEDGED"
  const CLEARED: string := "CLEARED"

  // ---------------------------------------------------------------------
  // Sorting by status

  /** The comparator handed to `srcAlarms.sort`: the negated `compareTo` of
      the status strings, i.e. reverse alphabetical order. */
  function StatusOrder(a1: Alarm, a2: Alarm): int
  {
    -CompareTo(a1.status, a2.status)
  }

  lemma StatusOrderIsComparator()
    ensures StableSort.IsComparator(StatusOrder)
  {
    forall a: Alarm, b: Alarm
      ensures StatusOrder(a, b) < 0 <==> StatusOrder(b, a) > 0
    {
      CompareToAntisymmetric(a.status, b.status);
    }
    forall a: Alarm, b: Alarm, c: Alarm | StatusOrder(a, b) <= 0 && StatusOrder(b, c) <= 0
      ensures StatusOrder(a, c) <= 0
    {
      CompareToAntisymmetric(a.status, b.status);
      CompareToAntisymmetric(b.status, c.status);
      CompareToAntisymmetric(a.status, c.status);
      CompareToTransitive(c.status, b.status, a.status);
    }
  }

  /** The source alarms in the order they are migrated: a stable sort by
      status string, descending. */
  function SortAlarms(s: seq<Alarm>): (r: seq<Alarm>)
    ensures multiset(r) == multiset(s)
    ensures StableSort.Sorted(StatusOrder, r)
    ensures forall y: Alarm :: StableSort.Same(StatusOrder, y, r) == StableSort.Same(StatusOrder, y, s)
  {
    StatusOrderIsComparator();
    StableSort.SortPermutes(StatusOrder, s);
    StableSort.SortSorted(StatusOrder, s);
    forall y: Alarm
      ensures StableSort.Same(StatusOrder, y, StableSort.Sort(StatusOrder, s)) == StableSort.Same(StatusOrder, y, s)
    {
      StableSort.SortStable(StatusOrder, y, s);
    }
    StableSort.Sort(StatusOrder, s)
  }

  /** Position of the three platform statuses in the migration order. */
  function StatusRank(status: string): int
  {
    if status == CLEARED then 0 else if status == ACTIVE then 1 else 2
  }

  predicate IsPlatformStatus(status: string)
  {
    status == CLEARED || status == ACTIVE || status == ACKNOWLEDGED
  }

  lemma StatusOrderRanks(s1: string, s2: string)
    requires IsPlatformStatus(s1) && IsPlatformStatus(s2)
    ensures CompareTo(s1, s2) >= 0 ==> StatusRank(s1) <= StatusRank(s2)
  {
    assert CompareTo(CLEARED, ACTIVE) == 2;
    assert CompareTo(CLEARED, ACKNOWLEDGED) == 2;
    assert CompareTo(ACTIVE, CLEARED) == -2;
    assert CompareTo(ACKNOWLEDGED, CLEARED) == -2;
    assert CompareTo(ACTIVE, ACKNOWLEDGED) == CompareTo("TIVE", "KNOWLEDGED") == 9;
    assert CompareTo(ACKNOWLEDGED, ACTIVE) == CompareTo("KNOWLEDGED", "TIVE") == -9;
  }

  /** CLEARED alarms are migrated first, then ACTIVE, then ACKNOWLEDGED. */
  lemma SortAlarmsByStatus(s: seq<Alarm>)
    ensures var r := SortAlarms(s);
      forall i, j :: 0 <= i < j < |r| && IsPlatformStatus(r[i].status) && IsPlatformStatus(r[j].status)
        ==> StatusRank(r[i].status) <= StatusRank(r[j].status)
  {
    var r := SortAlarms(s);
    forall i, j | 0 <= i < j < |r| && IsPlatformStatus(r[i].status) && IsPlatformStatus(r[j].status)
      ensures StatusRank(r[i].status) <= StatusRank(r[j].status)
    {
      assert StatusOrder(r[i], r[j]) <= 0;
      StatusOrderRanks(r[i].status, r[j].status);
    }
  }

  // ---------------------------------------------------------------------
  // Fingerprints

  /** The count limit applied before fingerprinting (`setCount` in place). */
  function Clamp(a: Alarm, maxCount: int): (r: Alarm)
    requires a.count.Some?
    ensures r.count.Some? && r.count.value == Min(a.count.value, maxCount)
    ensures r == a.(count := r.count)
  {
    if a.count.value > maxCount then a.(count := Some(maxCount)) else a
  }

  /** An alarm gets as far as the fingerprint only if reading its id and its
      count does not dereference null. */
  predicate Hashable(a: Alarm)
  {
    a.id.Some? && a.count.Some?
  }

  /** A source alarm's fingerprint: trimmed, clamped, then hashed. */
  function SourceFingerprint(fingerprint: Alarm -> int, maxCount: int, a: Alarm): int
    requires a.count.Some?
  {
    AlarmUtil.Fingerprint(fingerprint, Clamp(AlarmUtil.Trim(a), maxCount))
  }

  /** The fingerprints of the target alarms, in order: each trimmed and
      hashed with the count it has on the target, which is not clamped. */
  function TargetFingerprints(fingerprint: Alarm -> int, s: seq<Alarm>): (r: seq<int>)
    ensures |r| == |s| && forall i :: 0 <= i < |s| ==> r[i] == AlarmUtil.Fingerprint(fingerprint, AlarmUtil.Trim(s[i]))
  {
    if s == [] then []
    else TargetFingerprints(fingerprint, s[..|s| - 1]) + [AlarmUtil.Fingerprint(fingerprint, AlarmUtil.Trim(s[|s| - 1]))]
  }

  /** `createUniqueHashesSet`: one occurrence per target alarm. */
  method CreateUniqueHashesSet(fingerprint: Alarm -> int, targets: seq<Alarm>) returns (hashes: multiset<int>)
    ensures hashes == multiset(TargetFingerprints(fingerprint, targets))
    ensures |hashes| == |targets|
  {
    hashes := multiset{};
    for i := 0 to |targets|
      invariant hashes == multiset(TargetFingerprints(fingerprint, targets[..i]))
    {
      var k := AlarmUtil.Fingerprint(fingerprint, AlarmUtil.Trim(targets[i]));
      assert targets[..i + 1][..i] == targets[..i];
      assert TargetFingerprints(fingerprint, targets[..i + 1]) == TargetFingerprints(fingerprint, targets[..i]) + [k];
      hashes := hashes + multiset{k};
    }
    assert targets[..|targets|] == targets;
  }

  /** The fingerprints of the source alarms that reach the multiset test, in order. */
  function Keys(fingerprint: Alarm -> int, maxCount: int, s: seq<Alarm>): seq<int>
  {
    if s == [] then []
    else (if Hashable(s[0]) then [SourceFingerprint(fingerprint, maxCount, s[0])] else [])
         + Keys(fingerprint, maxCount, s[1..])
  }

  /** The number of source alarms that fail before their fingerprint. */
  function Unhashable(s: seq<Alarm>): nat
  {
    if s == [] then 0 else (if Hashable(s[0]) then 0 else 1) + Unhashable(s[1..])
  }

  lemma {:induction false} KeysCount(fingerprint: Alarm -> int, maxCount: int, s: seq<Alarm>)
    ensures |Keys(fingerprint, maxCount, s)| + Unhashable(s) == |s|
  {
    if s != [] {
      KeysCount(fingerprint, maxCount, s[1..]);
    }
  }

  // ---------------------------------------------------------------------
  // The replay plan of one alarm

  /** A call on the target tenant's alarm API. An update names the create
      whose returned id it uses by that create's position in the call log. */
  datatype AlarmCall = Create(body: Alarm) | Update(createdBy: nat, body: Alarm)

  /** The `copyAlarm` the loop builds: the target device as source, type,
      text, attrs and severity of the source alarm, and the given time and
      status; every other field is unset. */
  function CopyOf(a: Alarm, targetDeviceId: string, time: Option<int>, status: string): Alarm
  {
    Alarm(None, None, Some(targetDeviceId), None, None, None, a.alarmType, a.text, status, None,
          a.severity, time, None, a.attrs)
  }

  function Repeat(x: AlarmCall, n: int): (r: seq<AlarmCall>)
    ensures |r| == Max(n, 0) && forall i :: 0 <= i < |r| ==> r[i] == x
  {
    if n <= 0 then [] else Repeat(x, n - 1) + [x]
  }

  /** The calls that replicate a trimmed, clamped alarm `c` whose first call
      will be number `first` in the log. */
  function Plan(c: Alarm, targetDeviceId: string, first: nat): seq<AlarmCall>
    requires c.count.Some?
  {
    if c.count.value == 1 then
      [Create(CopyOf(c, targetDeviceId, c.time, c.status))]
    else
      [Create(CopyOf(c, targetDeviceId, c.firstOccurrence, ACTIVE))]
      + Repeat(Create(CopyOf(c, targetDeviceId, c.time, ACTIVE)), c.count.value - 1)
      + (if c.status != ACTIVE then [Update(first, CopyOf(c, targetDeviceId, c.time, c.status))] else [])
  }

  function CreatesIn(p: seq<AlarmCall>): nat
  {
    if p == [] then 0 else (if p[0].Create? then 1 else 0) + CreatesIn(p[1..])
  }

  lemma {:induction false} CreatesInAppend(p: seq<AlarmCall>, q: seq<AlarmCall>)
    ensures CreatesIn(p + q) == CreatesIn(p) + CreatesIn(q)
  {
    if p == [] {
      assert p + q == q;
    } else {
      assert (p + q)[1..] == p[1..] + q;
      CreatesInAppend(p[1..], q);
    }
  }

  lemma {:induction false} CreatesInRepeat(x: AlarmCall, n: int)
    requires x.Create?
    ensures CreatesIn(Repeat(x, n)) == Max(n, 0)
  {
    if n > 0 {
      CreatesInRepeat(x, n - 1);
      CreatesInAppend(Repeat(x, n - 1), [x]);
    }
  }

  /** A one-time alarm is one create with its own time and status. A
      multi-count alarm is one ACTIVE create at the first occurrence, count - 1
      ACTIVE creates at the last time, and one status update (of the first
      create) when the status is not ACTIVE: count creates in all, plus the
      update. */
  lemma PlanShape(c: Alarm, targetDeviceId: string, first: nat)
    requires c.count.Some?
    ensures var p := Plan(c, targetDeviceId, first);
      && (c.count.value == 1 ==> p == [Create(CopyOf(c, targetDeviceId, c.time, c.status))])
      && (c.count.value != 1 ==>
            && p[0] == Create(CopyOf(c, targetDeviceId, c.firstOccurrence, ACTIVE))
            && (forall i :: 1 <= i < c.count.value ==> p[i] == Create(CopyOf(c, targetDeviceId, c.time, ACTIVE)))
            && (c.status != ACTIVE ==> p[|p| - 1] == Update(first, CopyOf(c, targetDeviceId, c.time, c.status))))
      && CreatesIn(p) == Max(c.count.value, 1)
      && |p| == Max(c.count.value, 1) + (if c.count.value != 1 && c.status != ACTIVE then 1 else 0)
  {
    var p := Plan(c, targetDeviceId, first);
    if c.count.value != 1 {
      var head := [Create(CopyOf(c, targetDeviceId, c.firstOccurrence, ACTIVE))];
      var again := Repeat(Create(CopyOf(c, targetDeviceId, c.time, ACTIVE)), c.count.value - 1);
      var tail := if c.status != ACTIVE then [Update(first, CopyOf(c, targetDeviceId, c.time, c.status))] else [];
      assert p == head + again + tail;
      CreatesInRepeat(Create(CopyOf(c, targetDeviceId, c.time, ACTIVE)), c.count.value - 1);
      CreatesInAppend(head, again);
      CreatesInAppend(head + again, tail);
    }
  }

  // ---------------------------------------------------------------------
  // Calls that fail

  /** No call numbered `base` .. `base + n - 1` throws. */
  predicate NoneFail(base: nat, n: nat, fails: set<nat>)
  {
    forall j :: base <= j < base + n ==> j !in fails
  }

  /** The calls of `plan` that are made when call number `base` is its first:
      all of them up to and including the first one that throws. */
  function Attempted(plan: seq<AlarmCall>, base: nat, fails: set<nat>): seq<AlarmCall>
  {
    if plan == [] then []
    else if base in fails then [plan[0]]
    else [plan[0]] + Attempted(plan[1..], base + 1, fails)
  }

  lemma {:induction false} AttemptedAll(plan: seq<AlarmCall>, base: nat, fails: set<nat>)
    requires NoneFail(base, |plan|, fails)
    ensures Attempted(plan, base, fails) == plan
  {
    if plan != [] {
      AttemptedAll(plan[1..], base + 1, fails);
    }
  }

  lemma {:induction false} AttemptedUpTo(plan: seq<AlarmCall>, base: nat, fails: set<nat>, n: nat)
    requires n < |plan| && NoneFail(base, n, fails) && base + n in fails
    ensures Attempted(plan, base, fails) == plan[..n + 1]
  {
    if n > 0 {
      AttemptedUpTo(plan[1..], base + 1, fails, n - 1);
      assert plan[..n + 1] == [plan[0]] + plan[1..][..n];
    }
  }

  /** Replays one alarm as the loop body does; `ok` is false when
      a call threw, and then the calls after it are not made. */
  method Replicate(c: Alarm, targetDeviceId: string, base: nat, fails: set<nat>)
    returns (made: seq<AlarmCall>, ok: bool)
    requires c.count.Some?
    ensures made == Attempted(Plan(c, targetDeviceId, base), base, fails)
    ensures ok <==> NoneFail(base, |Plan(c, targetDeviceId, base)|, fails)
  {
    ghost var plan := Plan(c, targetDeviceId, base);
    if c.count.value == 1 {
      made := [Create(CopyOf(c, targetDeviceId, c.time, c.status))];
      ok := base !in fails;
      if ok { AttemptedAll(plan, base, fails); } else { AttemptedUpTo(plan, base, fails, 0); }
      return;
    }
    var n := c.count.value - 1;
    var first := Create(CopyOf(c, targetDeviceId, c.firstOccurrence, ACTIVE));
    var again := Create(CopyOf(c, targetDeviceId, c.time, ACTIVE));
    ghost var tail := if c.status != ACTIVE then [Update(base, CopyOf(c, targetDeviceId, c.time, c.status))] else [];
    assert plan == [first] + Repeat(again, n) + tail;
    made := [first];
    ok := base !in fails;
    if !ok {
      AttemptedUpTo(plan, base, fails, 0);
      return;
    }
    var i := 0;
    while ok && i < n
      invariant 0 <= i <= Max(n, 0)
      invariant ok ==> made == [first] + Repeat(again, i) && NoneFail(base, |made|, fails)
      invariant !ok ==> made == Attempted(plan, base, fails) && !NoneFail(base, |plan|, fails)
    {
      ok := base + |made| !in fails;
      if !ok {
        assert plan[..|made| + 1] == made + [again];
        AttemptedUpTo(plan, base, fails, |made|);
      }
      made := made + [again];
      i := i + 1;
    }
    if !ok {
      return;
    }
    assert made == [first] + Repeat(again, n);
    if c.status != ACTIVE {
      ok := base + |made| !in fails;
      if !ok {
        assert plan[..|made| + 1] == plan;
        AttemptedUpTo(plan, base, fails, |made|);
      }
      made := made + [Update(base, CopyOf(c, targetDeviceId, c.time, c.status))];
    }
    if ok {
      assert made == plan;
      AttemptedAll(plan, base, fails);
    }
  }

  // ---------------------------------------------------------------------
  // The migration loop

  /** The `report` counters, the hash multiset and the call log. */
  datatype Tally = Tally(migrated: int, errors: int, skipped: int, hashes: multiset<int>, calls: seq<AlarmCall>)

  /** One iteration of `doMigrateAlarms`. */
  function Step(fingerprint: Alarm -> int, maxCount: int, targetDeviceId: string, fails: set<nat>,
                t: Tally, a: Alarm): Tally
  {
    if !Hashable(a) then t.(errors := t.errors + 1)
    else
      var c := Clamp(AlarmUtil.Trim(a), maxCount);
      var k := AlarmUtil.Fingerprint(fingerprint, c);
      if k in t.hashes then t.(skipped := t.skipped + 1, hashes := t.hashes - multiset{k})
      else
        var plan := Plan(c, targetDeviceId, |t.calls|);
        var made := Attempted(plan, |t.calls|, fails);
        if NoneFail(|t.calls|, |plan|, fails) then t.(migrated := t.migrated + 1, calls := t.calls + made)
        else t.(errors := t.errors + 1, calls := t.calls + made)
  }

  function Run(fingerprint: Alarm -> int, maxCount: int, targetDeviceId: string, fails: set<nat>,
               t: Tally, s: seq<Alarm>): Tally
    decreases |s|
  {
    if s == [] then t else Run(fingerprint, maxCount, targetDeviceId, fails, Step(fingerprint, maxCount, targetDeviceId, fails, t, s[0]), s[1..])
  }

  /** `doMigrateAlarms`: the loop over the sorted source alarms. */
  method DoMigrateAlarms(alarms: seq<Alarm>, targetDeviceId: string, fingerprint: Alarm -> int,
                         maxCount: int, fails: set<nat>, uniqueHashes: multiset<int>)
    returns (migrated: int, errors: int, skipped: int, left: multiset<int>, calls: seq<AlarmCall>)
    ensures Tally(migrated, errors, skipped, left, calls)
      == Run(fingerprint, maxCount, targetDeviceId, fails, Tally(0, 0, 0, uniqueHashes, []), alarms)
  {
    migrated, errors, skipped, left, calls := 0, 0, 0, uniqueHashes, [];
    var i := 0;
    while i < |alarms|
      invariant 0 <= i <= |alarms|
      invariant Run(fingerprint, maxCount, targetDeviceId, fails, Tally(migrated, errors, skipped, left, calls), alarms[i..])
        == Run(fingerprint, maxCount, targetDeviceId, fails, Tally(0, 0, 0, uniqueHashes, []), alarms)
    {
      assert alarms[i..][1..] == alarms[i + 1..];
      var a := alarms[i];
      if a.id.None? || a.count.None? {
        // reading the id or comparing the count throws; the catch counts it
        errors := errors + 1;
      } else {
        var c := AlarmUtil.Trim(a);
        if c.count.value > maxCount {
          c := c.(count := Some(maxCount));
        }
        var k := AlarmUtil.Fingerprint(fingerprint, c);
        if k in left {
          left := left - multiset{k};
          skipped := skipped + 1;
        } else {
          var made, ok := Replicate(c, targetDeviceId, |calls|, fails);
          calls := calls + made;
          if ok {
            migrated := migrated + 1;
          } else {
            errors := errors + 1;
          }
        }
      }
      i := i + 1;
    }
  }

  /** Every source alarm is counted exactly once: migrated, error or duplicate. */
  lemma {:induction false} RunCountsEachAlarmOnce(fingerprint: Alarm -> int, maxCount: int, targetDeviceId: string,
                                                  fails: set<nat>, t: Tally, s: seq<Alarm>)
    decreases |s|
    ensures var r := Run(fingerprint, maxCount, targetDeviceId, fails, t, s);
      r.migrated + r.errors + r.skipped == t.migrated + t.errors + t.skipped + |s|
  {
    if s != [] {
      RunCountsEachAlarmOnce(fingerprint, maxCount, targetDeviceId, fails,
                             Step(fingerprint, maxCount, targetDeviceId, fails, t, s[0]), s[1..]);
    }
  }

  /** The loop follows the deduplication scheme over the fingerprints of the
      alarms that reach it. */
  lemma {:induction false} RunFollowsDedup(fingerprint: Alarm -> int, maxCount: int, targetDeviceId: string,
                                           fails: set<nat>, t: Tally, s: seq<Alarm>)
    decreases |s|
    ensures var r := Run(fingerprint, maxCount, targetDeviceId, fails, t, s);
      var ks := Keys(fingerprint, maxCount, s);
      && r.skipped == t.skipped + |Skipped(t.hashes, ks)|
      && r.hashes == Left(t.hashes, ks)
      && r.migrated + r.errors == t.migrated + t.errors + Unhashable(s) + |Kept(t.hashes, ks)|
  {
    if s != [] {
      var t' := Step(fingerprint, maxCount, targetDeviceId, fails, t, s[0]);
      RunFollowsDedup(fingerprint, maxCount, targetDeviceId, fails, t', s[1..]);
      var ks := Keys(fingerprint, maxCount, s);
      var rest := Keys(fingerprint, maxCount, s[1..]);
      if Hashable(s[0]) {
        var k := SourceFingerprint(fingerprint, maxCount, s[0]);
        assert ks == [k] + rest;
        assert ks[0] == k && ks[1..] == rest;
      } else {
        assert ks == rest;
      }
    }
  }

  /** Without failing calls and with well-formed alarms, every non-duplicate
      alarm is migrated and none is counted as an error. */
  lemma {:induction false} RunWithoutFailures(fingerprint: Alarm -> int, maxCount: int, targetDeviceId: string,
                                              t: Tally, s: seq<Alarm>)
    decreases |s|
    requires forall i :: 0 <= i < |s| ==> Hashable(s[i])
    ensures var r := Run(fingerprint, maxCount, targetDeviceId, {}, t, s);
      && r.errors == t.errors
      && r.migrated == t.migrated + |Kept(t.hashes, Keys(fingerprint, maxCount, s))|
  {
    if s != [] {
      var t' := Step(fingerprint, maxCount, targetDeviceId, {}, t, s[0]);
      RunWithoutFailures(fingerprint, maxCount, targetDeviceId, t', s[1..]);
      var ks := Keys(fingerprint, maxCount, s);
      var k := SourceFingerprint(fingerprint, maxCount, s[0]);
      assert ks == [k] + Keys(fingerprint, maxCount, s[1..]);
      assert ks[0] == k && ks[1..] == Keys(fingerprint, maxCount, s[1..]);
    }
  }

  /** The source alarms that are replayed, trimmed and clamped, in order:
      those that reach the fingerprint and find no occurrence of it left in
      the multiset. */
  function KeptAlarms(fingerprint: Alarm -> int, maxCount: int, hashes: multiset<int>, s: seq<Alarm>): (r: seq<Alarm>)
    decreases |s|
    ensures forall i :: 0 <= i < |r| ==> r[i].count.Some?
  {
    if s == [] then []
    else if !Hashable(s[0]) then KeptAlarms(fingerprint, maxCount, hashes, s[1..])
    else
      var c := Clamp(AlarmUtil.Trim(s[0]), maxCount);
      var k := AlarmUtil.Fingerprint(fingerprint, c);
      if k in hashes then KeptAlarms(fingerprint, maxCount, hashes - multiset{k}, s[1..])
      else [c] + KeptAlarms(fingerprint, maxCount, hashes, s[1..])
  }

  /** The replayed alarms carry exactly the fingerprints the deduplication
      scheme keeps. */
  lemma {:induction false} KeptAlarmsFollowDedup(fingerprint: Alarm -> int, maxCount: int, hashes: multiset<int>,
                                                 s: seq<Alarm>)
    decreases |s|
    ensures var r := KeptAlarms(fingerprint, maxCount, hashes, s);
      seq(|r|, i requires 0 <= i < |r| => AlarmUtil.Fingerprint(fingerprint, r[i]))
        == Kept(hashes, Keys(fingerprint, maxCount, s))
  {
    if s != [] {
      var ks := Keys(fingerprint, maxCount, s);
      var rest := Keys(fingerprint, maxCount, s[1..]);
      if !Hashable(s[0]) {
        assert ks == rest;
        KeptAlarmsFollowDedup(fingerprint, maxCount, hashes, s[1..]);
      } else {
        var k := SourceFingerprint(fingerprint, maxCount, s[0]);
        assert ks == [k] + rest;
        assert ks[0] == k && ks[1..] == rest;
        if k in hashes {
          KeptAlarmsFollowDedup(fingerprint, maxCount, hashes - multiset{k}, s[1..]);
        } else {
          KeptAlarmsFollowDedup(fingerprint, maxCount, hashes, s[1..]);
        }
      }
    }
  }

  /** The plans of `cs` laid out one after another in the call log, the
      first starting at call number `base`. */
  function Replays(cs: seq<Alarm>, targetDeviceId: string, base: nat): seq<AlarmCall>
    requires forall i :: 0 <= i < |cs| ==> cs[i].count.Some?
    decreases |cs|
  {
    if cs == [] then []
    else
      var p := Plan(cs[0], targetDeviceId, base);
      p + Replays(cs[1..], targetDeviceId, base + |p|)
  }

  lemma AppendAssoc(a: seq<AlarmCall>, b: seq<AlarmCall>, c: seq<AlarmCall>)
    ensures (a + b) + c == a + (b + c)
  {
  }

  /** Without failing calls the call log is the full replay plan of every
      kept alarm, in order: a duplicate or an alarm that fails before its
      fingerprint makes no call. */
  lemma {:induction false} RunReplaysKept(fingerprint: Alarm -> int, maxCount: int, targetDeviceId: string,
                                          t: Tally, s: seq<Alarm>)
    decreases |s|
    ensures Run(fingerprint, maxCount, targetDeviceId, {}, t, s).calls
         == t.calls + Replays(KeptAlarms(fingerprint, maxCount, t.hashes, s), targetDeviceId, |t.calls|)
  {
    if s != [] {
      var t' := Step(fingerprint, maxCount, targetDeviceId, {}, t, s[0]);
      RunReplaysKept(fingerprint, maxCount, targetDeviceId, t', s[1..]);
      if Hashable(s[0]) {
        var c := Clamp(AlarmUtil.Trim(s[0]), maxCount);
        if AlarmUtil.Fingerprint(fingerprint, c) !in t.hashes {
          var p := Plan(c, targetDeviceId, |t.calls|);
          AttemptedAll(p, |t.calls|, {});
          var rest := KeptAlarms(fingerprint, maxCount, t.hashes, s[1..]);
          assert ([c] + rest)[1..] == rest;
          AppendAssoc(t.calls, p, Replays(rest, targetDeviceId, |t.calls| + |p|));
        }
      }
    }
  }

  /** Whatever calls fail, a run in which no alarm is kept makes no call. */
  lemma {:induction false} DuplicatesMakeNoCall(fingerprint: Alarm -> int, maxCount: int, targetDeviceId: string,
                                                fails: set<nat>, t: Tally, s: seq<Alarm>)
    decreases |s|
    requires KeptAlarms(fingerprint, maxCount, t.hashes, s) == []
    ensures Run(fingerprint, maxCount, targetDeviceId, fails, t, s).calls == t.calls
  {
    if s != [] {
      DuplicatesMakeNoCall(fingerprint, maxCount, targetDeviceId, fails,
                           Step(fingerprint, maxCount, targetDeviceId, fails, t, s[0]), s[1..]);
    }
  }

  // ---------------------------------------------------------------------
  // One device

  /** The report `migrateAlarms` hands over: the failed fetch's report, or
      the completed report with the counters of the loop over the sorted
      alarms. */
  function MigrationReport(source: Tenant, target: Tenant, sourceDeviceId: string, targetDeviceId: string,
                           params: seq<QueryParam>, fingerprint: Alarm -> int, maxCount: int, fails: set<nat>,
                           durationSec: int): Report
  {
    var targets := AlarmUtil.GetAlarms(target, targetDeviceId, params);
    var sources := AlarmUtil.GetAlarms(source, sourceDeviceId, params);
    if targets.Err? then FetchFailedReport(targets.msg, durationSec)
    else if sources.Err? then FetchFailedReport(sources.msg, durationSec)
    else
      var r := Run(fingerprint, maxCount, targetDeviceId, fails,
                   Tally(0, 0, 0, multiset(TargetFingerprints(fingerprint, targets.value)), []), SortAlarms(sources.value));
      CompletedReport(sourceDeviceId, targetDeviceId, r.migrated, r.errors, r.skipped, durationSec)
  }

  /** `migrateAlarms`. `durationSec` is what the clock measured. */
  method MigrateAlarms(source: Tenant, target: Tenant, sourceDeviceId: string, targetDeviceId: string,
                       params: seq<QueryParam>, fingerprint: Alarm -> int, maxCount: int, fails: set<nat>,
                       durationSec: int)
    returns (report: Report, calls: seq<AlarmCall>)
    ensures report == MigrationReport(source, target, sourceDeviceId, targetDeviceId, params, fingerprint, maxCount, fails, durationSec)
    ensures var targets := AlarmUtil.GetAlarms(target, targetDeviceId, params);
      var sources := AlarmUtil.GetAlarms(source, sourceDeviceId, params);
      if targets.Err? then report == FetchFailedReport(targets.msg, durationSec) && calls == []
      else if sources.Err? then report == FetchFailedReport(sources.msg, durationSec) && calls == []
      else
        var r := Run(fingerprint, maxCount, targetDeviceId, fails,
                     Tally(0, 0, 0, multiset(TargetFingerprints(fingerprint, targets.value)), []), SortAlarms(sources.value));
        && report == CompletedReport(sourceDeviceId, targetDeviceId, r.migrated, r.errors, r.skipped, durationSec)
        && calls == r.calls
  {
    var trgtAlarms := AlarmUtil.GetAlarms(target, targetDeviceId, params);
    if trgtAlarms.Err? {
      report, calls := FetchFailedReport(trgtAlarms.msg, durationSec), [];
      return;
    }
    var uniqueHashes := CreateUniqueHashesSet(fingerprint, trgtAlarms.value);
    var srcAlarms := AlarmUtil.GetAlarms(source, sourceDeviceId, params);
    if srcAlarms.Err? {
      report, calls := FetchFailedReport(srcAlarms.msg, durationSec), [];
      return;
    }
    var sorted := SortAlarms(srcAlarms.value);
    var migrated, errors, skipped, _, made := DoMigrateAlarms(sorted, targetDeviceId, fingerprint, maxCount, fails, uniqueHashes);
    report := CompletedReport(sourceDeviceId, targetDeviceId, migrated, errors, skipped, durationSec);
    calls := made;
  }

  /** The counters of a completed report in closed form: duplicates are the
      common part of the source and target fingerprints, and every other
      alarm is either migrated or an error. */
  lemma CompletedReportCounts(fingerprint: Alarm -> int, maxCount: int, targetDeviceId: string, fails: set<nat>,
                              targets: seq<Alarm>, sources: seq<Alarm>)
    ensures var bag := multiset(TargetFingerprints(fingerprint, targets));
      var sorted := SortAlarms(sources);
      var ks := Keys(fingerprint, maxCount, sorted);
      var r := Run(fingerprint, maxCount, targetDeviceId, fails, Tally(0, 0, 0, bag, []), sorted);
      && r.skipped == |multiset(ks) * bag|
      && r.migrated + r.errors == Unhashable(sorted) + |multiset(ks) - bag|
      && r.migrated + r.errors + r.skipped == |sources|
  {
    var bag := multiset(TargetFingerprints(fingerprint, targets));
    var sorted := SortAlarms(sources);
    var ks := Keys(fingerprint, maxCount, sorted);
    RunFollowsDedup(fingerprint, maxCount, targetDeviceId, fails, Tally(0, 0, 0, bag, []), sorted);
    RunCountsEachAlarmOnce(fingerprint, maxCount, targetDeviceId, fails, Tally(0, 0, 0, bag, []), sorted);
    DedupLaw(bag, ks);
    assert |multiset(Kept(bag, ks))| == |Kept(bag, ks)|;
    assert |sorted| == |multiset(sorted)| == |multiset(sources)| == |sources|;
  }
}
