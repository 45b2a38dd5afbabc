/** `SignalMetricCollectionService`: how many signals of each type the
    source devices hold, and from which date. Each device yields three
    `DeviceSignalMetrics` (measurements, alarms, events); the whole list is
    sorted by date, oldest first and undated last, and summarized per type. */
module SignalMetrics {
  import opened Wrappers
  import opened Records
  import opened JobModel
  import StableSort

  const LONG_MAX: int := 0x7fff_ffff_ffff_ffff
  const LONG_MIN: int := -0x8000_0000_0000_0000

  /** Joda's `DateTime.compareTo` on the instants' milliseconds. */
  function CompareInstants(a: int, b: int): (c: int)
    ensures c == -1 || c == 0 || c == 1
    ensures c < 0 <==> a < b
    ensures c == 0 <==> a == b
  {
    if a < b then -1 else if a == b then 0 else 1
  }

  /** `compareMetrics`: by `dateFrom`, a metric without a date after every
      metric with one. */
  function CompareMetrics(o1: DeviceSignalMetrics, o2: DeviceSignalMetrics): (c: int)
    ensures c == -1 || c == 0 || c == 1
    ensures o1.dateFrom.None? && o2.dateFrom.None? ==> c == 0
    ensures o1.dateFrom.Some? && o2.dateFrom.None? ==> c < 0
    ensures o1.dateFrom.None? && o2.dateFrom.Some? ==> c > 0
    ensures o1.dateFrom.Some? && o2.dateFrom.Some? ==>
      (c < 0 <==> o1.dateFrom.value < o2.dateFrom.value) && (c == 0 <==> o1.dateFrom.value == o2.dateFrom.value)
  {
    if o1.dateFrom.None? && o2.dateFrom.None? then 0
    else if o2.dateFrom.None? then -1
    else if o1.dateFrom.None? then 1
    else CompareInstants(o1.dateFrom.value, o2.dateFrom.value)
  }

  /** `compareMetrics` meets `Comparator`'s contract, so the sort it drives
      is well defined. */
  lemma CompareMetricsIsComparator()
    ensures StableSort.IsComparator(CompareMetrics)
  {
    forall a: DeviceSignalMetrics, b: DeviceSignalMetrics
      ensures CompareMetrics(a, b) < 0 <==> CompareMetrics(b, a) > 0
    {
    }
    forall a: DeviceSignalMetrics, b: DeviceSignalMetrics, c: DeviceSignalMetrics
      | CompareMetrics(a, b) <= 0 && CompareMetrics(b, c) <= 0
      ensures CompareMetrics(a, c) <= 0
    {
    }
  }

  /** The page statistics `MeasurementUtil.getMetrics`, `AlarmUtil.getMetrics`
      and `EventUtil.getMetrics` read for one device and one signal type: the
      signal count and the date of the oldest signal, or the exception. */
  type StatsOracle = (SignalType, string) -> Result<(int, Option<int>)>

  /** The `getMetrics` result: tagged with the type and the device asked for. */
  function GetMetrics(stats: StatsOracle, t: SignalType, deviceId: string): (r: Result<DeviceSignalMetrics>)
    ensures r.Ok? <==> stats(t, deviceId).Ok?
    ensures r.Ok? ==> r.value.signalType == t && r.value.deviceId == deviceId
  {
    match stats(t, deviceId)
    case Err(e) => Err(e)
    case Ok((count, dateFrom)) => Ok(DeviceSignalMetrics(deviceId, t, count, dateFrom))
  }

  /** `collectDeviceMetrics`: the three metrics of a device in the order
      measurement, alarm, event; the first exception ends it. */
  function CollectDeviceMetrics(stats: StatsOracle, deviceId: string): (r: Result<seq<DeviceSignalMetrics>>)
    ensures r.Ok? <==> stats(MEASUREMENT, deviceId).Ok? && stats(ALARM, deviceId).Ok? && stats(EVENT, deviceId).Ok?
    ensures r.Ok? ==>
      && |r.value| == 3
      && r.value[0].signalType == MEASUREMENT && r.value[1].signalType == ALARM && r.value[2].signalType == EVENT
      && forall i :: 0 <= i < 3 ==> r.value[i].deviceId == deviceId
  {
    match GetMetrics(stats, MEASUREMENT, deviceId)
    case Err(e) => Err(e)
    case Ok(m) =>
      match GetMetrics(stats, ALARM, deviceId)
      case Err(e) => Err(e)
      case Ok(a) =>
        match GetMetrics(stats, EVENT, deviceId)
        case Err(e) => Err(e)
        case Ok(ev) => Ok([m, a, ev])
  }

  /** What one device adds to the shared list: its three metrics, or nothing
      when its task throws (no id, or a failing query), since an exception in
      an executor task is only logged. */
  function DeviceContribution(stats: StatsOracle, device: ManagedObject): seq<DeviceSignalMetrics>
  {
    if device.id.None? then []
    else match CollectDeviceMetrics(stats, device.id.value)
      case Err(_) => []
      case Ok(ms) => ms
  }

  /** The list the device tasks fill, in device order. */
  function Gathered(stats: StatsOracle, devices: seq<ManagedObject>): seq<DeviceSignalMetrics>
  {
    if devices == [] then []
    else Gathered(stats, devices[..|devices| - 1]) + DeviceContribution(stats, devices[|devices| - 1])
  }

  /** A device contributes three metrics or none, all carrying its id. */
  lemma ContributionOfDevice(stats: StatsOracle, device: ManagedObject)
    ensures |DeviceContribution(stats, device)| == 0 || |DeviceContribution(stats, device)| == 3
    ensures forall m :: m in DeviceContribution(stats, device) ==> device.id == Some(m.deviceId)
  {
    if device.id.Some? && CollectDeviceMetrics(stats, device.id.value).Ok? {
      var ms := CollectDeviceMetrics(stats, device.id.value).value;
      forall m | m in ms
        ensures device.id == Some(m.deviceId)
      {
        var i :| 0 <= i < 3 && ms[i] == m;
      }
    }
  }

  /** Adding none or three keeps a multiple of three. */
  lemma MultipleOfThree(a: nat, b: nat)
    requires a % 3 == 0 && (b == 0 || b == 3)
    ensures (a + b) % 3 == 0
  {
  }

  /** Every device contributes exactly three metrics or none. */
  lemma {:induction false} GatheredInThrees(stats: StatsOracle, devices: seq<ManagedObject>)
    decreases |devices|
    ensures |Gathered(stats, devices)| % 3 == 0
  {
    if devices == [] {
      return;
    }
    var init, last := devices[..|devices| - 1], devices[|devices| - 1];
    GatheredInThrees(stats, init);
    ContributionOfDevice(stats, last);
    var g, c := Gathered(stats, init), DeviceContribution(stats, last);
    assert |Gathered(stats, devices)| == |g| + |c|;
    MultipleOfThree(|g|, |c|);
  }

  /** Every metric gathered belongs to one of the devices. */
  lemma {:induction false} GatheredFromDevices(stats: StatsOracle, devices: seq<ManagedObject>)
    decreases |devices|
    ensures forall m :: m in Gathered(stats, devices) ==>
      exists i :: 0 <= i < |devices| && devices[i].id == Some(m.deviceId)
  {
    if devices == [] {
      return;
    }
    var init, last := devices[..|devices| - 1], devices[|devices| - 1];
    GatheredFromDevices(stats, init);
    ContributionOfDevice(stats, last);
    var g, c := Gathered(stats, init), DeviceContribution(stats, last);
    assert Gathered(stats, devices) == g + c;
    forall m: DeviceSignalMetrics | m in g + c
      ensures exists i :: 0 <= i < |devices| && devices[i].id == Some(m.deviceId)
    {
      if m in g {
        var i :| 0 <= i < |init| && init[i].id == Some(m.deviceId);
        assert devices[i] == init[i];
      } else {
        assert devices[|devices| - 1].id == Some(m.deviceId);
      }
    }
  }

  /** `collectDeviceSignalMetrics`, given the source devices the inventory
      query returns (or its exception): every device's metrics gathered, then
      sorted by `compareMetrics`. */
  method CollectDeviceSignalMetrics(devices: Result<seq<ManagedObject>>, stats: StatsOracle)
    returns (r: Result<seq<DeviceSignalMetrics>>)
    ensures devices.Err? ==> r == Err(devices.msg)
    ensures devices.Ok? ==> r == Ok(StableSort.Sort(CompareMetrics, Gathered(stats, devices.value)))
  {
    if devices.Err? {
      return Err(devices.msg);
    }
    var ds := devices.value;
    var metricsList: seq<DeviceSignalMetrics> := [];
    for i := 0 to |ds|
      invariant metricsList == Gathered(stats, ds[..i])
    {
      assert ds[..i + 1][..i] == ds[..i];
      var sourceDevice := ds[i];
      if sourceDevice.id.Some? {
        var metrics := CollectDeviceMetrics(stats, sourceDevice.id.value);
        if metrics.Ok? {
          metricsList := metricsList + metrics.value;
        }
      }
    }
    assert ds[..|ds|] == ds;
    return Ok(StableSort.Sort(CompareMetrics, metricsList));
  }

  /** The returned list holds exactly the gathered metrics, sorted by
      `compareMetrics`, with metrics of equal date in gathering order. */
  lemma CollectedSorted(stats: StatsOracle, devices: seq<ManagedObject>)
    ensures var r := StableSort.Sort(CompareMetrics, Gathered(stats, devices));
      && StableSort.Sorted(CompareMetrics, r)
      && multiset(r) == multiset(Gathered(stats, devices))
      && forall y :: StableSort.Same(CompareMetrics, y, r) == StableSort.Same(CompareMetrics, y, Gathered(stats, devices))
  {
    var g := Gathered(stats, devices);
    CompareMetricsIsComparator();
    StableSort.SortSorted(CompareMetrics, g);
    StableSort.SortPermutes(CompareMetrics, g);
    forall y
      ensures StableSort.Same(CompareMetrics, y, StableSort.Sort(CompareMetrics, g)) == StableSort.Same(CompareMetrics, y, g)
    {
      StableSort.SortStable(CompareMetrics, y, g);
    }
  }

  /** Undated metrics come last in the sorted list. */
  lemma UndatedLast(s: seq<DeviceSignalMetrics>, i: int, j: int)
    requires StableSort.Sorted(CompareMetrics, s)
    requires 0 <= i < |s| && 0 <= j < |s| && s[i].dateFrom.None? && s[j].dateFrom.Some?
    ensures j < i
  {
    assert CompareMetrics(s[j], s[i]) < 0;
  }

  /** The metrics of one signal type, in order (the stream `filter`). */
  function OfType(ms: seq<DeviceSignalMetrics>, t: SignalType): (r: seq<DeviceSignalMetrics>)
    ensures forall m :: m in r ==> m.signalType == t
    ensures forall m :: m in ms && m.signalType == t ==> m in r
    ensures |r| <= |ms|
  {
    if ms == [] then []
    else OfType(ms[..|ms| - 1], t) + (if ms[|ms| - 1].signalType == t then [ms[|ms| - 1]] else [])
  }

  /** The three per-type lists split the metrics: each metric is in exactly
      one of them, as often as in the whole list. */
  lemma {:induction false} TypesPartition(ms: seq<DeviceSignalMetrics>)
    decreases |ms|
    ensures multiset(OfType(ms, ALARM)) + multiset(OfType(ms, EVENT)) + multiset(OfType(ms, MEASUREMENT)) == multiset(ms)
  {
    if ms != [] {
      var init, last := ms[..|ms| - 1], ms[|ms| - 1];
      TypesPartition(init);
      SnocBag(ms);
      var a, e, m := multiset(OfType(init, ALARM)), multiset(OfType(init, EVENT)), multiset(OfType(init, MEASUREMENT));
      OfTypeBagSnoc(ms, ALARM);
      OfTypeBagSnoc(ms, EVENT);
      OfTypeBagSnoc(ms, MEASUREMENT);
      AddOne(a, e, m, multiset(init), last);
    }
  }

  lemma SnocBag<T>(s: seq<T>)
    requires s != []
    ensures multiset(s) == multiset(s[..|s| - 1]) + multiset{s[|s| - 1]}
  {
    assert s == s[..|s| - 1] + [s[|s| - 1]];
  }

  lemma OfTypeBagSnoc(ms: seq<DeviceSignalMetrics>, t: SignalType)
    requires ms != []
    ensures ms[|ms| - 1].signalType == t ==>
      multiset(OfType(ms, t)) == multiset(OfType(ms[..|ms| - 1], t)) + multiset{ms[|ms| - 1]}
    ensures ms[|ms| - 1].signalType != t ==>
      multiset(OfType(ms, t)) == multiset(OfType(ms[..|ms| - 1], t))
  {
  }

  /** Adding one element to one of three parts of a multiset adds it to the
      whole, whichever part it is. */
  lemma AddOne<T>(x: multiset<T>, y: multiset<T>, z: multiset<T>, whole: multiset<T>, v: T)
    requires x + y + z == whole
    ensures (x + multiset{v}) + y + z == whole + multiset{v}
    ensures x + (y + multiset{v}) + z == whole + multiset{v}
    ensures x + y + (z + multiset{v}) == whole + multiset{v}
  {
  }

  /** `LongSummaryStatistics` without the average: how many values, their
      sum, and the smallest and largest (`Long.MAX_VALUE` and `Long.MIN_VALUE`
      when there is none). */
  datatype Statistics = Statistics(count: int, sum: int, min: int, max: int)

  function Sum(ms: seq<DeviceSignalMetrics>): int
  {
    if ms == [] then 0 else Sum(ms[..|ms| - 1]) + ms[|ms| - 1].count
  }

  /** `summarizingLong(DeviceSignalMetrics::getCount)`: `accept` on each count
      in turn. */
  function Summarize(ms: seq<DeviceSignalMetrics>): (r: Statistics)
    ensures r.count == |ms| && r.sum == Sum(ms)
    ensures ms == [] ==> r.min == LONG_MAX && r.max == LONG_MIN
    ensures forall i :: 0 <= i < |ms| && ms[i].count <= LONG_MAX ==> r.min <= ms[i].count
    ensures forall i :: 0 <= i < |ms| && ms[i].count >= LONG_MIN ==> ms[i].count <= r.max
    ensures ms != [] && r.min != LONG_MAX ==> exists i :: 0 <= i < |ms| && ms[i].count == r.min
    ensures ms != [] && r.max != LONG_MIN ==> exists i :: 0 <= i < |ms| && ms[i].count == r.max
  {
    if ms == [] then Statistics(0, 0, LONG_MAX, LONG_MIN)
    else
      var s := Summarize(ms[..|ms| - 1]);
      var v := ms[|ms| - 1].count;
      assert forall i :: 0 <= i < |ms| - 1 ==> ms[..|ms| - 1][i] == ms[i];
      Statistics(s.count + 1, s.sum + v, if v < s.min then v else s.min, if v > s.max then v else s.max)
  }

  /** `GroupSignalMetrics` without the request echo. */
  datatype GroupMetrics = GroupMetrics(
    alarmStatistics: Statistics,
    eventStatistics: Statistics,
    measurementStatistics: Statistics,
    deviceSignalMetrics: seq<DeviceSignalMetrics>)

  /** `collectSignalMetrics` after the device metrics are collected. */
  function GroupOf(ms: seq<DeviceSignalMetrics>): (r: GroupMetrics)
    ensures r.deviceSignalMetrics == ms
  {
    GroupMetrics(Summarize(OfType(ms, ALARM)), Summarize(OfType(ms, EVENT)), Summarize(OfType(ms, MEASUREMENT)), ms)
  }

  /** The three per-type counts add up to the number of metrics, and the
      per-type sums to the total count. */
  lemma GroupCountsAddUp(ms: seq<DeviceSignalMetrics>)
    ensures var g := GroupOf(ms);
      && g.alarmStatistics.count + g.eventStatistics.count + g.measurementStatistics.count == |ms|
      && g.alarmStatistics.sum + g.eventStatistics.sum + g.measurementStatistics.sum == Sum(ms)
  {
    TypesPartition(ms);
    var a, e, m := OfType(ms, ALARM), OfType(ms, EVENT), OfType(ms, MEASUREMENT);
    assert |multiset(a) + multiset(e) + multiset(m)| == |multiset(ms)|;
    SumSplit(ms);
  }

  lemma {:induction false} SumSplit(ms: seq<DeviceSignalMetrics>)
    decreases |ms|
    ensures Sum(OfType(ms, ALARM)) + Sum(OfType(ms, EVENT)) + Sum(OfType(ms, MEASUREMENT)) == Sum(ms)
  {
    if ms != [] {
      var init := ms[..|ms| - 1];
      var last := ms[|ms| - 1];
      SumSplit(init);
      forall t: SignalType
        ensures Sum(OfType(ms, t)) == Sum(OfType(init, t)) + (if last.signalType == t then last.count else 0)
      {
        SumAppend(OfType(init, t), if last.signalType == t then [last] else []);
      }
    }
  }

  lemma {:induction false} SumAppend(a: seq<DeviceSignalMetrics>, b: seq<DeviceSignalMetrics>)
    decreases |b|
    ensures Sum(a + b) == Sum(a) + Sum(b)
  {
    if b == [] {
      assert a + b == a;
    } else {
      assert (a + b)[..|a + b| - 1] == a + b[..|b| - 1];
      assert (a + b)[|a + b| - 1] == b[|b| - 1];
      SumAppend(a, b[..|b| - 1]);
    }
  }
}
