/** Aggregation of structural sensor readings: per-sensor grouping, the
    sensors that ever exceed the stress threshold, the sorted distinct
    timestamps, and the most recent reading of every sensor. */
module SensorReadings {
  import LexOrder

  /** Stress above this value (strictly) marks a sensor as highly stressed. */
  const StressThreshold: real := 13.0

  /** A reading without its sensor id: (timestamp, temperature, stress,
      displacement). Temperature and displacement are carried, never used. */
  datatype Sample = Sample(timestamp: string, temperature: real, stress: real, displacement: real)

  /** One input tuple (sensor_id, timestamp, temperature, stress, displacement). */
  datatype Reading = Reading(sensorId: string, sample: Sample)

  function Last<T>(s: seq<T>): T
    requires s != []
  {
    s[|s| - 1]
  }

  function Init<T>(s: seq<T>): seq<T>
    requires s != []
  {
    s[..|s| - 1]
  }

  lemma TakeSnoc<T>(s: seq<T>, i: nat)
    requires i < |s|
    ensures s[..i + 1] == s[..i] + [s[i]]
    ensures Init(s[..i + 1]) == s[..i]
  {
  }

  /** The ids of the sensors that occur in `data`. */
  function SensorIds(data: seq<Reading>): set<string> {
    set r | r in data :: r.sensorId
  }

  lemma SensorIdsSnoc(data: seq<Reading>, r: Reading)
    ensures SensorIds(data + [r]) == SensorIds(data) + {r.sensorId}
  {
    assert forall x :: x in data + [r] <==> x in data || x == r;
  }

  // ---------------------------------------------------------------------
  // Grouping by sensor.
  // ---------------------------------------------------------------------

  /** The samples of sensor `id`, in input order. */
  function SamplesOf(data: seq<Reading>, id: string): seq<Sample>
    decreases |data|
  {
    if data == [] then []
    else SamplesOf(Init(data), id) + (if Last(data).sensorId == id then [Last(data).sample] else [])
  }

  /** The grouping as a value: each sensor that occurs, mapped to its samples. */
  function Groups(data: seq<Reading>): map<string, seq<Sample>> {
    map id | id in SensorIds(data) :: SamplesOf(data, id)
  }

  lemma {:induction false} SamplesOfAbsent(data: seq<Reading>, id: string)
    requires id !in SensorIds(data)
    ensures SamplesOf(data, id) == []
    decreases |data|
  {
    if data != [] {
      assert Last(data) in data;
      assert forall x :: x in Init(data) ==> x in data;
      SamplesOfAbsent(Init(data), id);
    }
  }

  /** The grouping loop: each reading's sample is appended to the list of its
      sensor, a missing sensor starting with an empty list. */
  method GroupBySensor(data: seq<Reading>) returns (groups: map<string, seq<Sample>>)
    ensures groups == Groups(data)
  {
    groups := map[];
    for i := 0 to |data|
      invariant groups == Groups(data[..i])
    {
      var r := data[i];
      assert data[..i + 1] == data[..i] + [r];
      GroupsSnoc(data[..i], r);
      var current := if r.sensorId in groups then groups[r.sensorId] else [];
      if r.sensorId !in groups {
        SamplesOfAbsent(data[..i], r.sensorId);
      }
      groups := groups[r.sensorId := current + [r.sample]];
    }
    assert data[..|data|] == data;
  }

  /** Every reading's sample is in its own sensor's group, at the position
      given by the number of earlier readings of that sensor. */
  lemma ReadingInItsGroup(data: seq<Reading>, i: nat)
    requires i < |data|
    ensures var g := SamplesOf(data, data[i].sensorId);
      && |SamplesOf(data[..i], data[i].sensorId)| < |g|
      && g[|SamplesOf(data[..i], data[i].sensorId)|] == data[i].sample
    ensures data[i].sample in SamplesOf(data, data[i].sensorId)
  {
    var id := data[i].sensorId;
    var pre := data[..i];
    assert data == (pre + [data[i]]) + data[i + 1..];
    SamplesOfConcat(pre + [data[i]], data[i + 1..], id);
    SamplesOfSnoc(pre, data[i], id);
  }

  /** The samples of a concatenation are those of each part, in order. */
  lemma {:induction false} SamplesOfConcat(a: seq<Reading>, b: seq<Reading>, id: string)
    ensures SamplesOf(a + b, id) == SamplesOf(a, id) + SamplesOf(b, id)
    decreases |b|
  {
    if b == [] {
      assert a + b == a;
    } else {
      var c := a + b;
      assert Init(c) == a + Init(b) && Last(c) == Last(b);
      SamplesOfConcat(a, Init(b), id);
    }
  }

  /** Appending a reading appends its sample to its sensor's group and
      leaves the other groups alone. */
  lemma GroupsSnoc(pre: seq<Reading>, r: Reading)
    ensures Groups(pre + [r]) == Groups(pre)[r.sensorId := SamplesOf(pre, r.sensorId) + [r.sample]]
  {
    var id := r.sensorId;
    var g, g' := Groups(pre), Groups(pre + [r]);
    var expected := g[id := SamplesOf(pre, id) + [r.sample]];
    SensorIdsSnoc(pre, r);
    assert g'.Keys == expected.Keys;
    forall x | x in g'
      ensures g'[x] == expected[x]
    {
      SamplesOfSnoc(pre, r, x);
    }
  }

  lemma SamplesOfSnoc(pre: seq<Reading>, r: Reading, id: string)
    ensures SamplesOf(pre + [r], id) == SamplesOf(pre, id) + (if r.sensorId == id then [r.sample] else [])
  {
    var data := pre + [r];
    assert Init(data) == pre && Last(data) == r;
  }

  /** The group sizes of `Groups(data)` add up to the number of readings. */
  lemma {:induction false} GroupSizesSum(data: seq<Reading>)
    ensures TotalSize(Groups(data)) == |data|
    decreases |data|
  {
    if data == [] {
      assert Groups(data) == map[];
    } else {
      var r, pre := Last(data), Init(data);
      assert data == pre + [r];
      GroupSizesSum(pre);
      GroupsSnoc(pre, r);
      var m, id := Groups(pre), r.sensorId;
      TotalSizeUpdate(m, id, SamplesOf(pre, id) + [r.sample]);
      if id !in m {
        SamplesOfAbsent(pre, id);
      }
    }
  }

  /** Replacing or adding one list changes the total by the difference. */
  lemma TotalSizeUpdate(m: map<string, seq<Sample>>, k: string, v: seq<Sample>)
    ensures TotalSize(m[k := v]) == TotalSize(m) - (if k in m then |m[k]| else 0) + |v|
  {
    var m' := m[k := v];
    TotalSizeRemove(m', k);
    assert m' - {k} == m - {k};
    if k in m {
      TotalSizeRemove(m, k);
    } else {
      assert m - {k} == m;
    }
  }

  /** Sum of the lengths of the lists in a map. */
  ghost function TotalSize(m: map<string, seq<Sample>>): nat
    decreases |m|
  {
    if m == map[] then 0
    else
      var k :| k in m;
      |m[k]| + TotalSize(m - {k})
  }

  lemma {:induction false} TotalSizeRemove(m: map<string, seq<Sample>>, k: string)
    requires k in m
    ensures TotalSize(m) == |m[k]| + TotalSize(m - {k})
    decreases |m|
  {
    var k' :| k' in m && TotalSize(m) == |m[k']| + TotalSize(m - {k'});
    if k' != k {
      assert |m - {k'}| < |m| by {
        assert m.Keys - {k'} < m.Keys;
      }
      TotalSizeRemove(m - {k'}, k);
      TotalSizeRemove(m - {k}, k');
      assert m - {k'} - {k} == m - {k} - {k'};
    }
  }

  // ---------------------------------------------------------------------
  // Highly stressed sensors.
  // ---------------------------------------------------------------------

  /** The sensors with at least one reading of stress strictly above the
      threshold. */
  function HighStressSensors(data: seq<Reading>): (r: set<string>)
    ensures r <= SensorIds(data)
    ensures forall id :: id in r <==>
              exists i :: 0 <= i < |data| && data[i].sensorId == id && data[i].sample.stress > StressThreshold
  {
    set x | x in data && x.sample.stress > StressThreshold :: x.sensorId
  }

  // ---------------------------------------------------------------------
  // Sorted distinct timestamps.
  // ---------------------------------------------------------------------

  function Timestamps(data: seq<Reading>): set<string> {
    set r | r in data :: r.sample.timestamp
  }

  ghost predicate StrictlyIncreasing(s: seq<string>) {
    forall i, j :: 0 <= i < j < |s| ==> LexOrder.Less(s[i], s[j])
  }

  /** `s` with `t` put in its place; `s` unchanged if it holds `t` already. */
  function InsertSorted(s: seq<string>, t: string): (r: seq<string>)
    requires StrictlyIncreasing(s)
    ensures StrictlyIncreasing(r)
    ensures forall x :: x in r <==> x in s || x == t
    decreases |s|
  {
    if s == [] then [t]
    else if t == s[0] then s
    else if LexOrder.Less(t, s[0]) then
      LessThanHeadIsLeast(s, t);
      [t] + s
    else
      LexOrder.NotLessIsLessEq(t, s[0]);
      var rest := InsertSorted(s[1..], t);
      assert forall x :: x in rest ==> LexOrder.Less(s[0], x);
      [s[0]] + rest
  }

  lemma LessThanHeadIsLeast(s: seq<string>, t: string)
    requires StrictlyIncreasing(s) && s != [] && LexOrder.Less(t, s[0])
    ensures StrictlyIncreasing([t] + s)
  {
    forall i | 0 <= i < |s|
      ensures LexOrder.Less(t, s[i])
    {
      if i > 0 {
        LexOrder.Transitive(t, s[0], s[i]);
      }
    }
  }

  /** `sorted(set of timestamps)`: the distinct timestamps in ascending order. */
  function SortedTimestamps(data: seq<Reading>): (r: seq<string>)
    ensures StrictlyIncreasing(r)
    ensures forall t :: t in r <==> t in Timestamps(data)
    decreases |data|
  {
    if data == [] then []
    else
      var r := InsertSorted(SortedTimestamps(Init(data)), Last(data).sample.timestamp);
      assert data == Init(data) + [Last(data)];
      assert forall x :: x in data <==> x in Init(data) || x == Last(data);
      r
  }

  /** Two strictly increasing sequences with the same elements are equal, so
      `SortedTimestamps` is the one sorted list of the timestamp set. */
  lemma {:induction false} StrictlyIncreasingUnique(s: seq<string>, t: seq<string>)
    requires StrictlyIncreasing(s) && StrictlyIncreasing(t)
    requires forall x :: x in s <==> x in t
    ensures s == t
    decreases |s|
  {
    if s != [] {
      assert s[0] in t;
    }
    if t != [] {
      assert t[0] in s;
    }
    if s != [] && t != [] {
      var i :| 0 <= i < |t| && t[i] == s[0];
      var j :| 0 <= j < |s| && s[j] == t[0];
      if i > 0 && j > 0 {
        LexOrder.Asymmetric(t[0], s[0]);
      } else if i > 0 {
        LexOrder.Irreflexive(t[0]);
      } else if j > 0 {
        LexOrder.Irreflexive(s[0]);
      }
      assert s[0] == t[0];
      forall x
        ensures x in s[1..] ==> x in t[1..]
        ensures x in t[1..] ==> x in s[1..]
      {
        if x in s[1..] {
          var a :| 1 <= a < |s| && s[a] == x;
          assert s[1..][a - 1] == x;
          LexOrder.Irreflexive(x);
          assert x in t;
          var b :| 0 <= b < |t| && t[b] == x;
          assert b != 0;
          assert t[1..][b - 1] == x;
        }
        if x in t[1..] {
          var b :| 1 <= b < |t| && t[b] == x;
          assert t[1..][b - 1] == x;
          LexOrder.Irreflexive(x);
          assert x in s;
          var a :| 0 <= a < |s| && s[a] == x;
          assert a != 0;
          assert s[1..][a - 1] == x;
        }
      }
      StrictlyIncreasingUnique(s[1..], t[1..]);
      assert s == [s[0]] + s[1..] && t == [t[0]] + t[1..];
    }
  }

  lemma {:induction false} DistinctCardinality(s: seq<string>)
    requires forall i, j :: 0 <= i < j < |s| ==> s[i] != s[j]
    ensures |set x | x in s| == |s|
    decreases |s|
  {
    if s != [] {
      DistinctCardinality(Init(s));
      assert (set x | x in s) == (set x | x in Init(s)) + {Last(s)};
      assert Last(s) !in (set x | x in Init(s));
    }
  }

  /** The sorted timestamps list each distinct timestamp exactly once. */
  lemma SortedTimestampsCount(data: seq<Reading>)
    ensures |SortedTimestamps(data)| == |Timestamps(data)|
  {
    var r := SortedTimestamps(data);
    forall i, j | 0 <= i < j < |r|
      ensures r[i] != r[j]
    {
      LexOrder.Irreflexive(r[i]);
    }
    DistinctCardinality(r);
    assert (set x | x in r) == Timestamps(data);
  }

  // ---------------------------------------------------------------------
  // Most recent reading per sensor.
  // ---------------------------------------------------------------------

  /** Among the first `n` readings, reading `w` is the most recent of sensor
      `id`: no reading of `id` is later than it, and every earlier reading
      of `id` is strictly earlier (the first reading of the latest time wins). */
  ghost predicate LatestAt(data: seq<Reading>, n: nat, id: string, w: nat)
    requires n <= |data|
  {
    && w < n
    && data[w].sensorId == id
    && (forall j :: 0 <= j < n && data[j].sensorId == id ==>
          LexOrder.LessEq(data[j].sample.timestamp, data[w].sample.timestamp))
    && (forall j :: 0 <= j < w && data[j].sensorId == id ==>
          LexOrder.Less(data[j].sample.timestamp, data[w].sample.timestamp))
  }

  /** Sensor `x` has a reading in `data` before any reading of sensor `y`. */
  ghost predicate AppearsBefore(data: seq<Reading>, x: string, y: string) {
    exists a :: 0 <= a < |data| && data[a].sensorId == x &&
      forall b :: 0 <= b <= a ==> data[b].sensorId != y
  }

  /** The sensor ids in order of first appearance (the key order of a Python
      dict filled in input order). */
  function FirstAppearance(data: seq<Reading>): (r: seq<string>)
    ensures forall x :: x in r <==> x in SensorIds(data)
    ensures forall i, j :: 0 <= i < j < |r| ==> r[i] != r[j]
    decreases |data|
  {
    if data == [] then []
    else
      var pre := FirstAppearance(Init(data));
      SensorIdsSnoc(Init(data), Last(data));
      assert data == Init(data) + [Last(data)];
      if Last(data).sensorId in pre then pre else pre + [Last(data).sensorId]
  }

  /** The keys are in order of first appearance: of any two, the earlier one
      has a reading before the later one's first reading. */
  lemma {:induction false} FirstAppearanceOrder(data: seq<Reading>)
    ensures forall i, j :: 0 <= i < j < |FirstAppearance(data)| ==>
              AppearsBefore(data, FirstAppearance(data)[i], FirstAppearance(data)[j])
    decreases |data|
  {
    if data != [] {
      FirstAppearanceOrder(Init(data));
      SensorIdsSnoc(Init(data), Last(data));
      assert data == Init(data) + [Last(data)];
      FirstAppearanceStep(Init(data), Last(data), FirstAppearance(Init(data)));
    }
  }

  /** One more reading keeps the order of the ids seen so far, and a new id
      goes after all of them. */
  lemma FirstAppearanceStep(pre: seq<Reading>, r: Reading, order: seq<string>)
    requires forall x :: x in order ==> x in SensorIds(pre)
    requires forall i, j :: 0 <= i < j < |order| ==> AppearsBefore(pre, order[i], order[j])
    ensures forall i, j :: 0 <= i < j < |order| ==> AppearsBefore(pre + [r], order[i], order[j])
    ensures r.sensorId !in SensorIds(pre) ==>
              forall i, j :: 0 <= i < j < |order| + 1 ==> AppearsBefore(pre + [r], (order + [r.sensorId])[i], (order + [r.sensorId])[j])
  {
    forall x, y | AppearsBefore(pre, x, y)
      ensures AppearsBefore(pre + [r], x, y)
    {
      AppearsBeforeSnoc(pre, r, x, y);
    }
    if r.sensorId !in SensorIds(pre) {
      var order' := order + [r.sensorId];
      forall i, j | 0 <= i < j < |order'|
        ensures AppearsBefore(pre + [r], order'[i], order'[j])
      {
        if j == |order| {
          assert order'[i] == order[i] && order'[j] == r.sensorId;
          AppearsBeforeNew(pre, r, order[i]);
        } else {
          assert order'[i] == order[i] && order'[j] == order[j];
        }
      }
    }
  }

  lemma AppearsBeforeSnoc(pre: seq<Reading>, r: Reading, x: string, y: string)
    requires AppearsBefore(pre, x, y)
    ensures AppearsBefore(pre + [r], x, y)
  {
    var a :| 0 <= a < |pre| && pre[a].sensorId == x && forall b :: 0 <= b <= a ==> pre[b].sensorId != y;
    assert (pre + [r])[a] == pre[a];
    assert forall b :: 0 <= b <= a ==> (pre + [r])[b] == pre[b];
  }

  /** A sensor already seen appears before one that first shows up now. */
  lemma AppearsBeforeNew(pre: seq<Reading>, r: Reading, x: string)
    requires x in SensorIds(pre) && r.sensorId !in SensorIds(pre)
    ensures AppearsBefore(pre + [r], x, r.sensorId)
  {
    var w :| w in pre && w.sensorId == x;
    var a :| 0 <= a < |pre| && pre[a] == w;
    forall b | 0 <= b <= a
      ensures (pre + [r])[b].sensorId != r.sensorId
    {
      assert (pre + [r])[b] == pre[b] && pre[b] in pre;
    }
    assert (pre + [r])[a].sensorId == x;
  }

  /** The selection loop: a reading replaces the stored one of its sensor when
      the sensor has none yet or its timestamp is strictly greater. `order`
      is the dict's key order. */
  method LatestReadings(data: seq<Reading>) returns (latest: map<string, Sample>, order: seq<string>)
    ensures latest.Keys == SensorIds(data)
    ensures order == FirstAppearance(data)
    ensures forall id :: id in latest ==>
              exists w :: 0 <= w < |data| && LatestAt(data, |data|, id, w) && latest[id] == data[w].sample
  {
    latest, order := map[], [];
    ghost var at: map<string, nat> := map[];
    for i := 0 to |data|
      invariant order == FirstAppearance(data[..i])
      invariant LatestSoFar(data, i, latest, at)
    {
      latest, order, at := Select(data, i, latest, order, at);
    }
    assert data[..|data|] == data;
    forall id | id in latest
      ensures exists w :: 0 <= w < |data| && LatestAt(data, |data|, id, w) && latest[id] == data[w].sample
    {
      assert LatestAt(data, |data|, id, at[id]);
    }
  }

  /** One iteration of the selection loop, on reading `i`. */
  method Select(data: seq<Reading>, i: nat, latest: map<string, Sample>, order: seq<string>, ghost at: map<string, nat>)
    returns (latest': map<string, Sample>, order': seq<string>, ghost at': map<string, nat>)
    requires i < |data|
    requires order == FirstAppearance(data[..i])
    requires LatestSoFar(data, i, latest, at)
    ensures order' == FirstAppearance(data[..i + 1])
    ensures LatestSoFar(data, i + 1, latest', at')
  {
    var r := data[i];
    var sid, ts := r.sensorId, r.sample.timestamp;
    TakeSnoc(data, i);
    latest', order', at' := latest, order, at;
    if sid !in latest || LexOrder.Less(latest[sid].timestamp, ts) {
      if sid !in latest {
        order' := order + [sid];
      }
      latest' := latest[sid := r.sample];
      at' := at[sid := i];
    }
    LatestSoFarStep(data, i, latest, at);
  }

  /** The state of the selection loop after the first `n` readings: `at`
      records, per sensor seen so far, which reading `latest` holds. */
  ghost predicate LatestSoFar(data: seq<Reading>, n: nat, latest: map<string, Sample>, at: map<string, nat>)
    requires n <= |data|
  {
    && latest.Keys == at.Keys == SensorIds(data[..n])
    && forall id :: id in latest ==> LatestAt(data, n, id, at[id]) && latest[id] == data[at[id]].sample
  }

  /** One iteration of the selection loop keeps `LatestSoFar`. */
  lemma LatestSoFarStep(data: seq<Reading>, n: nat, latest: map<string, Sample>, at: map<string, nat>)
    requires n < |data|
    requires LatestSoFar(data, n, latest, at)
    ensures var r := data[n];
      if r.sensorId !in latest || LexOrder.Less(latest[r.sensorId].timestamp, r.sample.timestamp)
      then LatestSoFar(data, n + 1, latest[r.sensorId := r.sample], at[r.sensorId := n])
      else LatestSoFar(data, n + 1, latest, at)
  {
    var r := data[n];
    var sid := r.sensorId;
    if sid !in latest {
      FirstOfSensor(data, n);
      ReplaceStep(data, n, latest, at);
    } else if LexOrder.Less(latest[sid].timestamp, r.sample.timestamp) {
      NewLatest(data, n, at[sid]);
      ReplaceStep(data, n, latest, at);
    } else {
      KeepLatest(data, n, at[sid]);
      KeepStep(data, n, latest, at);
    }
  }

  /** The `n`-th reading, once the latest of its sensor, is recorded. */
  lemma ReplaceStep(data: seq<Reading>, n: nat, latest: map<string, Sample>, at: map<string, nat>)
    requires n < |data|
    requires LatestSoFar(data, n, latest, at)
    requires LatestAt(data, n + 1, data[n].sensorId, n)
    ensures LatestSoFar(data, n + 1, latest[data[n].sensorId := data[n].sample], at[data[n].sensorId := n])
  {
    var sid := data[n].sensorId;
    TakeSnoc(data, n);
    SensorIdsSnoc(data[..n], data[n]);
    OthersKeepLatest(data, n, latest, at, latest[sid := data[n].sample], at[sid := n]);
  }

  /** The `n`-th reading, when not newer than the stored one, changes nothing. */
  lemma KeepStep(data: seq<Reading>, n: nat, latest: map<string, Sample>, at: map<string, nat>)
    requires n < |data|
    requires LatestSoFar(data, n, latest, at)
    requires data[n].sensorId in at && LatestAt(data, n + 1, data[n].sensorId, at[data[n].sensorId])
    ensures LatestSoFar(data, n + 1, latest, at)
  {
    TakeSnoc(data, n);
    SensorIdsSnoc(data[..n], data[n]);
    OthersKeepLatest(data, n, latest, at, latest, at);
  }

  /** The sensors other than the `n`-th reading's keep their entries. */
  lemma OthersKeepLatest(data: seq<Reading>, n: nat, latest: map<string, Sample>, at: map<string, nat>,
                         latest': map<string, Sample>, at': map<string, nat>)
    requires n < |data|
    requires LatestSoFar(data, n, latest, at)
    requires latest'.Keys == at'.Keys == latest.Keys + {data[n].sensorId}
    requires forall id :: id in latest && id != data[n].sensorId ==> latest'[id] == latest[id] && at'[id] == at[id]
    ensures forall id :: id in latest' && id != data[n].sensorId ==>
              LatestAt(data, n + 1, id, at'[id]) && latest'[id] == data[at'[id]].sample
  {
    forall id | id in latest' && id != data[n].sensorId
      ensures LatestAt(data, n + 1, id, at'[id]) && latest'[id] == data[at'[id]].sample
    {
      OtherSensorKeepsLatest(data, n, id, at[id]);
    }
  }

  lemma OtherSensorKeepsLatest(data: seq<Reading>, n: nat, id: string, w: nat)
    requires n < |data|
    requires LatestAt(data, n, id, w) && data[n].sensorId != id
    ensures LatestAt(data, n + 1, id, w)
  {
  }

  lemma FirstOfSensor(data: seq<Reading>, n: nat)
    requires n < |data|
    requires data[n].sensorId !in SensorIds(data[..n])
    ensures LatestAt(data, n + 1, data[n].sensorId, n)
  {
    forall j | 0 <= j < n
      ensures data[j].sensorId != data[n].sensorId
    {
      assert data[j] in data[..n];
    }
  }

  lemma NewLatest(data: seq<Reading>, n: nat, w: nat)
    requires n < |data|
    requires LatestAt(data, n, data[n].sensorId, w)
    requires LexOrder.Less(data[w].sample.timestamp, data[n].sample.timestamp)
    ensures LatestAt(data, n + 1, data[n].sensorId, n)
  {
    forall j | 0 <= j < n && data[j].sensorId == data[n].sensorId
      ensures LexOrder.Less(data[j].sample.timestamp, data[n].sample.timestamp)
    {
      LexOrder.LessEqLessTransitive(data[j].sample.timestamp, data[w].sample.timestamp, data[n].sample.timestamp);
    }
  }

  lemma KeepLatest(data: seq<Reading>, n: nat, w: nat)
    requires n < |data|
    requires LatestAt(data, n, data[n].sensorId, w)
    requires !LexOrder.Less(data[w].sample.timestamp, data[n].sample.timestamp)
    ensures LatestAt(data, n + 1, data[n].sensorId, w)
  {
    LexOrder.NotLessIsLessEq(data[w].sample.timestamp, data[n].sample.timestamp);
  }

  /** The reading `LatestReadings` keeps for a sensor is determined: at most
      one position satisfies `LatestAt`. */
  lemma LatestAtUnique(data: seq<Reading>, id: string, w1: nat, w2: nat)
    requires LatestAt(data, |data|, id, w1) && LatestAt(data, |data|, id, w2)
    ensures w1 == w2
  {
    if w1 < w2 {
      LexOrder.Asymmetric(data[w1].sample.timestamp, data[w2].sample.timestamp);
      LexOrder.Irreflexive(data[w1].sample.timestamp);
    } else if w2 < w1 {
      LexOrder.Asymmetric(data[w2].sample.timestamp, data[w1].sample.timestamp);
      LexOrder.Irreflexive(data[w2].sample.timestamp);
    }
  }

  /** `tuple(latest_readings.values())`: the stored samples in key order. */
  function MostRecentTuple(latest: map<string, Sample>, order: seq<string>): (r: seq<Sample>)
    requires forall k :: k in order ==> k in latest
    ensures |r| == |order|
    ensures forall i :: 0 <= i < |order| ==> r[i] == latest[order[i]]
  {
    seq(|order|, i requires 0 <= i < |order| => latest[order[i]])
  }

  /** `x` is the sample of the latest reading of sensor `id` in `data`. */
  ghost predicate IsLatestSample(data: seq<Reading>, id: string, x: Sample) {
    exists w :: 0 <= w < |data| && LatestAt(data, |data|, id, w) && x == data[w].sample
  }

  /** The tuple built from the result of `LatestReadings` has one entry per
      distinct sensor, and its `i`-th entry is the sample of the latest
      reading of the `i`-th sensor to appear. */
  lemma MostRecentTupleOfData(data: seq<Reading>, latest: map<string, Sample>, order: seq<string>)
    requires latest.Keys == SensorIds(data)
    requires order == FirstAppearance(data)
    requires forall id :: id in latest ==>
               exists w :: 0 <= w < |data| && LatestAt(data, |data|, id, w) && latest[id] == data[w].sample
    ensures |MostRecentTuple(latest, order)| == |SensorIds(data)|
    ensures forall i :: 0 <= i < |order| ==> IsLatestSample(data, order[i], MostRecentTuple(latest, order)[i])
  {
    FirstAppearanceCount(data);
    TupleEntriesAreLatest(data, latest, order);
  }

  /** The key order lists each distinct sensor exactly once. */
  lemma FirstAppearanceCount(data: seq<Reading>)
    ensures |FirstAppearance(data)| == |SensorIds(data)|
  {
    var order := FirstAppearance(data);
    DistinctCardinality(order);
    assert (set x | x in order) == SensorIds(data);
  }

  lemma TupleEntriesAreLatest(data: seq<Reading>, latest: map<string, Sample>, order: seq<string>)
    requires forall k :: k in order ==> k in latest
    requires forall id :: id in latest ==>
               exists w :: 0 <= w < |data| && LatestAt(data, |data|, id, w) && latest[id] == data[w].sample
    ensures forall i :: 0 <= i < |order| ==> IsLatestSample(data, order[i], MostRecentTuple(latest, order)[i])
  {
    var t := MostRecentTuple(latest, order);
    forall i | 0 <= i < |order|
      ensures IsLatestSample(data, order[i], t[i])
    {
      var id := order[i];
      assert id in latest;
      var w :| 0 <= w < |data| && LatestAt(data, |data|, id, w) && latest[id] == data[w].sample;
      assert t[i] == data[w].sample;
    }
  }

  /** Lines 39-45 together: `most_recent_tuple` lists, in first-appearance
      order, the sample of each sensor's latest reading. */
  method MostRecentReadings(data: seq<Reading>) returns (t: seq<Sample>)
    ensures |t| == |FirstAppearance(data)| == |SensorIds(data)|
    ensures forall i :: 0 <= i < |t| ==> IsLatestSample(data, FirstAppearance(data)[i], t[i])
  {
    var latest, order := LatestReadings(data);
    t := MostRecentTuple(latest, order);
    MostRecentTupleOfData(data, latest, order);
  }

  /** The sample readings: sensor S1 reaches exactly 13.0, which does not
      count, so only S2 is highly stressed. */
  lemma SampleHighStress()
    ensures HighStressSensors([
      Reading("S1", Sample("2025-04-28 10:00", 35.2, 12.1, 0.002)),
      Reading("S2", Sample("2025-04-28 10:00", 36.5, 14.0, 0.003)),
      Reading("S1", Sample("2025-04-28 11:00", 36.1, 12.5, 0.0021)),
      Reading("S3", Sample("2025-04-28 10:00", 34.0, 11.8, 0.0025)),
      Reading("S2", Sample("2025-04-28 11:00", 37.2, 14.3, 0.0031)),
      Reading("S1", Sample("2025-04-28 12:00", 37.0, 13.0, 0.0022))]) == {"S2"}
  {
  }
}
