/** The pure logic of the heatmap subscription: the age-based decay of a reading's
    weight, the query window, the age filter, and the per-location aggregation
    that keeps the most impactful reading for each building and room. */
module StorageService {

  import opened Outcomes
  import opened Transcendentals
  import RealFacts

  /** Hard cap on the query window, in hours. */
  const MAX_QUERY_WINDOW_HOURS: int := 6

  /** Level that maps to weight 1. */
  const FULL_SCALE_DB: real := 120.0

  datatype HeatmapConfig = HeatmapConfig(
    timeWindowMinutes: real,
    decayStartMinutes: real,
    decayRate: real,
    minWeightFactor: real)

  datatype DecayedReading = DecayedReading(
    latitude: real,
    longitude: real,
    decibel: real,
    decayedWeight: real,
    ageMinutes: real,
    building: string,
    room: string)

  /** A stored document as the snapshot delivers it; the timestamp may be missing. */
  datatype StoredReading = StoredReading(
    timestampMs: Option<real>,
    decibel: real,
    latitude: real,
    longitude: real,
    building: string,
    room: string)

  // ---------------------------------------------------------------------------
  // Decay

  /** `min(decibel / 120, 1)`. */
  function BaseWeight(decibel: real): (w: real)
    ensures w <= 1.0
    ensures w == 1.0 <==> FULL_SCALE_DB <= decibel
    ensures 0.0 <= decibel ==> 0.0 <= w
    ensures decibel < FULL_SCALE_DB ==> w * FULL_SCALE_DB == decibel
  {
    if decibel / FULL_SCALE_DB <= 1.0 then decibel / FULL_SCALE_DB else 1.0
  }

  /** How far through the decay period a reading is, capped at 1. A zero-length
      period divides a positive age by 0, which is +Infinity in JavaScript, and
      the cap turns it into 1. */
  function DecayProgress(ageMinutes: real, config: HeatmapConfig): (p: real)
    requires config.decayStartMinutes < ageMinutes
    ensures p <= 1.0
    ensures config.decayStartMinutes <= config.timeWindowMinutes ==> 0.0 < p
  {
    var period := config.timeWindowMinutes - config.decayStartMinutes;
    if period == 0.0 then 1.0
    else
      var raw := (ageMinutes - config.decayStartMinutes) / period;
      if raw <= 1.0 then raw else 1.0
  }

  /** `calculateDecayedWeight`: the base weight for a fresh reading, else the base
      weight times `exp(-rate * progress)`, floored at `minWeightFactor` of it. */
  function CalculateDecayedWeight(exp: real -> real, decibel: real, ageMinutes: real, config: HeatmapConfig): (w: real)
    ensures ageMinutes <= config.decayStartMinutes ==> w == BaseWeight(decibel)
    ensures config.decayStartMinutes < ageMinutes ==> config.minWeightFactor * BaseWeight(decibel) <= w
    ensures config.decayStartMinutes < ageMinutes ==> BaseWeight(decibel) * DecayFactor(exp, ageMinutes, config) <= w
    ensures config.decayStartMinutes < ageMinutes ==>
      w == BaseWeight(decibel) * DecayFactor(exp, ageMinutes, config) || w == config.minWeightFactor * BaseWeight(decibel)
  {
    var base := BaseWeight(decibel);
    if ageMinutes <= config.decayStartMinutes then base
    else
      var decayed := base * DecayFactor(exp, ageMinutes, config);
      var floor := config.minWeightFactor * base;
      if decayed >= floor then decayed else floor
  }

  /** `Math.exp(-decayRate * decayProgress)`: positive under the exponential laws. */
  function DecayFactor(exp: real -> real, ageMinutes: real, config: HeatmapConfig): (f: real)
    requires config.decayStartMinutes < ageMinutes
    ensures ExpLaws(exp) ==> 0.0 < f
  {
    exp(-config.decayRate * DecayProgress(ageMinutes, config))
  }

  /** The weight of a reading never exceeds 1 when the floor factor is at most 1. */
  lemma WeightAtMostOne(exp: real -> real, decibel: real, ageMinutes: real, config: HeatmapConfig)
    requires ExpLaws(exp)
    requires 0.0 <= decibel && 0.0 <= config.decayRate && config.minWeightFactor <= 1.0
    requires config.decayStartMinutes <= config.timeWindowMinutes
    ensures CalculateDecayedWeight(exp, decibel, ageMinutes, config) <= 1.0
  {
    WeightAtMostBase(exp, decibel, ageMinutes, config);
  }

  /** Because the progress is capped at 1, the decay factor never drops below
      `exp(-decayRate)`. */
  lemma DecayFactorFloor(exp: real -> real, ageMinutes: real, config: HeatmapConfig)
    requires ExpLaws(exp) && 0.0 <= config.decayRate
    requires config.decayStartMinutes < ageMinutes
    ensures exp(-config.decayRate) <= DecayFactor(exp, ageMinutes, config)
  {
    var p := DecayProgress(ageMinutes, config);
    RealFacts.ProductMonotone(p, 1.0, config.decayRate);
    assert -config.decayRate <= -config.decayRate * p;
    assert exp(-config.decayRate) <= exp(-config.decayRate * p);
  }

  /** With a non-negative rate, a floor factor of at most 1 and a decay period that
      is not inverted, decay only ever lowers the weight. */
  lemma WeightAtMostBase(exp: real -> real, decibel: real, ageMinutes: real, config: HeatmapConfig)
    requires ExpLaws(exp)
    requires 0.0 <= decibel && 0.0 <= config.decayRate && config.minWeightFactor <= 1.0
    requires config.decayStartMinutes <= config.timeWindowMinutes
    ensures 0.0 <= CalculateDecayedWeight(exp, decibel, ageMinutes, config) <= BaseWeight(decibel)
  {
    var base := BaseWeight(decibel);
    if config.decayStartMinutes < ageMinutes {
      var f := DecayFactor(exp, ageMinutes, config);
      DecayFactorAtMostOne(exp, ageMinutes, config);
      var w := CalculateDecayedWeight(exp, decibel, ageMinutes, config);
      FlooredWeightWithinBase(base, f, config.minWeightFactor, w);
    }
  }

  /** The larger of `base * f` and `m * base` lies in [0, base] when the factor is in
      [0, 1] and the floor factor is at most 1. */
  lemma FlooredWeightWithinBase(base: real, f: real, m: real, w: real)
    requires 0.0 <= base && 0.0 <= f <= 1.0 && m <= 1.0
    requires base * f <= w && (w == base * f || w == m * base)
    ensures 0.0 <= w <= base
  {
    RealFacts.WeightedBound(f, base, 1.0);
    RealFacts.ProductMonotone(m, 1.0, base);
  }

  /** Without an inverted period, a non-negative rate gives a factor in (0, 1]. */
  lemma DecayFactorAtMostOne(exp: real -> real, ageMinutes: real, config: HeatmapConfig)
    requires ExpLaws(exp) && 0.0 <= config.decayRate
    requires config.decayStartMinutes < ageMinutes
    requires config.decayStartMinutes <= config.timeWindowMinutes
    ensures 0.0 < DecayFactor(exp, ageMinutes, config) <= 1.0
  {
    var p := DecayProgress(ageMinutes, config);
    RealFacts.NonNegativeProduct(config.decayRate, p);
    assert -config.decayRate * p <= 0.0;
    assert exp(-config.decayRate * p) <= exp(0.0);
  }

  /** An inverted decay period (the window shorter than the decay start) makes the
      progress negative, so the decay factor is at least 1 and decay can only raise
      the weight: the reason the bounds above require a period that is not inverted. */
  lemma {:induction false} InvertedPeriodRaisesFactor(exp: real -> real, ageMinutes: real, config: HeatmapConfig)
    requires ExpLaws(exp) && 0.0 <= config.decayRate
    requires config.timeWindowMinutes < config.decayStartMinutes < ageMinutes
    ensures DecayProgress(ageMinutes, config) < 0.0
    ensures 1.0 <= DecayFactor(exp, ageMinutes, config)
  {
    var period := config.timeWindowMinutes - config.decayStartMinutes;
    var elapsed := ageMinutes - config.decayStartMinutes;
    assert elapsed / period < 0.0 by {
      assert 0.0 < elapsed && period < 0.0;
      assert elapsed / period == -(elapsed / -period);
      RealFacts.PositiveProduct(elapsed, 1.0 / -period);
    }
    var p := DecayProgress(ageMinutes, config);
    assert -config.decayRate * p >= 0.0 by {
      RealFacts.NonNegativeProduct(config.decayRate, -p);
    }
    assert exp(0.0) <= exp(-config.decayRate * p);
  }

  // ---------------------------------------------------------------------------
  // Query window and age filter

  /** `min(timeWindowMinutes * 60 * 1000, 6 h)`, in milliseconds. */
  function QueryWindowMs(timeWindowMinutes: real): (ms: real)
    ensures ms <= (MAX_QUERY_WINDOW_HOURS * 60 * 60 * 1000) as real
    ensures ms == timeWindowMinutes * 60000.0 <==> timeWindowMinutes <= 360.0
    ensures 360.0 < timeWindowMinutes ==> ms == 21600000.0
  {
    var configured := timeWindowMinutes * 60.0 * 1000.0;
    var cap := (MAX_QUERY_WINDOW_HOURS * 60 * 60 * 1000) as real;
    if configured <= cap then configured else cap
  }

  function AgeMinutes(nowMs: real, timestampMs: real): real {
    (nowMs - timestampMs) / 60000.0
  }

  /** A document survives the subscription's filter when it has a timestamp and is
      no older than the configured window. */
  predicate Admits(nowMs: real, doc: StoredReading, config: HeatmapConfig) {
    doc.timestampMs.Some? && AgeMinutes(nowMs, doc.timestampMs.value) <= config.timeWindowMinutes
  }

  /** The reading pushed for one admitted document: its age in minutes, its weight
      for that age, and its level and location copied over. */
  function Decay(exp: real -> real, nowMs: real, doc: StoredReading, config: HeatmapConfig): (r: DecayedReading)
    requires doc.timestampMs.Some?
    ensures r.ageMinutes * 60000.0 == nowMs - doc.timestampMs.value
    ensures r.decayedWeight == CalculateDecayedWeight(exp, doc.decibel, r.ageMinutes, config)
    ensures r.decibel == doc.decibel && r.building == doc.building && r.room == doc.room
    ensures r.latitude == doc.latitude && r.longitude == doc.longitude
  {
    var age := AgeMinutes(nowMs, doc.timestampMs.value);
    DecayedReading(doc.latitude, doc.longitude, doc.decibel,
      CalculateDecayedWeight(exp, doc.decibel, age, config), age, doc.building, doc.room)
  }

  /** The snapshot handler's loop: drop untimestamped and stale documents and
      attach a decayed weight to the rest, in snapshot order. */
  function DecayReadings(exp: real -> real, nowMs: real, docs: seq<StoredReading>, config: HeatmapConfig)
    : (r: seq<DecayedReading>)
    ensures |r| <= |docs|
    ensures forall i :: 0 <= i < |r| ==> r[i].ageMinutes <= config.timeWindowMinutes
    ensures forall i :: 0 <= i < |r| ==>
      r[i].decayedWeight == CalculateDecayedWeight(exp, r[i].decibel, r[i].ageMinutes, config)
    decreases |docs|
  {
    if |docs| == 0 then []
    else
      var rest := DecayReadings(exp, nowMs, docs[..|docs| - 1], config);
      var last := docs[|docs| - 1];
      if Admits(nowMs, last, config) then rest + [Decay(exp, nowMs, last, config)] else rest
  }

  /** The filter keeps exactly the admitted documents: each admitted document's
      decayed form is in the output, and each output comes from one. */
  lemma {:induction false} DecayReadingsKeepsAdmitted(exp: real -> real, nowMs: real, docs: seq<StoredReading>, config: HeatmapConfig)
    ensures var r := DecayReadings(exp, nowMs, docs, config);
      forall j :: 0 <= j < |docs| && Admits(nowMs, docs[j], config) ==> Decay(exp, nowMs, docs[j], config) in r
    ensures var r := DecayReadings(exp, nowMs, docs, config);
      forall i :: 0 <= i < |r| ==>
        exists j :: 0 <= j < |docs| && Admits(nowMs, docs[j], config) && r[i] == Decay(exp, nowMs, docs[j], config)
    decreases |docs|
  {
    if |docs| > 0 {
      var init := docs[..|docs| - 1];
      DecayReadingsKeepsAdmitted(exp, nowMs, init, config);
      assert forall j :: 0 <= j < |init| ==> init[j] == docs[j];
    }
  }

  /** The positions of the admitted documents in the snapshot, in ascending order:
      a reference for the order in which the snapshot handler pushes readings. */
  function AdmittedIndices(nowMs: real, docs: seq<StoredReading>, config: HeatmapConfig): (idx: seq<nat>)
    ensures forall i :: 0 <= i < |idx| ==> idx[i] < |docs| && Admits(nowMs, docs[idx[i]], config)
    ensures forall i, k :: 0 <= i < k < |idx| ==> idx[i] < idx[k]
    ensures forall j :: 0 <= j < |docs| && Admits(nowMs, docs[j], config) ==> j in idx
    decreases |docs|
  {
    if |docs| == 0 then []
    else
      var init := docs[..|docs| - 1];
      var rest := AdmittedIndices(nowMs, init, config);
      assert forall j :: 0 <= j < |init| ==> init[j] == docs[j];
      if Admits(nowMs, docs[|docs| - 1], config) then rest + [|docs| - 1] else rest
  }

  /** The filter keeps the admitted documents in snapshot order: output i is the
      decayed form of the i-th admitted document, so the first-heaviest choice and
      the first-appearance order of the aggregation below refer to snapshot order. */
  lemma {:induction false} DecayReadingsFollowsSnapshotOrder(exp: real -> real, nowMs: real, docs: seq<StoredReading>, config: HeatmapConfig)
    ensures var idx := AdmittedIndices(nowMs, docs, config);
      var r := DecayReadings(exp, nowMs, docs, config);
      && |r| == |idx|
      && forall i :: 0 <= i < |r| ==> r[i] == Decay(exp, nowMs, docs[idx[i]], config)
    decreases |docs|
  {
    if |docs| > 0 {
      var init := docs[..|docs| - 1];
      DecayReadingsFollowsSnapshotOrder(exp, nowMs, init, config);
      assert forall j :: 0 <= j < |init| ==> init[j] == docs[j];
    }
  }

  // ---------------------------------------------------------------------------
  // Aggregation by location

  /** `${building}:${room}` */
  function LocationKey(building: string, room: string): string {
    building + ":" + room
  }

  /** The key is the building, one ':', then the room. */
  lemma LocationKeyLayout(building: string, room: string)
    ensures var k := LocationKey(building, room);
      && |k| == |building| + 1 + |room|
      && k[..|building|] == building && k[|building|] == ':' && k[|building| + 1..] == room
  {
  }

  function Key(r: DecayedReading): string {
    LocationKey(r.building, r.room)
  }

  /** The index of the first ':' in `s`, or `|s|` when there is none. */
  function FirstColon(s: string): (i: nat)
    ensures i <= |s|
  {
    if |s| == 0 || s[0] == ':' then 0 else 1 + FirstColon(s[1..])
  }

  /** In the key of a building without a colon, the first colon is the separator. */
  lemma {:induction false} ColonFollowsBuilding(b: string, r: string)
    requires ':' !in b
    ensures FirstColon(LocationKey(b, r)) == |b|
  {
    if |b| > 0 {
      assert LocationKey(b, r)[1..] == LocationKey(b[1..], r);
      ColonFollowsBuilding(b[1..], r);
    }
  }

  /** Two buildings without a colon give the same key only for the same building
      and room. */
  lemma LocationKeyInjective(b1: string, r1: string, b2: string, r2: string)
    requires ':' !in b1 && ':' !in b2
    requires LocationKey(b1, r1) == LocationKey(b2, r2)
    ensures b1 == b2 && r1 == r2
  {
    var k := LocationKey(b1, r1);
    ColonFollowsBuilding(b1, r1);
    ColonFollowsBuilding(b2, r2);
    assert b1 == k[..|b1|] && b2 == LocationKey(b2, r2)[..|b2|];
    assert r1 == k[|b1| + 1..] && r2 == LocationKey(b2, r2)[|b2| + 1..];
  }

  /** A colon inside a name lets two different locations share a key, and the
      aggregation then merges them. */
  lemma ColonMergesLocations()
    ensures LocationKey("A:B", "C") == LocationKey("A", "B:C")
  {
  }

  function KeysOf(rs: seq<DecayedReading>): (keys: seq<string>)
    ensures |keys| == |rs|
    ensures forall i :: 0 <= i < |rs| ==> keys[i] == Key(rs[i])
  {
    seq(|rs|, i requires 0 <= i < |rs| => Key(rs[i]))
  }

  /** The keys of a list in order of first appearance. */
  function DistinctKeys(keys: seq<string>): (d: seq<string>)
    ensures forall k :: k in d <==> k in keys
    ensures forall i, j :: 0 <= i < j < |d| ==> d[i] != d[j]
    decreases |keys|
  {
    if |keys| == 0 then []
    else
      var d := DistinctKeys(keys[..|keys| - 1]);
      var k := keys[|keys| - 1];
      assert forall x :: x in keys <==> x in keys[..|keys| - 1] || x == k;
      if k in d then d else d + [k]
  }

  /** The reading the map ends up holding for `key`: a fold of the loop's update
      over the readings carrying that key. */
  function BestFor(rs: seq<DecayedReading>, key: string): Option<DecayedReading>
    decreases |rs|
  {
    if |rs| == 0 then None
    else
      var best := BestFor(rs[..|rs| - 1], key);
      var r := rs[|rs| - 1];
      if Key(r) != key then best
      else if best.None? || r.decayedWeight > best.value.decayedWeight then Some(r)
      else best
  }

  /** `rs[j]` carries `key`, is as heavy as any reading with that key, and is
      strictly heavier than every earlier one. */
  predicate IsFirstHeaviest(rs: seq<DecayedReading>, key: string, j: nat) {
    && j < |rs|
    && Key(rs[j]) == key
    && (forall k :: 0 <= k < |rs| && Key(rs[k]) == key ==> rs[k].decayedWeight <= rs[j].decayedWeight)
    && (forall k :: 0 <= k < j && Key(rs[k]) == key ==> rs[k].decayedWeight < rs[j].decayedWeight)
  }

  /** The fold keeps nothing for an absent key, and for a present key keeps the
      first reading of maximal weight. */
  lemma {:induction false} BestForIsFirstHeaviest(rs: seq<DecayedReading>, key: string) returns (j: nat)
    ensures key !in KeysOf(rs) ==> BestFor(rs, key).None?
    ensures key in KeysOf(rs) ==> IsFirstHeaviest(rs, key, j) && BestFor(rs, key) == Some(rs[j])
    decreases |rs|
  {
    if |rs| == 0 {
      return 0;
    }
    var init := rs[..|rs| - 1];
    var r := rs[|rs| - 1];
    var i := BestForIsFirstHeaviest(init, key);
    assert KeysOf(rs) == KeysOf(init) + [Key(r)];
    if key !in KeysOf(init) {
      j := |rs| - 1;
      if key in KeysOf(rs) {
        ExtendFirstHeaviest(rs, key, j, j);
      }
    } else if Key(r) == key && r.decayedWeight > init[i].decayedWeight {
      j := |rs| - 1;
      ExtendFirstHeaviest(rs, key, i, j);
    } else {
      j := i;
      ExtendFirstHeaviest(rs, key, i, j);
    }
  }

  /** The step of the induction: `i` is the first heaviest of all but the last
      reading (or there is no earlier reading with the key, and `i` is the last),
      and `j` is what the fold keeps after the last reading. */
  lemma ExtendFirstHeaviest(rs: seq<DecayedReading>, key: string, i: nat, j: nat)
    requires 0 < |rs| && i < |rs| && j < |rs|
    requires var init := rs[..|rs| - 1]; var r := rs[|rs| - 1];
      if key !in KeysOf(init) then i == j == |rs| - 1 && Key(r) == key
      else
        && IsFirstHeaviest(init, key, i)
        && (j == if Key(r) == key && r.decayedWeight > init[i].decayedWeight then |rs| - 1 else i)
    ensures IsFirstHeaviest(rs, key, j)
  {
    var init := rs[..|rs| - 1];
    assert forall k :: 0 <= k < |init| ==> init[k] == rs[k];
    if key !in KeysOf(init) {
      assert forall k :: 0 <= k < |init| ==> Key(rs[k]) != key by {
        assert forall k :: 0 <= k < |init| ==> KeysOf(init)[k] == Key(init[k]);
      }
    }
  }

  /** The update the loop of `aggregateByLocation` makes for one reading, given
      the position `idx` of its key among the kept readings (`|kept|` if absent). */
  function KeepHeavier(kept: seq<DecayedReading>, r: DecayedReading, idx: nat): seq<DecayedReading>
    requires idx <= |kept|
  {
    if idx == |kept| then kept + [r]
    else if r.decayedWeight > kept[idx].decayedWeight then kept[idx := r]
    else kept
  }

  /** The kept readings summarise `prefix`: one per key, in first-appearance order,
      each the fold's choice for its key. */
  predicate Summarises(kept: seq<DecayedReading>, prefix: seq<DecayedReading>) {
    && KeysOf(kept) == DistinctKeys(KeysOf(prefix))
    && forall i :: 0 <= i < |kept| ==> Some(kept[i]) == BestFor(prefix, Key(kept[i]))
  }

  lemma AbsentKeyHasNoBest(rs: seq<DecayedReading>, key: string)
    requires key !in KeysOf(rs)
    ensures BestFor(rs, key).None?
  {
    var _ := BestForIsFirstHeaviest(rs, key);
  }

  /** One step of the loop keeps the summary invariant. */
  lemma KeepHeavierStep(kept: seq<DecayedReading>, prefix: seq<DecayedReading>, r: DecayedReading, idx: nat)
    requires Summarises(kept, prefix)
    requires idx <= |kept|
    requires idx < |kept| ==> Key(kept[idx]) == Key(r)
    requires idx == |kept| <==> Key(r) !in KeysOf(kept)
    ensures Summarises(KeepHeavier(kept, r, idx), prefix + [r])
  {
    var key := Key(r);
    var next := KeepHeavier(kept, r, idx);
    var whole := prefix + [r];
    assert whole[..|prefix|] == prefix;
    assert KeysOf(whole) == KeysOf(prefix) + [key];
    assert KeysOf(whole)[..|prefix|] == KeysOf(prefix);
    forall k | k != key
      ensures BestFor(whole, k) == BestFor(prefix, k)
    {
    }
    if idx == |kept| {
      AbsentKeyHasNoBest(prefix, key);
      assert KeysOf(next) == KeysOf(kept) + [key];
    } else {
      assert BestFor(prefix, key) == Some(kept[idx]);
      assert KeysOf(next) == KeysOf(kept);
      forall i | 0 <= i < |next|
        ensures Some(next[i]) == BestFor(whole, Key(next[i]))
      {
        if i != idx {
          assert Key(kept[i]) != key by {
            assert KeysOf(kept)[i] != KeysOf(kept)[idx];
          }
        }
      }
    }
  }

  /** `aggregateByLocation`. The map is returned as its values in insertion order,
      as `Array.from(map.values())` lists them: a key keeps the position of its
      first reading even when a later reading replaces it. */
  method AggregateByLocation(readings: seq<DecayedReading>) returns (kept: seq<DecayedReading>)
    ensures KeysOf(kept) == DistinctKeys(KeysOf(readings))
    ensures forall i :: 0 <= i < |kept| ==> Some(kept[i]) == BestFor(readings, Key(kept[i]))
  {
    kept := [];
    var n := 0;
    while n < |readings|
      invariant 0 <= n <= |readings|
      invariant Summarises(kept, readings[..n])
    {
      var r := readings[n];
      var idx := IndexOfKey(kept, Key(r));
      KeepHeavierStep(kept, readings[..n], r, idx);
      assert readings[..n + 1] == readings[..n] + [r];
      kept := KeepHeavier(kept, r, idx);
      n := n + 1;
    }
    assert readings[..n] == readings;
  }

  /** The position of `key` among the kept readings, or `|kept|` when absent. */
  method IndexOfKey(kept: seq<DecayedReading>, key: string) returns (idx: nat)
    ensures idx <= |kept|
    ensures idx < |kept| ==> Key(kept[idx]) == key
    ensures idx == |kept| <==> key !in KeysOf(kept)
  {
    idx := 0;
    while idx < |kept| && Key(kept[idx]) != key
      invariant idx <= |kept|
      invariant forall i :: 0 <= i < idx ==> Key(kept[i]) != key
    {
      idx := idx + 1;
    }
  }

  /** Every reading the aggregation keeps came from its input. */
  lemma {:induction false} BestComesFromInput(rs: seq<DecayedReading>, key: string)
    ensures BestFor(rs, key).Some? ==> BestFor(rs, key).value in rs && Key(BestFor(rs, key).value) == key
    decreases |rs|
  {
    if |rs| > 0 {
      BestComesFromInput(rs[..|rs| - 1], key);
    }
  }
}
