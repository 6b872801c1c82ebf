/** The chart pipeline of the dashboard: readings are grouped into
    fixed-width time slots (`getTimeSlotKey`, `processDataToTimeSlots`) and
    each slot's average becomes one point of the chart series
    (`updateChartFromBuckets`). */
module TimeSlots {
  import opened Wrappers
  import opened Decimal
  import opened Strings
  import opened Readings
  import opened Classifier
  import Registry

  /** The start minute of the slot a minute falls in. */
  function SlotMinute(minute: Minute, interval: nat): (s: Minute)
    requires interval >= 1
    ensures s <= minute < s + interval
    ensures s % interval == 0
  {
    var q := minute / interval;
    assert q * interval <= minute by { DivFloor(minute, interval); }
    assert (q * interval) % interval == 0 by { MultipleMod(q, interval); }
    q * interval
  }

  lemma DivFloor(a: nat, n: nat)
    requires n >= 1
    ensures (a / n) * n <= a < (a / n) * n + n
  {
  }

  lemma MultipleMod(q: nat, n: nat)
    requires n >= 1
    ensures (q * n) % n == 0
  {
    Registry.DivModOf(q, 0, n);
  }

  /** The `HH:MM` text of a clock time. */
  function ClockText(hour: Hour, minute: Minute): (k: string)
    ensures |k| == 5 && k[2] == ':'
  {
    Pad2(hour) + ":" + Pad2(minute)
  }

  /** The key of the slot a reading's time falls in. */
  function SlotKey(hour: Hour, minute: Minute, interval: nat): string
    requires interval >= 1
  {
    ClockText(hour, SlotMinute(minute, interval))
  }

  /** Reading an `HH:MM` text back into hour and minute. */
  function ParseClockText(k: string): Option<(nat, nat)>
  {
    if |k| == 5 && k[2] == ':' && AllDigits(k[..2]) && AllDigits(k[3..]) then
      Some((DigitsValue(k[..2]), DigitsValue(k[3..])))
    else
      None
  }

  lemma ClockTextRoundTrip(hour: Hour, minute: Minute)
    ensures ParseClockText(ClockText(hour, minute)) == Some((hour, minute))
  {
    var k := ClockText(hour, minute);
    assert k[..2] == Pad2(hour);
    assert k[3..] == Pad2(minute);
  }

  /** A slot key names the slot's start: the reading's hour, and the last
      multiple of the interval not after the reading's minute. */
  lemma SlotKeyNamesSlotStart(hour: Hour, minute: Minute, interval: nat)
    requires interval >= 1
    ensures var p := ParseClockText(SlotKey(hour, minute, interval));
      p.Some? && p.value.0 == hour && p.value.1 % interval == 0 &&
      p.value.1 <= minute < p.value.1 + interval
  {
    ClockTextRoundTrip(hour, SlotMinute(minute, interval));
  }

  lemma DigitCharLess(a: nat, b: nat)
    requires a < 10 && b < 10
    ensures DigitChar(a) < DigitChar(b) <==> a < b
    ensures DigitChar(a) == DigitChar(b) <==> a == b
  {
  }

  lemma Pad2Order(a: nat, b: nat)
    requires a < 100 && b < 100
    ensures LexLess(Pad2(a), Pad2(b)) <==> a < b
    ensures Pad2(a) == Pad2(b) <==> a == b
  {
    var x, y := Pad2(a), Pad2(b);
    DigitCharLess(a / 10, b / 10);
    DigitCharLess(a % 10, b % 10);
    assert x[1..] == [x[1]] && y[1..] == [y[1]];
    assert LexLess(x[1..], y[1..]) <==> x[1] < y[1];
    if x == y {
      assert x[0] == y[0] && x[1] == y[1];
    }
  }

  /** Comparing two clock texts as strings compares the clock times. */
  lemma ClockTextOrder(h1: Hour, m1: Minute, h2: Hour, m2: Minute)
    ensures LexLess(ClockText(h1, m1), ClockText(h2, m2)) <==> h1 * 60 + m1 < h2 * 60 + m2
  {
    var t1, t2 := ":" + Pad2(m1), ":" + Pad2(m2);
    assert ClockText(h1, m1) == Pad2(h1) + t1;
    assert ClockText(h2, m2) == Pad2(h2) + t2;
    LexLessAfterEqualLengths(Pad2(h1), Pad2(h2), t1, t2);
    Pad2Order(h1, h2);
    Pad2Order(m1, m2);
    assert t1[1..] == Pad2(m1) && t2[1..] == Pad2(m2);
    assert LexLess(t1, t2) <==> LexLess(Pad2(m1), Pad2(m2));
  }

  /** The running sums of one slot: `{ temp, hum, lux, ph, count }`. */
  datatype Bucket = Bucket(temp: real, hum: real, lux: real, ph: real, count: nat)

  const EmptyBucket := Bucket(0.0, 0.0, 0.0, 0.0, 0)

  /** What a reading adds to the pH sum: its pH when the record has one. */
  function PhContribution(e: Reading): real
  {
    match e.pH
    case Some(v) => v
    case None => 0.0
  }

  /** One reading added to a slot's sums. */
  function AddEntry(b: Bucket, e: Reading): Bucket
  {
    Bucket(b.temp + e.temperature, b.hum + e.humidity, b.lux + e.lux,
           b.ph + PhContribution(e), b.count + 1)
  }

  function EntryKey(e: Reading, interval: nat): string
    requires interval >= 1
  {
    SlotKey(e.hour, e.minute, interval)
  }

  /** The sums over the readings of `data` whose slot is `k` (reference
      definition of one bucket). */
  function Tally(data: seq<Reading>, interval: nat, k: string): Bucket
    requires interval >= 1
  {
    if data == [] then EmptyBucket
    else
      var b := Tally(data[..|data| - 1], interval, k);
      var e := data[|data| - 1];
      if EntryKey(e, interval) == k then AddEntry(b, e) else b
  }

  /** The slots that at least one reading falls in. */
  function SlotKeys(data: seq<Reading>, interval: nat): set<string>
    requires interval >= 1
  {
    set e | e in data :: EntryKey(e, interval)
  }

  /** The bucket map `processDataToTimeSlots` is meant to build: one bucket
      per occupied slot, holding the sums over that slot's readings. */
  function Buckets(data: seq<Reading>, interval: nat): map<string, Bucket>
    requires interval >= 1
  {
    map k | k in SlotKeys(data, interval) :: Tally(data, interval, k)
  }

  /** `processDataToTimeSlots`: one pass over the readings, creating a
      bucket the first time a slot is seen. */
  method ProcessDataToTimeSlots(data: seq<Reading>, interval: nat) returns (buckets: map<string, Bucket>)
    requires interval >= 1
    ensures buckets == Buckets(data, interval)
  {
    buckets := map[];
    assert data[..0] == [];
    for i := 0 to |data|
      invariant buckets == Buckets(data[..i], interval)
    {
      ghost var prev := buckets;
      var entry := data[i];
      var key := EntryKey(entry, interval);
      if key !in buckets {
        buckets := buckets[key := EmptyBucket];
      }
      var b := buckets[key];
      buckets := buckets[key := AddEntry(b, entry)];
      assert buckets == prev[key := AddEntry(if key in prev then prev[key] else EmptyBucket, entry)];
      assert data[..i + 1] == data[..i] + [entry];
      BucketsStep(data[..i], entry, interval);
    }
    assert data[..|data|] == data;
  }

  lemma SlotKeysSnoc(data: seq<Reading>, e: Reading, interval: nat)
    requires interval >= 1
    ensures SlotKeys(data + [e], interval) == SlotKeys(data, interval) + {EntryKey(e, interval)}
  {
    var d := data + [e];
    forall x ensures x in SlotKeys(d, interval) <==> x in SlotKeys(data, interval) + {EntryKey(e, interval)} {
      if x in SlotKeys(d, interval) {
        var r :| r in d && EntryKey(r, interval) == x;
        if r != e { assert r in data; }
      }
      if x in SlotKeys(data, interval) {
        var r :| r in data && EntryKey(r, interval) == x;
        assert r in d;
      }
      if x == EntryKey(e, interval) {
        assert e in d;
      }
    }
  }

  lemma TallySnoc(data: seq<Reading>, e: Reading, interval: nat, x: string)
    requires interval >= 1
    ensures Tally(data + [e], interval, x) ==
      if EntryKey(e, interval) == x then AddEntry(Tally(data, interval, x), e) else Tally(data, interval, x)
  {
    var d := data + [e];
    assert d[..|d| - 1] == data;
  }

  /** Adding one reading updates only the bucket of its slot. */
  lemma BucketsStep(data: seq<Reading>, e: Reading, interval: nat)
    requires interval >= 1
    ensures var k := EntryKey(e, interval);
      var prev := Buckets(data, interval);
      Buckets(data + [e], interval) ==
        prev[k := AddEntry(if k in prev then prev[k] else EmptyBucket, e)]
  {
    var k := EntryKey(e, interval);
    var prev := Buckets(data, interval);
    var upd := prev[k := AddEntry(if k in prev then prev[k] else EmptyBucket, e)];
    var next := Buckets(data + [e], interval);
    BucketKeysStep(data, e, interval);
    forall x | x in next.Keys ensures next[x] == upd[x] {
      BucketAfterStep(data, e, interval, x);
    }
  }

  /** One more reading adds its slot to the keys and no other. */
  lemma BucketKeysStep(data: seq<Reading>, e: Reading, interval: nat)
    requires interval >= 1
    ensures Buckets(data + [e], interval).Keys == Buckets(data, interval).Keys + {EntryKey(e, interval)}
  {
    SlotKeysSnoc(data, e, interval);
  }

  /** The sums of one slot after one more reading. */
  lemma BucketAfterStep(data: seq<Reading>, e: Reading, interval: nat, x: string)
    requires interval >= 1
    ensures var k := EntryKey(e, interval);
      var prev := Buckets(data, interval);
      Tally(data + [e], interval, x) ==
        if x == k then AddEntry(if k in prev then prev[k] else EmptyBucket, e)
        else Tally(data, interval, x)
  {
    var k := EntryKey(e, interval);
    TallySnoc(data, e, interval, x);
    if x == k && k !in SlotKeys(data, interval) {
      TallyOutside(data, interval, k);
    }
  }

  /** A slot no reading falls in has empty sums. */
  lemma {:induction false} TallyOutside(data: seq<Reading>, interval: nat, k: string)
    requires interval >= 1 && k !in SlotKeys(data, interval)
    ensures Tally(data, interval, k) == EmptyBucket
  {
    if data != [] {
      var init := data[..|data| - 1];
      assert SlotKeys(init, interval) <= SlotKeys(data, interval) by {
        forall x | x in SlotKeys(init, interval) ensures x in SlotKeys(data, interval) {
          var r :| r in init && EntryKey(r, interval) == x;
          assert r in data;
        }
      }
      assert data[|data| - 1] in data;
      TallyOutside(init, interval, k);
    }
  }

  /** The slot keys of the readings, one per reading, in input order. */
  function KeysOf(data: seq<Reading>, interval: nat): (ks: seq<string>)
    requires interval >= 1
    ensures |ks| == |data|
    ensures forall i :: 0 <= i < |data| ==> ks[i] == EntryKey(data[i], interval)
  {
    if data == [] then [] else KeysOf(data[..|data| - 1], interval) + [EntryKey(data[|data| - 1], interval)]
  }

  /** The number of readings of `data` that fall in slot `k`. */
  function CountIn(data: seq<Reading>, interval: nat, k: string): nat
    requires interval >= 1
  {
    multiset(KeysOf(data, interval))[k]
  }

  /** A bucket's count is the number of readings in its slot, so every
      bucket in the map counts at least one reading. */
  lemma {:induction false} TallyCount(data: seq<Reading>, interval: nat, k: string)
    requires interval >= 1
    ensures Tally(data, interval, k).count == CountIn(data, interval, k)
    ensures k in SlotKeys(data, interval) ==> Tally(data, interval, k).count >= 1
  {
    if data != [] {
      var n := |data| - 1;
      var init := data[..n];
      TallyCount(init, interval, k);
      assert KeysOf(data, interval) == KeysOf(init, interval) + [EntryKey(data[n], interval)];
      if k in SlotKeys(data, interval) && EntryKey(data[n], interval) != k {
        var r :| r in data && EntryKey(r, interval) == k;
        var j :| 0 <= j < |data| && data[j] == r;
        assert j < n && init[j] == r;
        assert k in SlotKeys(init, interval);
      }
    }
  }

  lemma BucketCountsPositive(data: seq<Reading>, interval: nat)
    requires interval >= 1
    ensures forall k :: k in Buckets(data, interval) ==>
      Buckets(data, interval)[k].count == CountIn(data, interval, k) >= 1
  {
    forall k | k in Buckets(data, interval)
      ensures Buckets(data, interval)[k].count == CountIn(data, interval, k) >= 1
    {
      TallyCount(data, interval, k);
    }
  }

  /** The sum of the counts of the buckets named by `ks`. */
  function SumCounts(buckets: map<string, Bucket>, ks: seq<string>): int
    requires forall k :: k in ks ==> k in buckets
  {
    if ks == [] then 0 else buckets[ks[0]].count + SumCounts(buckets, ks[1..])
  }

  function SumTally(data: seq<Reading>, interval: nat, ks: seq<string>): int
    requires interval >= 1
  {
    if ks == [] then 0 else Tally(data, interval, ks[0]).count + SumTally(data, interval, ks[1..])
  }

  ghost predicate Distinct(ks: seq<string>)
  {
    forall i, j :: 0 <= i < j < |ks| ==> ks[i] != ks[j]
  }

  lemma {:induction false} SumTallyStep(data: seq<Reading>, e: Reading, interval: nat, ks: seq<string>)
    requires interval >= 1 && Distinct(ks)
    ensures SumTally(data + [e], interval, ks) ==
      SumTally(data, interval, ks) + (if EntryKey(e, interval) in ks then 1 else 0)
  {
    var d := data + [e];
    assert d[..|d| - 1] == data;
    if ks != [] {
      assert Distinct(ks[1..]) by {
        forall i, j | 0 <= i < j < |ks[1..]| ensures ks[1..][i] != ks[1..][j] {
          assert ks[1..][i] == ks[i + 1] && ks[1..][j] == ks[j + 1];
        }
      }
      SumTallyStep(data, e, interval, ks[1..]);
      var k := EntryKey(e, interval);
      if k == ks[0] {
        assert k !in ks[1..] by {
          forall j | 0 <= j < |ks[1..]| ensures ks[1..][j] != k {
            assert ks[1..][j] == ks[j + 1];
          }
        }
      } else {
        assert k in ks <==> k in ks[1..] by {
          if k in ks {
            var j :| 0 <= j < |ks| && ks[j] == k;
            assert ks[1..][j - 1] == k;
          }
        }
      }
    }
  }

  lemma {:induction false} SumTallyCoversAll(data: seq<Reading>, interval: nat, ks: seq<string>)
    requires interval >= 1 && Distinct(ks)
    requires forall e :: e in data ==> EntryKey(e, interval) in ks
    ensures SumTally(data, interval, ks) == |data|
  {
    if data == [] {
      SumTallyEmpty(interval, ks);
    } else {
      var n := |data| - 1;
      assert data == data[..n] + [data[n]];
      assert data[n] in data;
      forall e | e in data[..n] ensures EntryKey(e, interval) in ks {
        assert e in data;
      }
      SumTallyCoversAll(data[..n], interval, ks);
      SumTallyStep(data[..n], data[n], interval, ks);
    }
  }

  lemma {:induction false} SumTallyEmpty(interval: nat, ks: seq<string>)
    requires interval >= 1
    ensures SumTally([], interval, ks) == 0
  {
    if ks != [] { SumTallyEmpty(interval, ks[1..]); }
  }

  lemma {:induction false} SumCountsIsSumTally(data: seq<Reading>, interval: nat, ks: seq<string>)
    requires interval >= 1
    requires forall k :: k in ks ==> k in Buckets(data, interval)
    ensures SumCounts(Buckets(data, interval), ks) == SumTally(data, interval, ks)
  {
    if ks != [] { SumCountsIsSumTally(data, interval, ks[1..]); }
  }

  /** Every reading is counted in exactly one bucket: over any listing of the
      map's slots, the counts add up to the number of readings. */
  lemma BucketCountsSumToLength(data: seq<Reading>, interval: nat, ks: seq<string>)
    requires interval >= 1 && Distinct(ks)
    requires forall k :: k in ks <==> k in Buckets(data, interval)
    ensures SumCounts(Buckets(data, interval), ks) == |data|
  {
    SumCountsIsSumTally(data, interval, ks);
    forall e | e in data ensures EntryKey(e, interval) in ks {
      assert EntryKey(e, interval) in SlotKeys(data, interval);
    }
    SumTallyCoversAll(data, interval, ks);
  }

  /** Two readings 20 minutes apart in the same half hour share one bucket,
      whose count is 2 and whose temperature sum is theirs. */
  lemma SameHalfHourShareBucket(a: Reading, b: Reading)
    requires a.hour == b.hour == 10 && a.minute == 5 && b.minute == 25
    ensures Buckets([a, b], 30).Keys == {ClockText(10, 0)}
    ensures Buckets([a, b], 30)[ClockText(10, 0)].count == 2
    ensures Buckets([a, b], 30)[ClockText(10, 0)].temp == a.temperature + b.temperature
  {
    var data := [a, b];
    var k := ClockText(10, 0);
    assert data[..1] == [a];
    assert [a][..0] == [];
    assert EntryKey(a, 30) == k == EntryKey(b, 30);
    assert Tally([a], 30, k) == AddEntry(EmptyBucket, a);
    assert Tally(data, 30, k) == AddEntry(AddEntry(EmptyBucket, a), b);
    assert SlotKeys(data, 30) == {ClockText(10, 0)} by {
      forall x | x in SlotKeys(data, 30) ensures x == ClockText(10, 0) {
        var r :| r in data && EntryKey(r, 30) == x;
      }
      assert a in data;
    }
  }

  /** A reading without a pH value is counted but adds nothing to the pH sum. */
  lemma ReadingWithoutPhKeepsPhSum(data: seq<Reading>, e: Reading, interval: nat)
    requires interval >= 1 && e.pH.None?
    ensures var k := EntryKey(e, interval);
      Buckets(data + [e], interval)[k].ph == (if k in Buckets(data, interval) then Buckets(data, interval)[k].ph else 0.0)
    ensures var k := EntryKey(e, interval);
      Buckets(data + [e], interval)[k].count == (if k in Buckets(data, interval) then Buckets(data, interval)[k].count else 0) + 1
  {
    BucketsStep(data, e, interval);
  }

  /** `String([key, bucket])`, the text the default array sort compares. */
  function EntryText(key: string): string
  {
    key + ",[object Object]"
  }

  lemma EntryTextInjective()
    ensures Injective(EntryText)
  {
    forall x, y | EntryText(x) == EntryText(y) ensures x == y {
      assert x == EntryText(x)[..|x|];
      assert y == EntryText(y)[..|y|];
    }
  }

  /** For keys of one length, the entry sort orders them as the keys. */
  lemma EntryOrderIsKeyOrder(a: string, b: string)
    requires |a| == |b|
    ensures LexLess(EntryText(a), EntryText(b)) <==> LexLess(a, b)
  {
    var s := ",[object Object]";
    LexLessAfterEqualLengths(a, b, s, s);
    LexLessIrreflexive(s);
  }

  /** The value field a chart mode plots. */
  function Field(b: Bucket, m: Mode): real
  {
    match m
    case Temperature => b.temp
    case Humidity => b.hum
    case Illuminance => b.lux
    case PH => b.ph
  }

  /** `typeMap[sensorType].label`. */
  function SeriesTitle(m: Mode): string
  {
    match m
    case Temperature => "온도 (°C)"
    case Humidity => "습도 (%)"
    case Illuminance => "조도 (lux)"
    case PH => "산도 (pH)"
  }

  /** One chart dataset: a title, the x labels and one value per label. */
  datatype Series = Series(title: string, labels: seq<string>, values: seq<real>)

  /** The keys of `keys` whose bucket counts at least one reading, in order. */
  function Occupied(keys: seq<string>, buckets: map<string, Bucket>): (r: seq<string>)
    requires forall k :: k in keys ==> k in buckets
    ensures forall x :: x in r <==> x in keys && buckets[x].count > 0
  {
    if keys == [] then []
    else
      var init := Occupied(keys[..|keys| - 1], buckets);
      var last := keys[|keys| - 1];
      assert forall x :: x in keys[..|keys| - 1] ==> x in keys;
      if buckets[last].count > 0 then init + [last] else init
  }

  /** Filtering keeps the order of the keys. */
  lemma {:induction false} OccupiedSorted(keys: seq<string>, buckets: map<string, Bucket>)
    requires forall k :: k in keys ==> k in buckets
    requires StrictlySortedBy(keys, EntryText)
    ensures StrictlySortedBy(Occupied(keys, buckets), EntryText)
  {
    if keys != [] {
      var n := |keys| - 1;
      var init, last := keys[..n], keys[n];
      assert forall x :: x in init ==> x in keys;
      OccupiedSorted(init, buckets);
      if buckets[last].count > 0 {
        forall x | x in Occupied(init, buckets) ensures LexLess(EntryText(x), EntryText(last)) {
          var i :| 0 <= i < n && keys[i] == x;
        }
      }
    }
  }

  /** The average of each label's bucket, in label order. */
  function Averages(labels: seq<string>, buckets: map<string, Bucket>, m: Mode): (r: seq<real>)
    requires forall k :: k in labels ==> k in buckets && buckets[k].count > 0
    ensures |r| == |labels|
  {
    if labels == [] then []
    else
      var n := |labels| - 1;
      assert forall x :: x in labels[..n] ==> x in labels;
      Averages(labels[..n], buckets, m) + [Field(buckets[labels[n]], m) / buckets[labels[n]].count as real]
  }

  /** Each value is its label's bucket's sum of the field divided by its count. */
  lemma {:induction false} AveragesMeaning(labels: seq<string>, buckets: map<string, Bucket>, m: Mode)
    requires forall k :: k in labels ==> k in buckets && buckets[k].count > 0
    ensures var r := Averages(labels, buckets, m);
      forall i :: 0 <= i < |labels| ==> r[i] == Field(buckets[labels[i]], m) / buckets[labels[i]].count as real
  {
    if labels != [] {
      var n := |labels| - 1;
      assert forall x :: x in labels[..n] ==> x in labels;
      AveragesMeaning(labels[..n], buckets, m);
    }
  }

  /** The series the chart shows for a sensor type and a bucket map: every
      occupied slot in entry-sort order with its average, or nothing for an
      unknown sensor type. */
  ghost function ChartSeries(sensorType: string, buckets: map<string, Bucket>): Option<Series>
  {
    match ParseMode(sensorType)
    case None => None
    case Some(m) =>
      EntryTextInjective();
      var labels := Occupied(SortedSeqBy(buckets.Keys, EntryText), buckets);
      Some(Series(SeriesTitle(m), labels, Averages(labels, buckets, m)))
  }

  /** What the chart shows: a series exactly for the four sensor types,
      labelled by the occupied slots in entry-sort order, each with its
      bucket's average of the chosen field. */
  lemma ChartSeriesMeaning(sensorType: string, buckets: map<string, Bucket>)
    ensures var s := ChartSeries(sensorType, buckets);
      s.None? <==> ParseMode(sensorType).None?
    ensures var s := ChartSeries(sensorType, buckets);
      s.Some? ==> (
        s.value.title == SeriesTitle(ParseMode(sensorType).value) &&
        StrictlySortedBy(s.value.labels, EntryText) &&
        (forall k :: k in s.value.labels <==> k in buckets && buckets[k].count > 0) &&
        |s.value.values| == |s.value.labels| &&
        forall i :: 0 <= i < |s.value.labels| ==>
          s.value.values[i] == Field(buckets[s.value.labels[i]], ParseMode(sensorType).value) / buckets[s.value.labels[i]].count as real)
  {
    EntryTextInjective();
    if ParseMode(sensorType).Some? {
      var keys := SortedSeqBy(buckets.Keys, EntryText);
      var labels := Occupied(keys, buckets);
      OccupiedSorted(keys, buckets);
      AveragesMeaning(labels, buckets, ParseMode(sensorType).value);
    }
  }

  /** `[...buckets.entries()].sort()`: the keys in the order the default sort
      puts their entries. */
  method SortEntries(keys: set<string>) returns (sorted: seq<string>)
    ensures StrictlySortedBy(sorted, EntryText)
    ensures forall x :: x in sorted <==> x in keys
    ensures Injective(EntryText) && sorted == SortedSeqBy(keys, EntryText)
  {
    EntryTextInjective();
    sorted := [];
    var rest := keys;
    while rest != {}
      invariant rest <= keys
      invariant StrictlySortedBy(sorted, EntryText)
      invariant forall x :: x in sorted <==> x in keys && x !in rest
      decreases rest
    {
      var k :| k in rest;
      sorted := InsertSortedBy(sorted, k, EntryText);
      rest := rest - {k};
    }
    StrictlySortedUnique(sorted, SortedSeqBy(keys, EntryText), EntryText);
  }

  /** The `forEach` of `updateChartFromBuckets`: push the label and the
      average of every sorted entry whose bucket counts a reading. */
  method PushOccupied(sorted: seq<string>, buckets: map<string, Bucket>, m: Mode)
    returns (labels: seq<string>, values: seq<real>)
    requires forall k :: k in sorted ==> k in buckets
    ensures labels == Occupied(sorted, buckets)
    ensures values == Averages(labels, buckets, m)
  {
    labels, values := [], [];
    for i := 0 to |sorted|
      invariant labels == Occupied(sorted[..i], buckets)
      invariant values == Averages(labels, buckets, m)
    {
      var key := sorted[i];
      var b := buckets[key];
      assert sorted[..i + 1][..i] == sorted[..i] && sorted[..i + 1][i] == key;
      if b.count > 0 {
        ghost var prev := labels;
        labels := labels + [key];
        values := values + [Field(b, m) / b.count as real];
        assert labels[..|labels| - 1] == prev;
      }
    }
    assert sorted[..|sorted|] == sorted;
  }

  /** `updateChartFromBuckets`: the series for a known sensor type, or no
      change for an unknown one. */
  method UpdateChartFromBuckets(sensorType: string, buckets: map<string, Bucket>) returns (series: Option<Series>)
    ensures series == ChartSeries(sensorType, buckets)
    ensures series.None? <==> ParseMode(sensorType).None?
    ensures series.Some? ==> series.value.title == SeriesTitle(ParseMode(sensorType).value)
    ensures series.Some? ==> StrictlySortedBy(series.value.labels, EntryText)
    ensures series.Some? ==> forall k :: k in series.value.labels <==> k in buckets && buckets[k].count > 0
    ensures series.Some? ==> |series.value.values| == |series.value.labels|
    ensures series.Some? ==> forall i :: 0 <= i < |series.value.labels| ==>
      series.value.values[i] == Field(buckets[series.value.labels[i]], ParseMode(sensorType).value) / buckets[series.value.labels[i]].count as real
  {
    ChartSeriesMeaning(sensorType, buckets);
    var mode := ParseMode(sensorType);
    if mode.None? {
      return None;
    }
    var m := mode.value;
    var sorted := SortEntries(buckets.Keys);
    var labels, values := PushOccupied(sorted, buckets, m);
    series := Some(Series(SeriesTitle(m), labels, values));
  }

  /** The clock time, in minutes after midnight, an `HH:MM` text names. */
  function ClockMinutes(k: string): nat
  {
    match ParseClockText(k)
    case Some(p) => p.0 * 60 + p.1
    case None => 0
  }

  /** Of two slot keys, the one whose entry sorts first is the earlier slot. */
  lemma EntryOrderIsClockOrder(data: seq<Reading>, interval: nat, a: string, b: string)
    requires interval >= 1 && a in SlotKeys(data, interval) && b in SlotKeys(data, interval)
    ensures LexLess(EntryText(a), EntryText(b)) <==> ClockMinutes(a) < ClockMinutes(b)
  {
    var ea :| ea in data && EntryKey(ea, interval) == a;
    var eb :| eb in data && EntryKey(eb, interval) == b;
    var sa, sb := SlotMinute(ea.minute, interval), SlotMinute(eb.minute, interval);
    ClockTextRoundTrip(ea.hour, sa);
    ClockTextRoundTrip(eb.hour, sb);
    EntryOrderIsKeyOrder(a, b);
    ClockTextOrder(ea.hour, sa, eb.hour, sb);
  }

  /** For buckets built from readings, the chart labels are exactly the
      occupied slots, in clock order. */
  lemma ChartLabelsChronological(data: seq<Reading>, interval: nat, sensorType: string)
    requires interval >= 1 && ParseMode(sensorType).Some?
    ensures var s := ChartSeries(sensorType, Buckets(data, interval)).value;
      (forall k :: k in s.labels <==> k in SlotKeys(data, interval)) &&
      forall i, j :: 0 <= i < j < |s.labels| ==> ClockMinutes(s.labels[i]) < ClockMinutes(s.labels[j])
  {
    var buckets := Buckets(data, interval);
    BucketCountsPositive(data, interval);
    ChartSeriesMeaning(sensorType, buckets);
    var s := ChartSeries(sensorType, buckets).value;
    forall i, j | 0 <= i < j < |s.labels|
      ensures ClockMinutes(s.labels[i]) < ClockMinutes(s.labels[j])
    {
      assert s.labels[i] in s.labels && s.labels[j] in s.labels;
      EntryOrderIsClockOrder(data, interval, s.labels[i], s.labels[j]);
    }
  }
}
