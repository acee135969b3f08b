// Clock-event counters: the sampler's online deltas (spark_bench/telemetry.py) and the
// offline account of one trial (spark_bench/analysis.py, _throttle_deltas).
//
// The five counter fields are handled alike; a value here is that of one field.
module Throttle {
  import opened Wrappers

  datatype Gpu = Gpu(uuid: Option<string>, value: Option<real>)

  // monotonic and epoch are the finite stamps of the row, if any.
  datatype Row = Row(hostname: string, monotonic: Option<real>, epoch: Option<real>, gpus: seq<Gpu>)

  datatype Basis = MonotonicBasis | EpochBasis

  datatype Key = Key(hostname: string, uuid: string)

  datatype Entry = Entry(basis: Basis, stamp: Option<real>, value: Option<real>)

  datatype Counter = Counter(delta: Option<real>, interval: real, valid: nat, resets: nat,
                             unavailable: nat, discontinuities: nat)

  const ZERO := Counter(None, 0.0, 0, 0, 0, 0)

  datatype Availability = Unavailable | Partial | Available

  function AvailabilityOf(c: Counter): Availability {
    if c.delta.None? then Unavailable
    else if c.resets > 0 || c.unavailable > 0 || c.discontinuities > 0 then Partial
    else Available
  }

  predicate Identified(g: Gpu) {
    g.uuid.Some? && g.uuid.value != ""
  }

  function EntryOf(row: Row, g: Gpu): Entry {
    if row.monotonic.Some? then Entry(MonotonicBasis, row.monotonic, g.value)
    else Entry(EpochBasis, row.epoch, g.value)
  }

  function KeyOf(row: Row, g: Gpu): Key
    requires Identified(g)
  {
    Key(row.hostname, g.uuid.value)
  }

  // What one pair of neighbouring samples of a GPU adds to the account.
  function Count(c: Counter, earlier: Entry, later: Entry): Counter {
    if later.value.None? || earlier.value.None? || later.value.value < 0.0 || earlier.value.value < 0.0 then
      c.(unavailable := c.unavailable + 1)
    else if later.stamp.None? || earlier.stamp.None? || later.basis != earlier.basis || later.stamp.value <= earlier.stamp.value then
      c.(discontinuities := c.discontinuities + 1)
    else if later.value.value < earlier.value.value then
      c.(resets := c.resets + 1)
    else
      c.(delta := Some(OrZero(c.delta) + later.value.value - earlier.value.value),
         interval := c.interval + (later.stamp.value - earlier.stamp.value), valid := c.valid + 1)
  }

  function OrZero(o: Option<real>): real {
    if o.Some? then o.value else 0.0
  }

  function CountGpu(c: Counter, previous: map<Key, Entry>, row: Row, g: Gpu): Counter {
    if !Identified(g) then c.(unavailable := c.unavailable + 1)
    else if KeyOf(row, g) !in previous then c
    else Count(c, previous[KeyOf(row, g)], EntryOf(row, g))
  }

  // The account and the current samples after the first n GPUs of a row.
  function CountRow(c: Counter, previous: map<Key, Entry>, row: Row, n: nat): Counter
    requires n <= |row.gpus|
  {
    if n == 0 then c else CountGpu(CountRow(c, previous, row, n - 1), previous, row, row.gpus[n - 1])
  }

  function Samples(row: Row, n: nat): map<Key, Entry>
    requires n <= |row.gpus|
  {
    if n == 0 then map[]
    else
      var before := Samples(row, n - 1);
      if Identified(row.gpus[n - 1]) then before[KeyOf(row, row.gpus[n - 1]) := EntryOf(row, row.gpus[n - 1])] else before
  }

  function RowSamples(row: Row): map<Key, Entry> {
    Samples(row, |row.gpus|)
  }

  function LastSamples(rows: seq<Row>): map<Key, Entry> {
    if rows == [] then map[] else RowSamples(rows[|rows| - 1])
  }

  // The account after one more row; a GPU that is gone from the row counts as unavailable.
  function Compared(c0: Counter, previous: map<Key, Entry>, row: Row): Counter {
    var c := CountRow(c0, previous, row, |row.gpus|);
    c.(unavailable := c.unavailable + |previous.Keys - RowSamples(row).Keys|)
  }

  // The account of a whole trial: each row is compared with the row just before it.
  function Account(rows: seq<Row>): Counter {
    if rows == [] then ZERO
    else
      var front := rows[..|rows| - 1];
      Compared(Account(front), LastSamples(front), rows[|rows| - 1])
  }

  // The account of the rows before, taken one row further.
  lemma AccountNext(rows: seq<Row>, i: nat)
    requires i < |rows|
    ensures LastSamples(rows[..i + 1]) == RowSamples(rows[i])
    ensures Account(rows[..i + 1]) == Compared(Account(rows[..i]), LastSamples(rows[..i]), rows[i])
  {
    assert rows[..i + 1][..i] == rows[..i];
  }

  method ThrottleDeltas(rows: seq<Row>) returns (c: Counter)
    ensures c == Account(rows)
  {
    c := ZERO;
    var previous: map<Key, Entry> := map[];
    for i := 0 to |rows|
      invariant c == Account(rows[..i]) && previous == LastSamples(rows[..i])
    {
      AccountNext(rows, i);
      var current;
      c, current := ThrottleRow(c, previous, rows[i]);
      c := c.(unavailable := c.unavailable + |previous.Keys - current.Keys|);
      previous := current;
    }
    assert rows[..|rows|] == rows;
  }

  // The inner loop over the GPUs of one row.
  method ThrottleRow(c0: Counter, previous: map<Key, Entry>, row: Row) returns (c: Counter, current: map<Key, Entry>)
    ensures c == CountRow(c0, previous, row, |row.gpus|) && current == RowSamples(row)
  {
    c, current := c0, map[];
    for n := 0 to |row.gpus|
      invariant c == CountRow(c0, previous, row, n) && current == Samples(row, n)
    {
      var g := row.gpus[n];
      c := CountGpu(c, previous, row, g);
      if Identified(g) {
        current := current[KeyOf(row, g) := EntryOf(row, g)];
      }
    }
  }

  // ---- the online sampler ---------------------------------------------------------------

  // The counter part of TelemetrySampler._gpu.
  class Sampler {
    var previous: map<string, Option<real>>

    constructor ()
      ensures previous == map[]
    {
      previous := map[];
    }

    method Sample(gpus: seq<Gpu>) returns (deltas: seq<Option<real>>)
      modifies this
      ensures deltas == OnlineDeltas(old(previous), gpus, |gpus|)
      ensures previous == Values(gpus, |gpus|)
    {
      deltas := [];
      var current: map<string, Option<real>> := map[];
      for n := 0 to |gpus|
        invariant deltas == OnlineDeltas(previous, gpus, n) && current == Values(gpus, n)
        invariant previous == old(previous)
      {
        var g := gpus[n];
        deltas := deltas + [OnlineDelta(previous, g)];
        if Identified(g) {
          current := current[g.uuid.value := g.value];
        }
      }
      previous := current;
    }
  }

  function OnlineDelta(previous: map<string, Option<real>>, g: Gpu): Option<real> {
    if g.value.None? || !Identified(g) || g.uuid.value !in previous || previous[g.uuid.value].None? then None
    else if g.value.value >= previous[g.uuid.value].value then Some(g.value.value - previous[g.uuid.value].value)
    else None
  }

  function OnlineDeltas(previous: map<string, Option<real>>, gpus: seq<Gpu>, n: nat): (r: seq<Option<real>>)
    requires n <= |gpus|
    ensures |r| == n
  {
    if n == 0 then [] else OnlineDeltas(previous, gpus, n - 1) + [OnlineDelta(previous, gpus[n - 1])]
  }

  function Values(gpus: seq<Gpu>, n: nat): map<string, Option<real>>
    requires n <= |gpus|
  {
    if n == 0 then map[]
    else if Identified(gpus[n - 1]) then Values(gpus, n - 1)[gpus[n - 1].uuid.value := gpus[n - 1].value]
    else Values(gpus, n - 1)
  }

  function Total(deltas: seq<Option<real>>): real {
    if deltas == [] then 0.0 else Total(deltas[..|deltas| - 1]) + OrZero(deltas[|deltas| - 1])
  }

  // All the deltas a fresh sampler reports over consecutive samples.
  function OnlineTotal(rows: seq<Row>): real {
    if rows == [] then 0.0
    else
      var front, row := rows[..|rows| - 1], rows[|rows| - 1];
      OnlineTotal(front) + Total(OnlineDeltas(LastValues(front), row.gpus, |row.gpus|))
  }

  function LastValues(rows: seq<Row>): map<string, Option<real>> {
    if rows == [] then map[] else Values(rows[|rows| - 1].gpus, |rows[|rows| - 1].gpus|)
  }

  // ---- offline equals online --------------------------------------------------------------

  // Consecutive samples of one sampler: one host, increasing monotonic stamps, counters
  // that are never negative.
  ghost predicate OneSampler(rows: seq<Row>) {
    && (forall i :: 0 <= i < |rows| ==> rows[i].hostname == rows[0].hostname && rows[i].monotonic.Some?)
    && (forall i :: 1 <= i < |rows| ==> rows[i - 1].monotonic.value < rows[i].monotonic.value)
    && (forall i, n :: 0 <= i < |rows| && 0 <= n < |rows[i].gpus| && rows[i].gpus[n].value.Some? ==> rows[i].gpus[n].value.value >= 0.0)
  }

  lemma {:induction false} OfflineEqualsOnline(rows: seq<Row>)
    requires OneSampler(rows)
    ensures OrZero(Account(rows).delta) == OnlineTotal(rows)
  {
    if rows != [] {
      var front, row := rows[..|rows| - 1], rows[|rows| - 1];
      assert rows == front + [row];
      assert forall i :: 0 <= i < |front| ==> front[i] == rows[i];
      OfflineEqualsOnline(front);
      RowAgrees(Account(front), front, row, |row.gpus|);
    }
  }

  lemma {:induction false} RowAgrees(c: Counter, front: seq<Row>, row: Row, n: nat)
    requires OneSampler(front + [row]) && n <= |row.gpus|
    ensures OrZero(CountRow(c, LastSamples(front), row, n).delta)
         == OrZero(c.delta) + Total(OnlineDeltas(LastValues(front), row.gpus, n))
  {
    if n > 0 {
      RowAgrees(c, front, row, n - 1);
      GpuAgrees(CountRow(c, LastSamples(front), row, n - 1), front, row, n - 1);
    }
  }

  lemma GpuAgrees(c: Counter, front: seq<Row>, row: Row, n: nat)
    requires OneSampler(front + [row]) && n < |row.gpus|
    ensures OrZero(CountGpu(c, LastSamples(front), row, row.gpus[n]).delta)
         == OrZero(c.delta) + OrZero(OnlineDelta(LastValues(front), row.gpus[n]))
  {
    var rows := front + [row];
    var g := row.gpus[n];
    assert rows[|front|] == row && rows[|front|].gpus[n] == g;
    if front != [] && Identified(g) {
      var last := front[|front| - 1];
      assert rows[|front| - 1] == last && rows[0].hostname == row.hostname == last.hostname;
      assert last.monotonic.value < row.monotonic.value;
      SamplesAreValues(last, |last.gpus|, g.uuid.value);
      if KeyOf(row, g) in LastSamples(front) {
        var k := SampleSource(last, |last.gpus|, g.uuid.value);
        assert rows[|front| - 1].gpus[k] == last.gpus[k];
      }
    }
  }

  lemma {:induction false} SamplesAreValues(row: Row, n: nat, uuid: string)
    requires n <= |row.gpus|
    ensures Key(row.hostname, uuid) in Samples(row, n) <==> uuid in Values(row.gpus, n)
    ensures uuid in Values(row.gpus, n) ==> Samples(row, n)[Key(row.hostname, uuid)].value == Values(row.gpus, n)[uuid]
  {
    if n > 0 { SamplesAreValues(row, n - 1, uuid); }
  }

  lemma {:induction false} SampleSource(row: Row, n: nat, uuid: string) returns (k: nat)
    requires n <= |row.gpus| && Key(row.hostname, uuid) in Samples(row, n)
    ensures k < n && Identified(row.gpus[k]) && row.gpus[k].uuid.value == uuid
    ensures Samples(row, n)[Key(row.hostname, uuid)] == EntryOf(row, row.gpus[k])
  {
    if Identified(row.gpus[n - 1]) && row.gpus[n - 1].uuid.value == uuid {
      k := n - 1;
    } else {
      k := SampleSource(row, n - 1, uuid);
    }
  }

  // ---- an available account telescopes ------------------------------------------------------

  ghost predicate DistinctGpus(row: Row) {
    forall i, j :: 0 <= i < j < |row.gpus| && Identified(row.gpus[i]) && Identified(row.gpus[j]) ==>
      row.gpus[i].uuid != row.gpus[j].uuid
  }

  predicate Clean(c: Counter) {
    c.resets == 0 && c.unavailable == 0 && c.discontinuities == 0
  }

  // later minus earlier for one GPU, zero when either value is missing.
  function Gain(earlier: map<Key, Entry>, later: map<Key, Entry>, k: Key): real {
    if k in earlier && k in later && earlier[k].value.Some? && later[k].value.Some?
    then later[k].value.value - earlier[k].value.value else 0.0
  }

  // Each GPU's first sample of the trial.
  function FirstSamples(rows: seq<Row>): map<Key, Entry> {
    if rows == [] then map[]
    else RowSamples(rows[|rows| - 1]) + FirstSamples(rows[..|rows| - 1])
  }

  ghost function Sum(keys: set<Key>, w: Key -> real): real {
    if keys == {} then 0.0
    else
      var k :| k in keys;
      w(k) + Sum(keys - {k}, w)
  }

  lemma {:induction false} SumRemove(keys: set<Key>, w: Key -> real, k: Key)
    requires k in keys
    ensures Sum(keys, w) == w(k) + Sum(keys - {k}, w)
  {
    var y :| y in keys && Sum(keys, w) == w(y) + Sum(keys - {y}, w);
    if y != k {
      SumRemove(keys - {y}, w, k);
      SumRemove(keys - {k}, w, y);
      assert keys - {y} - {k} == keys - {k} - {y};
    }
  }

  lemma {:induction false} SumAdds(keys: set<Key>, a: Key -> real, b: Key -> real, c: Key -> real)
    requires forall k :: k in keys ==> c(k) == a(k) + b(k)
    ensures Sum(keys, c) == Sum(keys, a) + Sum(keys, b)
  {
    if keys != {} {
      var k :| k in keys;
      SumRemove(keys, a, k);
      SumRemove(keys, b, k);
      SumRemove(keys, c, k);
      SumAdds(keys - {k}, a, b, c);
    }
  }

  lemma NothingLeft(a: set<Key>, b: set<Key>)
    requires |a - b| == 0
    ensures a <= b
  {
    assert a - b == {};
    assert forall k :: k in a ==> k in b || k in a - b;
  }

  lemma {:induction false} SumIgnoresZeros(keys: set<Key>, more: set<Key>, w: Key -> real)
    requires keys <= more && forall k :: k in more - keys ==> w(k) == 0.0
    ensures Sum(more, w) == Sum(keys, w)
    decreases more - keys
  {
    if more - keys != {} {
      var k :| k in more - keys;
      SumRemove(more, w, k);
      SumIgnoresZeros(keys, more - {k}, w);
    } else {
      NothingLeft(more, keys);
      assert more == keys;
    }
  }

  ghost function GainOf(earlier: map<Key, Entry>, later: map<Key, Entry>): Key -> real {
    k => Gain(earlier, later, k)
  }

  lemma {:induction false} SamplesSource(row: Row, n: nat, k: Key) returns (i: nat)
    requires n <= |row.gpus| && k in Samples(row, n)
    ensures i < n && Identified(row.gpus[i]) && KeyOf(row, row.gpus[i]) == k && Samples(row, n)[k] == EntryOf(row, row.gpus[i])
  {
    if Identified(row.gpus[n - 1]) && KeyOf(row, row.gpus[n - 1]) == k {
      i := n - 1;
    } else {
      i := SamplesSource(row, n - 1, k);
    }
  }

  lemma {:induction false} SamplesSettle(row: Row, n: nat, m: nat)
    requires n <= m <= |row.gpus| && DistinctGpus(row)
    ensures forall k :: k in Samples(row, n) ==> k in Samples(row, m) && Samples(row, m)[k] == Samples(row, n)[k]
  {
    if n < m {
      SamplesSettle(row, n, m - 1);
      forall k | k in Samples(row, n) ensures k in Samples(row, m) && Samples(row, m)[k] == Samples(row, n)[k] {
        var i := SamplesSource(row, n, k);
      }
    }
  }

  lemma {:induction false} CleanBefore(c: Counter, previous: map<Key, Entry>, row: Row, n: nat)
    requires n <= |row.gpus| && Clean(CountRow(c, previous, row, n))
    ensures Clean(c)
  {
    if n > 0 { CleanBefore(c, previous, row, n - 1); }
  }

  // One clean row adds what its continuing GPUs gained since the row before.
  lemma {:induction false} CleanRowGains(c: Counter, previous: map<Key, Entry>, row: Row, n: nat)
    requires n <= |row.gpus| && DistinctGpus(row) && Clean(CountRow(c, previous, row, n))
    ensures OrZero(CountRow(c, previous, row, n).delta)
         == OrZero(c.delta) + Sum(Samples(row, n).Keys * previous.Keys, GainOf(previous, RowSamples(row)))
    ensures forall k :: k in Samples(row, n) && k in previous ==> Samples(row, n)[k].value.Some? && previous[k].value.Some?
  {
    var w := GainOf(previous, RowSamples(row));
    if n > 0 {
      CleanRowGains(c, previous, row, n - 1);
      var g := row.gpus[n - 1];
      assert Identified(g);
      var k := KeyOf(row, g);
      NewKey(row, n);
      SamplesSettle(row, n, |row.gpus|);
      assert RowSamples(row)[k] == EntryOf(row, g);
      if k in previous {
        var keys := Samples(row, n).Keys * previous.Keys;
        SumRemove(keys, w, k);
        assert keys - {k} == Samples(row, n - 1).Keys * previous.Keys;
      } else {
        assert Samples(row, n).Keys * previous.Keys == Samples(row, n - 1).Keys * previous.Keys;
      }
    } else {
      assert Samples(row, 0).Keys * previous.Keys == {};
    }
  }

  lemma NewKey(row: Row, n: nat)
    requires 0 < n <= |row.gpus| && DistinctGpus(row) && Identified(row.gpus[n - 1])
    ensures KeyOf(row, row.gpus[n - 1]) !in Samples(row, n - 1)
  {
    if KeyOf(row, row.gpus[n - 1]) in Samples(row, n - 1) {
      var i := SamplesSource(row, n - 1, KeyOf(row, row.gpus[n - 1]));
      assert false;
    }
  }

  // With distinct UUIDs per row, an available account is the sum over GPUs of last minus
  // first: no interval was skipped, so none was bridged.
  lemma {:induction false} AvailableTelescopes(rows: seq<Row>)
    requires forall i :: 0 <= i < |rows| ==> DistinctGpus(rows[i])
    requires Clean(Account(rows))
    ensures Telescoped(OrZero(Account(rows).delta), FirstSamples(rows), LastSamples(rows))
    ensures AvailabilityOf(Account(rows)) == Available ==>
              Account(rows).delta == Some(Sum(LastSamples(rows).Keys, GainOf(FirstSamples(rows), LastSamples(rows))))
  {
    if rows != [] {
      var front, row := rows[..|rows| - 1], rows[|rows| - 1];
      CleanStep(rows);
      CleanBefore(Account(front), LastSamples(front), row, |row.gpus|);
      AvailableTelescopes(front);
      CleanRowGains(Account(front), LastSamples(front), row, |row.gpus|);
      StepTelescopes(OrZero(Account(front).delta), OrZero(Account(rows).delta), FirstSamples(front), LastSamples(front), RowSamples(row));
    }
  }

  // The same GPUs throughout, and the delta is the sum of their gains.
  ghost predicate Telescoped(delta: real, first: map<Key, Entry>, last: map<Key, Entry>) {
    && first.Keys == last.Keys
    && (forall k :: k in last && last[k].value.Some? ==> first[k].value.Some?)
    && delta == Sum(last.Keys, GainOf(first, last))
  }

  // A clean account loses no GPU at its last row.
  lemma CleanStep(rows: seq<Row>)
    requires rows != [] && Clean(Account(rows))
    ensures var front, row := rows[..|rows| - 1], rows[|rows| - 1];
            var c := CountRow(Account(front), LastSamples(front), row, |row.gpus|);
            Clean(c) && Account(rows).delta == c.delta && LastSamples(front).Keys <= RowSamples(row).Keys
  {
    var front, row := rows[..|rows| - 1], rows[|rows| - 1];
    NothingLeft(LastSamples(front).Keys, RowSamples(row).Keys);
  }

  lemma StepTelescopes(before: real, after: real, first: map<Key, Entry>, previous: map<Key, Entry>, current: map<Key, Entry>)
    requires Telescoped(before, first, previous) && previous.Keys <= current.Keys
    requires forall k :: k in current && k in previous ==> current[k].value.Some? && previous[k].value.Some?
    requires after == before + Sum(current.Keys * previous.Keys, GainOf(previous, current))
    ensures Telescoped(after, current + first, current)
  {
    assert current.Keys * previous.Keys == previous.Keys;
    var whole := GainOf(current + first, current);
    SumIgnoresZeros(previous.Keys, current.Keys, whole);
    SumAdds(previous.Keys, GainOf(first, previous), GainOf(previous, current), whole);
  }
}
