/**
 * The sensor routes (server/routes/sensors.ts): the fixed sensor list, and the time grid
 * `sensorData` fills with one sample per step between the start and end times.
 *
 * Times are millisecond timestamps; the sample value at a time is a parameter.
 */
module Sensors {
  import opened Wrappers

  datatype Location = Location(x: real, y: real)

  /** The `meta` object of a sensor. */
  datatype Meta = Meta(vendor: string)

  /** A sensor; `label_` is the source's `label`, a word Dafny reserves. */
  datatype Sensor = Sensor(id: string, label_: string, location: Location, meta: Meta)

  /** The reply of `listSensors`: the sensors and `meta.total`. */
  datatype SensorList = SensorList(sensors: seq<Sensor>, total: nat)

  /** One grid point: a time and the sample taken at it. */
  datatype Sample = Sample(time: int, value: real)

  /** The reply of `sensorData`: the sensor id and aggregation echoed, and the points. */
  datatype SensorReply = SensorReply(sensorId: string, agg: string, data: seq<Sample>)

  const Minute: int := 60000
  const Hour: int := 3600000
  const Day: int := 86400000
  const DefaultAgg: string := "1hr"

  function Sensors(): seq<Sensor> {
    [ Sensor("s_1", "Pier Temp Probe", Location(-122.41, 37.79), Meta("Acme")),
      Sensor("s_2", "Buoy 7 pH", Location(-122.50, 37.80), Meta("OceanX")) ]
  }

  /** `listSensors`: every sensor, and a total that counts them. */
  function ListSensors(): (r: SensorList)
    ensures r.sensors == Sensors() && r.total == |r.sensors| == 2
  {
    SensorList(Sensors(), |Sensors()|)
  }

  /** The grid step: one minute for "raw" and "1min", one hour for every other aggregation. */
  function StepFor(agg: string): (step: int)
    ensures step > 0
    ensures step == Minute <==> agg == "raw" || agg == "1min"
    ensures step == Minute || step == Hour
  {
    if agg == "raw" then Minute else if agg == "1min" then Minute else Hour
  }

  /** The number of grid points from `t0` to `t1` inclusive. */
  function GridSize(t0: int, t1: int, step: int): nat
    requires step > 0
  {
    if t0 > t1 then 0 else (t1 - t0) / step + 1
  }

  /** A product with a positive factor is positive only when the other factor is. */
  lemma PositiveFactor(x: int, step: int)
    requires step > 0 && x * step > 0
    ensures x > 0
  {
  }

  /** `a / step` is the `k` with `k * step <= a < (k + 1) * step`. */
  lemma DivisionBetween(a: int, step: int, k: nat)
    requires step > 0 && k * step <= a < (k + 1) * step
    ensures a / step == k
  {
    var q, r := a / step, a % step;
    assert a == q * step + r && 0 <= r < step;
    assert (q - k + 1) * step == q * step - k * step + step;
    PositiveFactor(q - k + 1, step);
    assert (k + 1 - q) * step == (k + 1) * step - q * step;
    PositiveFactor(k + 1 - q, step);
  }

  /**
   * `sensorData`: starting at the start time (a day before `now` when absent), one sample every
   * step while the time is not past the end time (`now` when absent).
   */
  method SensorData(id: string, start: Option<int>, end: Option<int>, agg: Option<string>, now: int,
                    sample: int -> real) returns (r: SensorReply)
    ensures r.sensorId == id && r.agg == agg.GetOr(DefaultAgg)
    ensures var t0 := start.GetOr(now - Day);
            var t1 := end.GetOr(now);
            var step := StepFor(r.agg);
            && |r.data| == GridSize(t0, t1, step)
            && (forall i :: 0 <= i < |r.data| ==> r.data[i] == Sample(t0 + i * step, sample(t0 + i * step)))
            && (forall i :: 0 <= i < |r.data| ==> t0 <= r.data[i].time <= t1)
            && (|r.data| > 0 ==> r.data[|r.data| - 1].time + step > t1)
  {
    var a := if agg.Some? then agg.value else DefaultAgg;
    var t0 := if start.Some? then start.value else now - Day;
    var t1 := if end.Some? then end.value else now;
    var points: seq<Sample> := [];
    var step := StepFor(a);
    var t := t0;
    while t <= t1
      invariant t == t0 + |points| * step
      invariant |points| > 0 ==> t0 + (|points| - 1) * step <= t1
      invariant forall i :: 0 <= i < |points| ==> points[i] == Sample(t0 + i * step, sample(t0 + i * step))
      invariant forall i :: 0 <= i < |points| ==> t0 <= points[i].time <= t1
      decreases t1 - t
    {
      NextStep(t0, |points|, step);
      points := points + [Sample(t, sample(t))];
      t := t + step;
    }
    GridEnd(t0, t1, step, |points|);
    r := SensorReply(id, a, points);
  }

  /** One step further along the grid. */
  lemma NextStep(t0: int, n: nat, step: int)
    ensures t0 + n * step + step == t0 + (n + 1) * step
  {
  }

  /** A grid of `n` points whose next point would pass `t1` has `GridSize` points. */
  lemma GridEnd(t0: int, t1: int, step: int, n: nat)
    requires step > 0
    requires t0 + n * step > t1
    requires n > 0 ==> t0 + (n - 1) * step <= t1
    requires n == 0 ==> t0 > t1
    ensures n == GridSize(t0, t1, step)
  {
    if n > 0 {
      NextStep(t0, n - 1, step);
      DivisionBetween(t1 - t0, step, n - 1);
    }
  }
}
