/**
 * The chart of the terminal application: zero offsets, the bounded history of corrected
 * readings, the auto-range step taken on every reading, and what `render` hands to the
 * plotting library. NaN history entries are the explicit `NoData` tag; readings are exact reals.
 */
module ChartView {
  import opened Results
  import opened Oversample
  import opened AutoRange

  /** `history_length`: the capacity of the history deque. */
  const HistoryLength: int := 1024

  /** Columns of the widget that are not plot area. */
  const RenderMargin: int := 13

  /** Rows of the widget that are not plot area. */
  const PlotMargin: int := 5

  /** Above this magnitude (microtesla) the chart switches to millitesla. */
  const MilliThreshold: real := 1000.0

  /** One history entry `(0, x, y, z, mag)`; `NoData` is the `(0, nan, nan, nan, nan)` filler. */
  datatype Entry = NoData | Sample(x: real, y: real, z: real, mag: real)

  /** A plotted value: a number, or NaN for a filler entry. */
  datatype Value = NaN | Num(v: real)

  datatype Unit = Micro | Milli

  /** The four plotted series of an entry (the constant first column is the `baseline` of a frame). */
  datatype Channel = XChannel | YChannel | ZChannel | MagChannel

  /** The Chart widget's fields. */
  datatype ChartState = ChartState(
    height: int, width: int,
    zeroX: real, zeroY: real, zeroZ: real,
    scale: int,
    history: seq<Entry>)

  /** The invariant of a mounted chart: a full history whose newest entry is a reading, and a usable scale index. */
  predicate Wellformed(s: ChartState, scales: seq<int>) {
    && |s.history| == HistoryLength
    && s.history[HistoryLength - 1].Sample?
    && InRange(scales, s.scale)
  }

  // ---------------------------------------------------------------- the history deque

  /** `deque.append` with `maxlen = HistoryLength`: a full deque drops its oldest entry. */
  function Push(h: seq<Entry>, e: Entry): seq<Entry> {
    if |h| < HistoryLength then h + [e] else h[|h| - HistoryLength + 1..] + [e]
  }

  /** Appending the entries of `es` one after another. */
  function PushAll(h: seq<Entry>, es: seq<Entry>): seq<Entry>
    decreases |es|
  {
    if es == [] then h else PushAll(Push(h, es[0]), es[1..])
  }

  /** A full history stays full, loses its oldest entry and ends with the new one. */
  lemma PushFull(h: seq<Entry>, e: Entry)
    requires |h| == HistoryLength
    ensures |Push(h, e)| == HistoryLength
    ensures Push(h, e)[..HistoryLength - 1] == h[1..]
    ensures Push(h, e)[HistoryLength - 1] == e
  {
  }

  /** After any run of appends a full history holds exactly the newest `HistoryLength` entries seen. */
  lemma {:induction false} PushAllKeepsNewest(h: seq<Entry>, es: seq<Entry>)
    requires |h| == HistoryLength
    ensures PushAll(h, es) == (h + es)[|es|..]
    decreases |es|
  {
    if es != [] {
      var h' := Push(h, es[0]);
      assert h' == h[1..] + [es[0]];
      PushAllKeepsNewest(h', es[1..]);
      assert h' + es[1..] == (h + es)[1..];
    }
  }

  // ---------------------------------------------------------------- on_mount, zero, read_sensor, on_resize

  /** The state `on_mount` leaves: unsized, no offsets, scale 0, and a full deque of fillers with the one zero entry appended. */
  function Mounted(): ChartState {
    ChartState(-1, -1, 0.0, 0.0, 0.0, 0, Push(seq(HistoryLength, _ => NoData), Sample(0.0, 0.0, 0.0, 0.0)))
  }

  /** After mounting: 1023 fillers followed by a single all-zero reading, and the invariant holds. */
  lemma MountedShape(scales: seq<int>)
    ensures Wellformed(Mounted(), scales)
    ensures forall i :: 0 <= i < HistoryLength - 1 ==> Mounted().history[i] == NoData
    ensures Mounted().history[HistoryLength - 1] == Sample(0.0, 0.0, 0.0, 0.0)
  {
  }

  /** `history[-1]`. */
  function Latest(s: ChartState): Entry
    requires s.history != []
  {
    s.history[|s.history| - 1]
  }

  /** `zero_x`: add the newest reading's x to the x offset. */
  function ZeroedX(s: ChartState): ChartState
    requires s.history != [] && Latest(s).Sample?
  {
    s.(zeroX := s.zeroX + Latest(s).x)
  }

  /** `zero_y`. */
  function ZeroedY(s: ChartState): ChartState
    requires s.history != [] && Latest(s).Sample?
  {
    s.(zeroY := s.zeroY + Latest(s).y)
  }

  /** `zero_z`. */
  function ZeroedZ(s: ChartState): ChartState
    requires s.history != [] && Latest(s).Sample?
  {
    s.(zeroZ := s.zeroZ + Latest(s).z)
  }

  /** `mag` is the Euclidean norm of (x, y, z): the value `sqrt` returns. */
  predicate IsMagnitude(mag: real, x: real, y: real, z: real) {
    mag >= 0.0 && mag * mag == x * x + y * y + z * z
  }

  /**
   * `read_sensor`, given what `sensor.read(self.scale)` returned: subtract the offsets, take
   * one auto-range step on the corrected values, and append the corrected reading with its magnitude.
   */
  function Recorded(s: ChartState, scales: seq<int>, raw: Vec3, mag: real): ChartState
    requires Wellformed(s, scales)
  {
    var x, y, z := raw.x - s.zeroX, raw.y - s.zeroY, raw.z - s.zeroZ;
    s.(scale := NextScale(scales, s.scale, x, y, z), history := Push(s.history, Sample(x, y, z, mag)))
  }

  /** `on_resize`. */
  function Resized(s: ChartState, height: int, width: int): ChartState {
    s.(height := height, width := width)
  }

  /**
   * A reading keeps the invariant: the history stays full, its oldest entry is evicted, the
   * newest entry is the raw reading minus the offsets the chart held, and the scale moves at
   * most one step within the table. Offsets and size are untouched.
   */
  lemma RecordedEffect(s: ChartState, scales: seq<int>, raw: Vec3, mag: real)
    requires Wellformed(s, scales)
    ensures var r := Recorded(s, scales, raw, mag);
      && Wellformed(r, scales)
      && r.history[..HistoryLength - 1] == s.history[1..]
      && Latest(r) == Sample(raw.x - s.zeroX, raw.y - s.zeroY, raw.z - s.zeroZ, mag)
      && s.scale - 1 <= r.scale <= s.scale + 1
      && (scales == [] ==> r.scale == s.scale)
      && r.zeroX == s.zeroX && r.zeroY == s.zeroY && r.zeroZ == s.zeroZ
      && r.height == s.height && r.width == s.width
  {
    PushFull(s.history, Sample(raw.x - s.zeroX, raw.y - s.zeroY, raw.z - s.zeroZ, mag));
  }

  /** A reading keeps the invariant. */
  lemma RecordedWellformed(s: ChartState, scales: seq<int>, raw: Vec3, mag: real)
    requires Wellformed(s, scales)
    ensures Wellformed(Recorded(s, scales, raw, mag), scales)
  {
    PushFull(s.history, Sample(raw.x - s.zeroX, raw.y - s.zeroY, raw.z - s.zeroZ, mag));
  }

  /** Zeroing before any reading is a no-op: the mounted zero entry adds nothing. */
  lemma ZeroBeforeReadIsNoOp()
    ensures ZeroedX(Mounted()) == Mounted()
    ensures ZeroedY(Mounted()) == Mounted()
    ensures ZeroedZ(Mounted()) == Mounted()
  {
    var m := Mounted();
    MountedShape([]);
    assert Latest(m) == Sample(0.0, 0.0, 0.0, 0.0);
    assert ZeroedX(m) == m.(zeroX := 0.0);
  }

  /** Zeroing right after a reading makes the offset equal that reading's raw value. */
  lemma ZeroAfterReadTakesRawValue(s: ChartState, scales: seq<int>, raw: Vec3, mag: real)
    requires Wellformed(s, scales)
    ensures ZeroedX(Recorded(s, scales, raw, mag)).zeroX == raw.x
    ensures ZeroedY(Recorded(s, scales, raw, mag)).zeroY == raw.y
    ensures ZeroedZ(Recorded(s, scales, raw, mag)).zeroZ == raw.z
  {
    RecordedEffect(s, scales, raw, mag);
  }

  /** After zeroing, the same raw field reads as zero on that axis. */
  lemma SteadyFieldReadsZero(s: ChartState, scales: seq<int>, raw: Vec3, mag: real, mag': real)
    requires Wellformed(s, scales)
    ensures var z := ZeroedX(Recorded(s, scales, raw, mag));
      Wellformed(z, scales) && Latest(Recorded(z, scales, raw, mag')).x == 0.0
  {
    RecordedEffect(s, scales, raw, mag);
    var z := ZeroedX(Recorded(s, scales, raw, mag));
    RecordedEffect(z, scales, raw, mag');
  }

  /** Each zero action changes only its own offset, so the three commute. */
  lemma ZeroActionsIndependent(s: ChartState)
    requires s.history != [] && Latest(s).Sample?
    ensures ZeroedX(s).history == s.history && ZeroedY(s).history == s.history
    ensures ZeroedX(ZeroedY(s)) == ZeroedY(ZeroedX(s))
    ensures ZeroedY(ZeroedZ(s)) == ZeroedZ(ZeroedY(s))
    ensures ZeroedX(ZeroedZ(s)) == ZeroedZ(ZeroedX(s))
    ensures ZeroedX(s).zeroY == s.zeroY && ZeroedX(s).zeroZ == s.zeroZ && ZeroedX(s).scale == s.scale
    ensures ZeroedY(s).zeroX == s.zeroX && ZeroedY(s).zeroZ == s.zeroZ && ZeroedY(s).scale == s.scale
    ensures ZeroedZ(s).zeroX == s.zeroX && ZeroedZ(s).zeroY == s.zeroY && ZeroedZ(s).scale == s.scale
  {
  }

  /** Offsets are additive: zeroing twice without a reading in between adds the newest value twice. */
  lemma ZeroTwiceAddsTwice(s: ChartState)
    requires s.history != [] && Latest(s).Sample?
    ensures ZeroedX(ZeroedX(s)).zeroX == s.zeroX + 2.0 * Latest(s).x
  {
  }

  // ---------------------------------------------------------------- render

  /** Python's `l[-w:]`: the last `w` entries for a positive `w`, all of them for 0, and all but the first `-w` for a negative `w`. */
  function PySuffix<T>(l: seq<T>, w: int): (r: seq<T>)
    ensures |r| <= |l|
  {
    var start := if w > 0 then (if |l| - w > 0 then |l| - w else 0) else (if -w < |l| then -w else |l|);
    l[start..]
  }

  /** The window is the newest entries: exactly the last `w` when 1 <= w <= |l|, and everything for `w = 0`. */
  lemma PySuffixWindow<T>(l: seq<T>, w: int)
    ensures 1 <= w <= |l| ==> PySuffix(l, w) == l[|l| - w..] && |PySuffix(l, w)| == w
    ensures w > |l| ==> PySuffix(l, w) == l
    ensures w == 0 ==> PySuffix(l, w) == l
    ensures -|l| < w < 0 ==> PySuffix(l, w) == l[-w..] && PySuffix(l, w) != []
    ensures w <= -|l| ==> PySuffix(l, w) == []
  {
  }

  /** The maximum magnitude among the readings of `es` (the finite values), if there is one. */
  function MaxMag(es: seq<Entry>): (m: Option<real>)
    ensures m.None? <==> forall i :: 0 <= i < |es| ==> es[i] == NoData
    ensures m.Some? ==> (forall i :: 0 <= i < |es| && es[i].Sample? ==> es[i].mag <= m.value)
    ensures m.Some? ==> exists i :: 0 <= i < |es| && es[i].Sample? && es[i].mag == m.value
  {
    if es == [] then None
    else
      var rest := MaxMag(es[1..]);
      match es[0]
      case NoData => rest
      case Sample(_, _, _, mag) =>
        if rest.None? || mag >= rest.value then Some(mag) else rest
  }

  /** A value in a unit is the microtesla value, divided by 1000 for millitesla. */
  function InUnit(v: real, unit: Unit): real {
    if unit == Milli then v / 1000.0 else v
  }

  /** One value of a series, in the chosen unit (NaN stays NaN). */
  function Component(e: Entry, c: Channel, unit: Unit): Value {
    match e
    case NoData => NaN
    case Sample(x, y, z, mag) =>
      var v := match c case XChannel => x case YChannel => y case ZChannel => z case MagChannel => mag;
      Num(InUnit(v, unit))
  }

  /** One plotted series: a channel of every entry in the window. */
  function Series(window: seq<Entry>, c: Channel, unit: Unit): (r: seq<Value>)
    ensures |r| == |window|
  {
    seq(|window|, i requires 0 <= i < |window| => Component(window[i], c, unit))
  }

  /** What `render` produces: nothing yet, the exception it raises, or the plot input and readouts. */
  datatype Rendering =
    | Blank
    | Failed(error: Error)
    | Frame(plotHeight: int, unit: Unit, baseline: seq<real>,
            xs: seq<Value>, ys: seq<Value>, zs: seq<Value>, mags: seq<Value>,
            x: Value, y: Value, z: Value, mag: Value)

  /** The unit `render` picks for a window: millitesla when its largest magnitude exceeds 1000. */
  function UnitFor(window: seq<Entry>): Unit
    requires MaxMag(window).Some?
  {
    if MaxMag(window).value > MilliThreshold then Milli else Micro
  }

  /** The plot input of a non-empty window in a unit: the series, a zero baseline, and the newest value of each series. */
  function FrameFor(height: int, window: seq<Entry>, unit: Unit): Rendering
    requires window != []
  {
    var xs, ys, zs, mags :=
      Series(window, XChannel, unit), Series(window, YChannel, unit),
      Series(window, ZChannel, unit), Series(window, MagChannel, unit);
    var n := |window|;
    Frame(height - PlotMargin, unit, seq(n, _ => 0.0),
          xs, ys, zs, mags, xs[n - 1], ys[n - 1], zs[n - 1], mags[n - 1])
  }

  /**
   * `render`: blank until both dimensions are known; otherwise the window of the last
   * `width - 13` entries of every series, the unit chosen from the largest finite magnitude
   * in the window, and the newest value of each series as the readout. A window holding no
   * reading makes `max` raise ValueError.
   */
  function Render(s: ChartState): Rendering {
    if s.height == -1 || s.width == -1 then Blank
    else
      var window := PySuffix(s.history, s.width - RenderMargin);
      if MaxMag(window).None? then Failed(ValueError)
      else FrameFor(s.height, window, UnitFor(window))
  }

  /** `render` returns the empty string exactly while a dimension is still unknown. */
  lemma RenderBlankUntilSized(s: ChartState)
    ensures Render(s).Blank? <==> s.height == -1 || s.width == -1
  {
  }

  /**
   * On a mounted chart that has been sized, `render` fails exactly when the window is empty,
   * which takes a width of at most 13 - 1024; any other width yields a frame.
   */
  lemma RenderFailsOnlyOnEmptyWindow(s: ChartState, scales: seq<int>)
    requires Wellformed(s, scales) && s.height != -1 && s.width != -1
    ensures Render(s).Failed? <==> s.width - RenderMargin <= -HistoryLength
    ensures Render(s).Failed? ==> Render(s).error == ValueError
    ensures Render(s).Frame? <==> s.width - RenderMargin > -HistoryLength
  {
    var w := s.width - RenderMargin;
    var window := PySuffix(s.history, w);
    PySuffixWindow(s.history, w);
    if w > -HistoryLength {
      assert window[|window| - 1] == s.history[HistoryLength - 1];
      assert window[|window| - 1].Sample?;
    }
  }

  /**
   * For a width with 1 <= width - 13 <= 1024 every series holds exactly the newest
   * `width - 13` history entries, in order, and the baseline is that many zeros.
   */
  lemma RenderWindow(s: ChartState, i: int)
    requires |s.history| == HistoryLength && Render(s).Frame?
    requires 1 <= s.width - RenderMargin <= HistoryLength
    requires 0 <= i < s.width - RenderMargin
    ensures var f := Render(s); var w := s.width - RenderMargin;
      && |f.xs| == w && |f.ys| == w && |f.zs| == w && |f.mags| == w && |f.baseline| == w
      && f.xs[i] == Component(s.history[HistoryLength - w + i], XChannel, f.unit)
      && f.ys[i] == Component(s.history[HistoryLength - w + i], YChannel, f.unit)
      && f.zs[i] == Component(s.history[HistoryLength - w + i], ZChannel, f.unit)
      && f.mags[i] == Component(s.history[HistoryLength - w + i], MagChannel, f.unit)
      && f.baseline[i] == 0.0
      && f.plotHeight == s.height - PlotMargin
  {
    PySuffixWindow(s.history, s.width - RenderMargin);
  }

  /**
   * The unit is millitesla, with every value divided by 1000, exactly when the largest
   * magnitude among the window's readings exceeds 1000; otherwise the values are unscaled.
   */
  lemma RenderUnit(s: ChartState)
    requires Render(s).Frame?
    ensures var window := PySuffix(s.history, s.width - RenderMargin);
      && MaxMag(window).Some?
      && (Render(s).unit == Milli <==> MaxMag(window).value > 1000.0)
      && (Render(s).unit == Milli <==>
            exists i :: 0 <= i < |window| && window[i].Sample? && window[i].mag > 1000.0)
  {
    var window := PySuffix(s.history, s.width - RenderMargin);
    var m := MaxMag(window);
    if m.value > 1000.0 {
      var i :| 0 <= i < |window| && window[i].Sample? && window[i].mag == m.value;
      assert window[i].mag > 1000.0;
    }
  }

  /** The readouts of a frame are the channels of the window's newest entry. */
  lemma FrameReadouts(height: int, window: seq<Entry>, unit: Unit)
    requires window != []
    ensures var f := FrameFor(height, window, unit); var e := window[|window| - 1];
      && f.x == Component(e, XChannel, unit) && f.y == Component(e, YChannel, unit)
      && f.z == Component(e, ZChannel, unit) && f.mag == Component(e, MagChannel, unit)
  {
  }

  /** The channels of a reading are its fields in the unit. */
  lemma SampleComponents(e: Entry, unit: Unit)
    requires e.Sample?
    ensures Component(e, XChannel, unit) == Num(InUnit(e.x, unit))
    ensures Component(e, YChannel, unit) == Num(InUnit(e.y, unit))
    ensures Component(e, ZChannel, unit) == Num(InUnit(e.z, unit))
    ensures Component(e, MagChannel, unit) == Num(InUnit(e.mag, unit))
  {
  }

  /** On a mounted chart a frame is the plot input of a window that ends with the newest entry. */
  lemma RenderedWindow(s: ChartState, scales: seq<int>)
    requires Wellformed(s, scales) && Render(s).Frame?
    ensures var window := PySuffix(s.history, s.width - RenderMargin);
      && window != [] && window[|window| - 1] == Latest(s) && MaxMag(window).Some?
      && Render(s) == FrameFor(s.height, window, UnitFor(window))
  {
    PySuffixWindow(s.history, s.width - RenderMargin);
  }

  /** On a mounted chart the readouts are the corrected newest reading, in the frame's unit. */
  lemma RenderReadouts(s: ChartState, scales: seq<int>)
    requires Wellformed(s, scales) && Render(s).Frame?
    ensures var f := Render(s); var l := Latest(s);
      && f.x == Num(InUnit(l.x, f.unit)) && f.y == Num(InUnit(l.y, f.unit))
      && f.z == Num(InUnit(l.z, f.unit)) && f.mag == Num(InUnit(l.mag, f.unit))
  {
    var window := PySuffix(s.history, s.width - RenderMargin);
    RenderedWindow(s, scales);
    FrameReadouts(s.height, window, UnitFor(window));
    SampleComponents(Latest(s), UnitFor(window));
  }

  // ---------------------------------------------------------------- the widget and the app

  /** The Chart widget. `scales` is the table of the sensor in use. */
  class Chart {
    const scales: seq<int>
    var height: int
    var width: int
    var zeroX: real
    var zeroY: real
    var zeroZ: real
    var scale: int
    var history: seq<Entry>

    function State(): ChartState
      reads this
    {
      ChartState(height, width, zeroX, zeroY, zeroZ, scale, history)
    }

    ghost predicate Valid()
      reads this
    {
      Wellformed(State(), scales)
    }

    /** `on_mount` (the refresh timer is not modelled). */
    constructor(scales: seq<int>)
      ensures this.scales == scales
      ensures State() == Mounted() && Valid()
    {
      this.scales := scales;
      height, width := -1, -1;
      zeroX, zeroY, zeroZ := 0.0, 0.0, 0.0;
      scale := 0;
      var h := seq(HistoryLength, _ => NoData);
      h := Push(h, Sample(0.0, 0.0, 0.0, 0.0));
      history := h;
      new;
      MountedShape(scales);
    }

    method ZeroX()
      requires Valid()
      modifies this
      ensures State() == ZeroedX(old(State())) && Valid()
    {
      zeroX := zeroX + history[|history| - 1].x;
    }

    method ZeroY()
      requires Valid()
      modifies this
      ensures State() == ZeroedY(old(State())) && Valid()
    {
      zeroY := zeroY + history[|history| - 1].y;
    }

    method ZeroZ()
      requires Valid()
      modifies this
      ensures State() == ZeroedZ(old(State())) && Valid()
    {
      zeroZ := zeroZ + history[|history| - 1].z;
    }

    /**
     * `read_sensor`; `raw` is what `sensor.read(scale)` returned and `mag` the `sqrt` of the corrected
     * squares. `LiveChart.ReadSensorLis3mdl` composes it with an LIS3MDL variant's `read`.
     */
    method ReadSensor(raw: Vec3, mag: real)
      requires Valid()
      requires IsMagnitude(mag, raw.x - zeroX, raw.y - zeroY, raw.z - zeroZ)
      modifies this
      ensures State() == Recorded(old(State()), scales, raw, mag) && Valid()
    {
      var x := raw.x - zeroX;
      var y := raw.y - zeroY;
      var z := raw.z - zeroZ;
      if scales != [] {
        var newScale := NextScale(scales, scale, x, y, z);
        if newScale != scale {
          scale := newScale;
        }
      }
      history := Push(history, Sample(x, y, z, mag));
      assert State() == Recorded(old(State()), scales, raw, mag);
      RecordedWellformed(old(State()), scales, raw, mag);
    }

    method Resize(height: int, width: int)
      requires Valid()
      modifies this
      ensures State() == Resized(old(State()), height, width) && Valid()
    {
      this.height := height;
      this.width := width;
    }

    function RenderChart(): Rendering
      reads this
    {
      Render(State())
    }
  }

  /** The application: its key actions drive the chart. */
  class MagnetometerApp {
    const chart: Chart

    /** `on_mount` of the app creates the chart widget. */
    constructor(scales: seq<int>)
      ensures fresh(chart) && chart.scales == scales && chart.State() == Mounted() && chart.Valid()
    {
      chart := new Chart(scales);
    }

    method ActionZeroX()
      requires chart.Valid()
      modifies chart
      ensures chart.State() == ZeroedX(old(chart.State())) && chart.Valid()
    {
      chart.ZeroX();
    }

    method ActionZeroY()
      requires chart.Valid()
      modifies chart
      ensures chart.State() == ZeroedY(old(chart.State())) && chart.Valid()
    {
      chart.ZeroY();
    }

    method ActionZeroZ()
      requires chart.Valid()
      modifies chart
      ensures chart.State() == ZeroedZ(old(chart.State())) && chart.Valid()
    {
      chart.ZeroZ();
    }

    /** `action_zero_all` is exactly zero x, then y, then z. */
    method ActionZeroAll()
      requires chart.Valid()
      modifies chart
      ensures chart.State() == ZeroedZ(ZeroedY(ZeroedX(old(chart.State())))) && chart.Valid()
    {
      chart.ZeroX();
      chart.ZeroY();
      chart.ZeroZ();
    }
  }

  /** Zeroing all three axes adds the newest reading to every offset and changes nothing else. */
  lemma ZeroAllAddsLatest(s: ChartState)
    requires s.history != [] && Latest(s).Sample?
    ensures ZeroedZ(ZeroedY(ZeroedX(s))) ==
      s.(zeroX := s.zeroX + Latest(s).x, zeroY := s.zeroY + Latest(s).y, zeroZ := s.zeroZ + Latest(s).z)
  {
  }
}
