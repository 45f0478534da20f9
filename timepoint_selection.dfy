/** Snapshot time-point selection: aggregate the PV and load profiles of a circuit
    and pick the time point that represents the requested operating condition.

    Time stamps are whole seconds counted from a midnight, so the time of day of
    `t` is `t % 86400`. The circuit is given as its PV systems and loads (rating and
    yearly shape name) and the load shapes by name; the power-flow engine that the
    source queries for them is not part of this model. */
module TimepointSelection {
  import opened Wrappers
  import opened Extrema

  // ---------------------------------------------------------------------------
  // Selection modes and criteria
  // ---------------------------------------------------------------------------

  /** The ways a snapshot time point can be chosen. */
  datatype SelectionMode = MaxPvLoadRatio | MaxLoad | DaytimeMinLoad | MaxPvMinusLoad | None

  /** The named rows of the candidate table. */
  datatype Criterion =
    | PeakLoad            // "Max Load"
    | PeakPvToLoadRatio   // "Max PV to Load Ratio"
    | PeakPvMinusLoad     // "Max PV minus Load"
    | PeakPv              // "Max PV"
    | LeastLoad           // "Min Load"
    | LeastDaytimeLoad    // "Min Daytime Load"

  datatype SelectionError =
    | InvalidModeValue(value: string)        // no mode has this value
    | UnsupportedMode(mode: SelectionMode)   // the mode names no criterion
    | NoData(criterion: Criterion)           // argmax/argmin of an empty series
    | MissingCriterion(criterion: Criterion) // the table has no such row

  /** The enumeration value of a mode. */
  function ModeValue(mode: SelectionMode): string {
    match mode
    case MaxPvLoadRatio => "max_pv_load_ratio"
    case MaxLoad => "max_load"
    case DaytimeMinLoad => "daytime_min_load"
    case MaxPvMinusLoad => "pv_minus_load"
    case None => "none"
  }

  /** Looking a mode up by its value; an unknown value is an error. */
  function ModeFromValue(value: string): (r: Result<SelectionMode, SelectionError>)
    ensures r.Ok? ==> ModeValue(r.value) == value
    ensures r.Err? ==> r == Err(InvalidModeValue(value)) && forall m :: ModeValue(m) != value
  {
    if value == "max_pv_load_ratio" then Ok(MaxPvLoadRatio)
    else if value == "max_load" then Ok(MaxLoad)
    else if value == "daytime_min_load" then Ok(DaytimeMinLoad)
    else if value == "pv_minus_load" then Ok(MaxPvMinusLoad)
    else if value == "none" then Ok(None)
    else Err(InvalidModeValue(value))
  }

  lemma ModeValueRoundTrip(mode: SelectionMode)
    ensures ModeFromValue(ModeValue(mode)) == Ok(mode)
  {
  }

  /** The row label a criterion has in the table and in the report. */
  function Label(c: Criterion): string {
    match c
    case PeakLoad => "Max Load"
    case PeakPvToLoadRatio => "Max PV to Load Ratio"
    case PeakPvMinusLoad => "Max PV minus Load"
    case PeakPv => "Max PV"
    case LeastLoad => "Min Load"
    case LeastDaytimeLoad => "Min Daytime Load"
  }

  /** Criteria that are only computed when the circuit has PV systems. */
  predicate NeedsPv(c: Criterion) {
    c.PeakPvToLoadRatio? || c.PeakPvMinusLoad? || c.PeakPv?
  }

  /** A circuit without PV systems is always run in max-load mode. */
  function ResolveMode(mode: SelectionMode, hasPv: bool): (r: SelectionMode)
    ensures !hasPv ==> r == MaxLoad
    ensures hasPv ==> r == mode
  {
    if !hasPv && mode != MaxLoad then MaxLoad else mode
  }

  /** The criterion a mode reports; `None` reports none. */
  function CriterionOf(mode: SelectionMode): (r: Result<Criterion, SelectionError>)
    ensures r.Err? <==> mode == None
    ensures r.Err? ==> r.error == UnsupportedMode(mode)
    ensures r.Ok? ==> (NeedsPv(r.value) <==> mode == MaxPvLoadRatio || mode == MaxPvMinusLoad)
  {
    match mode
    case MaxLoad => Ok(PeakLoad)
    case MaxPvLoadRatio => Ok(PeakPvToLoadRatio)
    case DaytimeMinLoad => Ok(LeastDaytimeLoad)
    case MaxPvMinusLoad => Ok(PeakPvMinusLoad)
    case None => Err(UnsupportedMode(None))
  }

  /** Each mode reports the table row carrying the column name the source selects. */
  lemma CriterionLabels()
    ensures Label(CriterionOf(MaxLoad).value) == "Max Load"
    ensures Label(CriterionOf(MaxPvLoadRatio).value) == "Max PV to Load Ratio"
    ensures Label(CriterionOf(DaytimeMinLoad).value) == "Min Daytime Load"
    ensures Label(CriterionOf(MaxPvMinusLoad).value) == "Max PV minus Load"
  {
  }

  /** Row labels are distinct, so looking a row up by criterion is looking it up by label. */
  lemma LabelsDistinct(c1: Criterion, c2: Criterion)
    ensures Label(c1) == Label(c2) <==> c1 == c2
  {
  }

  /** The rows of the candidate table, in the order they are inserted. */
  function Criteria(hasPv: bool): (cs: seq<Criterion>)
    ensures forall c :: c in cs ==> hasPv || !NeedsPv(c)
  {
    [PeakLoad] + (if hasPv then [PeakPvToLoadRatio, PeakPvMinusLoad, PeakPv] else []) + [LeastLoad, LeastDaytimeLoad]
  }

  /** A criterion is a row of the table exactly when it does not need PV or the circuit has PV. */
  lemma CriteriaMembership(hasPv: bool, c: Criterion)
    ensures c in Criteria(hasPv) <==> hasPv || !NeedsPv(c)
  {
    var cs := Criteria(hasPv);
    match c
    case PeakLoad => assert cs[0] == c;
    case LeastLoad => assert cs[|cs| - 2] == c;
    case LeastDaytimeLoad => assert cs[|cs| - 1] == c;
    case PeakPvToLoadRatio => if hasPv { assert cs[1] == c; }
    case PeakPvMinusLoad => if hasPv { assert cs[2] == c; }
    case PeakPv => if hasPv { assert cs[3] == c; }
  }

  /** Whatever mode is asked for, the resolved criterion is a row of the table. */
  lemma ResolvedCriterionIsTabulated(mode: SelectionMode, hasPv: bool)
    requires CriterionOf(ResolveMode(mode, hasPv)).Ok?
    ensures CriterionOf(ResolveMode(mode, hasPv)).value in Criteria(hasPv)
  {
    CriteriaMembership(hasPv, CriterionOf(ResolveMode(mode, hasPv)).value);
  }

  // ---------------------------------------------------------------------------
  // Time
  // ---------------------------------------------------------------------------

  const SecondsPerDay: int := 86400
  /** The PV generation hours: "8:00" to "17:00", both ends included. */
  const DaytimeStart: int := 8 * 3600
  const DaytimeEnd: int := 17 * 3600

  function TimeOfDay(t: int): int {
    t % SecondsPerDay
  }

  predicate InDaytimeWindow(t: int) {
    DaytimeStart <= TimeOfDay(t) <= DaytimeEnd
  }

  /** The mask of the rows whose time stamps fall in the daily window. */
  function DaytimeMask(index: seq<int>): seq<bool> {
    seq(|index|, i requires 0 <= i < |index| => InDaytimeWindow(index[i]))
  }

  /** `npts` time stamps, `interval` seconds apart, the first one at `start`. */
  function TimeIndex(start: int, interval: nat, npts: nat): seq<int> {
    seq(npts, i => start + i * interval)
  }

  lemma TimeIndexEvenlySpaced(start: int, interval: nat, npts: nat, i: nat)
    requires i + 1 < npts
    ensures TimeIndex(start, interval, npts)[i + 1] - TimeIndex(start, interval, npts)[i] == interval
  {
  }

  lemma TimeIndexStrictlyIncreasing(start: int, interval: nat, npts: nat, i: nat, j: nat)
    requires interval > 0 && i < j < npts
    ensures TimeIndex(start, interval, npts)[i] < TimeIndex(start, interval, npts)[j]
  {
    assert j * interval == i * interval + (j - i) * interval;
    assert (j - i) * interval > 0;
  }

  /** The time stamps of a load shape, built one interval at a time. */
  method BuildIndex(start: int, interval: nat, npts: nat) returns (indices: seq<int>)
    ensures indices == TimeIndex(start, interval, npts)
  {
    indices := [];
    var curTime := start;
    for i := 0 to npts
      invariant |indices| == i
      invariant curTime == start + i * interval
      invariant forall j :: 0 <= j < i ==> indices[j] == start + j * interval
    {
      indices := indices + [curTime];
      curTime := curTime + interval;
    }
  }

  // ---------------------------------------------------------------------------
  // Load shapes and devices
  // ---------------------------------------------------------------------------

  /** A load shape: its multipliers (one per point) and its sampling interval in seconds. */
  datatype LoadShape = LoadShape(pmult: seq<real>, interval: nat)

  /** A PV system (rating = Pmpp) or a load (rating = kW) and the name of its yearly shape. */
  datatype Device = Device(name: string, rating: real, shape: string)

  /** A shape's multipliers indexed by time. */
  datatype ShapeFrame = ShapeFrame(index: seq<int>, mult: seq<real>)

  function ShapeFrameOf(start: int, shape: LoadShape): ShapeFrame {
    ShapeFrame(TimeIndex(start, shape.interval, |shape.pmult|), shape.pmult)
  }

  /** A shape as a time-indexed frame anchored at the simulation start. */
  method CreateLoadshapePmultFrame(start: int, shape: LoadShape) returns (frame: ShapeFrame)
    ensures frame == ShapeFrameOf(start, shape)
    ensures |frame.index| == |frame.mult|
  {
    var indices := BuildIndex(start, shape.interval, |shape.pmult|);
    frame := ShapeFrame(indices, shape.pmult);
  }

  predicate ShapesKnown(devices: seq<Device>, shapes: map<string, LoadShape>) {
    forall d :: d in devices ==> d.shape in shapes
  }

  /** The time index of the aggregate frame: that of the first device's shape. */
  function FrameIndex(start: int, devices: seq<Device>, shapes: map<string, LoadShape>): seq<int>
    requires ShapesKnown(devices, shapes)
  {
    if |devices| == 0 then [] else ShapeFrameOf(start, shapes[devices[0].shape]).index
  }

  /** Every device's shape is defined and shares the frame's time index (PV systems first, then loads). */
  predicate WellFormedCircuit(start: int, pvs: seq<Device>, loads: seq<Device>, shapes: map<string, LoadShape>) {
    var devices := pvs + loads;
    && ShapesKnown(devices, shapes)
    && forall d :: d in devices ==> ShapeFrameOf(start, shapes[d.shape]).index == FrameIndex(start, devices, shapes)
  }

  /** Every device's shape is defined and has `n` points. */
  predicate ShapesOfLength(devices: seq<Device>, shapes: map<string, LoadShape>, n: nat) {
    forall d :: d in devices ==> d.shape in shapes && |shapes[d.shape].pmult| == n
  }

  /** The number of rows of the aggregate frame. */
  function FrameLength(start: int, pvs: seq<Device>, loads: seq<Device>, shapes: map<string, LoadShape>): nat
    requires WellFormedCircuit(start, pvs, loads, shapes)
  {
    |FrameIndex(start, pvs + loads, shapes)|
  }

  lemma CircuitLengths(start: int, pvs: seq<Device>, loads: seq<Device>, shapes: map<string, LoadShape>)
    requires WellFormedCircuit(start, pvs, loads, shapes)
    ensures ShapesOfLength(pvs, shapes, FrameLength(start, pvs, loads, shapes))
    ensures ShapesOfLength(loads, shapes, FrameLength(start, pvs, loads, shapes))
  {
    var devices := pvs + loads;
    forall d | d in devices
      ensures |shapes[d.shape].pmult| == |FrameIndex(start, devices, shapes)|
    {
      assert |ShapeFrameOf(start, shapes[d.shape]).index| == |shapes[d.shape].pmult|;
    }
  }

  // ---------------------------------------------------------------------------
  // Aggregate profiles
  // ---------------------------------------------------------------------------

  function Zeros(n: nat): seq<real> {
    seq(n, _ => 0.0)
  }

  lemma PlusZeros(a: seq<real>)
    ensures Plus(Zeros(|a|), a) == a
  {
  }

  /** A shape's multipliers times a rating. */
  function Scaled(mult: seq<real>, rating: real): seq<real> {
    seq(|mult|, i requires 0 <= i < |mult| => mult[i] * rating)
  }

  function Plus(a: seq<real>, b: seq<real>): seq<real>
    requires |a| == |b|
  {
    seq(|a|, i requires 0 <= i < |a| => a[i] + b[i])
  }

  function Minus(a: seq<real>, b: seq<real>): seq<real>
    requires |a| == |b|
  {
    seq(|a|, i requires 0 <= i < |a| => a[i] - b[i])
  }

  function Quotient(a: seq<real>, b: seq<real>): seq<real>
    requires |a| == |b| && forall i :: 0 <= i < |b| ==> b[i] != 0.0
  {
    seq(|a|, i requires 0 <= i < |a| => a[i] / b[i])
  }

  /** A column built device by device: the running sum of rating × multiplier. */
  function ColumnTotal(devices: seq<Device>, shapes: map<string, LoadShape>, n: nat): (col: seq<real>)
    requires ShapesOfLength(devices, shapes, n)
    ensures |col| == n
    decreases |devices|
  {
    if |devices| == 0 then Zeros(n)
    else
      var last := devices[|devices| - 1];
      assert last in devices;
      Plus(ColumnTotal(devices[..|devices| - 1], shapes, n), Scaled(shapes[last.shape].pmult, last.rating))
  }

  /** The reference definition: at time position `t`, the sum over the devices of rating × multiplier. */
  function DeviceSum(devices: seq<Device>, shapes: map<string, LoadShape>, t: nat): real
    requires forall d :: d in devices ==> d.shape in shapes && t < |shapes[d.shape].pmult|
    decreases |devices|
  {
    if |devices| == 0 then 0.0
    else devices[0].rating * shapes[devices[0].shape].pmult[t] + DeviceSum(devices[1..], shapes, t)
  }

  lemma {:induction false} DeviceSumSnoc(devices: seq<Device>, d: Device, shapes: map<string, LoadShape>, t: nat)
    requires forall x :: x in devices + [d] ==> x.shape in shapes && t < |shapes[x.shape].pmult|
    ensures DeviceSum(devices + [d], shapes, t) == DeviceSum(devices, shapes, t) + d.rating * shapes[d.shape].pmult[t]
    decreases |devices|
  {
    if |devices| > 0 {
      assert (devices + [d])[1..] == devices[1..] + [d];
      DeviceSumSnoc(devices[1..], d, shapes, t);
    } else {
      assert (devices + [d])[1..] == [];
    }
  }

  /** The column built step by step holds, at every time position, the sum over all devices. */
  lemma {:induction false} ColumnTotalIsDeviceSum(devices: seq<Device>, shapes: map<string, LoadShape>, n: nat, t: nat)
    requires ShapesOfLength(devices, shapes, n) && t < n
    ensures ColumnTotal(devices, shapes, n)[t] == DeviceSum(devices, shapes, t)
    decreases |devices|
  {
    if |devices| > 0 {
      var prefix := devices[..|devices| - 1];
      var last := devices[|devices| - 1];
      assert devices == prefix + [last];
      ColumnTotalIsDeviceSum(prefix, shapes, n, t);
      DeviceSumSnoc(prefix, last, shapes, t);
    }
  }

  /** The PV-dependent columns; absent when the circuit has no PV systems. */
  datatype PvColumns = NoPv | PvColumns(pv: seq<real>, ratio: seq<real>, minus: seq<real>)

  /** The aggregate frame: time index, total load and, with PV, the PV columns. */
  datatype Profiles = Profiles(index: seq<int>, load: seq<real>, pvColumns: PvColumns)

  predicate ProfilesValid(p: Profiles) {
    && |p.load| == |p.index|
    && (p.pvColumns.PvColumns? ==>
          |p.pvColumns.pv| == |p.pvColumns.ratio| == |p.pvColumns.minus| == |p.index|)
  }

  /** With PV systems the ratio column divides by the load at every point;
      the model needs the load to be non-zero there. */
  predicate RatioDefined(start: int, pvs: seq<Device>, loads: seq<Device>, shapes: map<string, LoadShape>)
    requires WellFormedCircuit(start, pvs, loads, shapes)
  {
    var n := FrameLength(start, pvs, loads, shapes);
    CircuitLengths(start, pvs, loads, shapes);
    |pvs| > 0 ==> forall t :: 0 <= t < n ==> ColumnTotal(loads, shapes, n)[t] != 0.0
  }

  /** The aggregate profiles of a circuit. */
  function ProfilesOf(start: int, pvs: seq<Device>, loads: seq<Device>, shapes: map<string, LoadShape>): (p: Profiles)
    requires WellFormedCircuit(start, pvs, loads, shapes) && RatioDefined(start, pvs, loads, shapes)
    ensures ProfilesValid(p)
    ensures p.pvColumns.PvColumns? <==> |pvs| > 0
    ensures p.pvColumns.PvColumns? ==>
      forall t :: 0 <= t < |p.index| ==>
        p.pvColumns.ratio[t] * p.load[t] == p.pvColumns.pv[t] && p.pvColumns.minus[t] + p.load[t] == p.pvColumns.pv[t]
  {
    var n := FrameLength(start, pvs, loads, shapes);
    CircuitLengths(start, pvs, loads, shapes);
    var load := ColumnTotal(loads, shapes, n);
    var pvColumns :=
      if |pvs| == 0 then NoPv
      else
        var pv := ColumnTotal(pvs, shapes, n);
        PvColumns(pv, Quotient(pv, load), Minus(pv, load));
    Profiles(FrameIndex(start, pvs + loads, shapes), load, pvColumns)
  }

  /** Each column of the profiles is the device-by-device sum the report promises. */
  lemma ProfilesAreDeviceSums(start: int, pvs: seq<Device>, loads: seq<Device>, shapes: map<string, LoadShape>, t: nat)
    requires WellFormedCircuit(start, pvs, loads, shapes) && RatioDefined(start, pvs, loads, shapes)
    requires t < FrameLength(start, pvs, loads, shapes)
    ensures (CircuitLengths(start, pvs, loads, shapes);
      ProfilesOf(start, pvs, loads, shapes).load[t] == DeviceSum(loads, shapes, t))
    ensures (CircuitLengths(start, pvs, loads, shapes);
      |pvs| > 0 ==> ProfilesOf(start, pvs, loads, shapes).pvColumns.pv[t] == DeviceSum(pvs, shapes, t))
  {
    var n := FrameLength(start, pvs, loads, shapes);
    CircuitLengths(start, pvs, loads, shapes);
    ColumnTotalIsDeviceSum(loads, shapes, n, t);
    if |pvs| > 0 {
      ColumnTotalIsDeviceSum(pvs, shapes, n, t);
    }
  }

  /** One more device extends the step-by-step column by that device's contribution. */
  lemma ColumnTotalStep(devices: seq<Device>, k: nat, shapes: map<string, LoadShape>, n: nat)
    requires ShapesOfLength(devices, shapes, n) && k < |devices|
    ensures ShapesOfLength(devices[..k], shapes, n) && ShapesOfLength(devices[..k + 1], shapes, n)
    ensures devices[k].shape in shapes && |shapes[devices[k].shape].pmult| == n
    ensures ColumnTotal(devices[..k + 1], shapes, n)
      == Plus(ColumnTotal(devices[..k], shapes, n), Scaled(shapes[devices[k].shape].pmult, devices[k].rating))
  {
    assert devices[k] in devices;
    assert devices[..k + 1][..k] == devices[..k];
    assert devices[..k + 1][k] == devices[k];
  }

  /** The column of a single device is that device's contribution. */
  lemma ColumnTotalFirst(devices: seq<Device>, shapes: map<string, LoadShape>, n: nat)
    requires ShapesOfLength(devices, shapes, n) && 0 < |devices|
    ensures ShapesOfLength(devices[..1], shapes, n)
    ensures devices[0].shape in shapes && |shapes[devices[0].shape].pmult| == n
    ensures ColumnTotal(devices[..1], shapes, n) == Scaled(shapes[devices[0].shape].pmult, devices[0].rating)
  {
    ColumnTotalStep(devices, 0, shapes, n);
    PlusZeros(Scaled(shapes[devices[0].shape].pmult, devices[0].rating));
  }

  /** Every device of a well-formed circuit has a shape on the frame's time index. */
  lemma DeviceOnFrameIndex(start: int, pvs: seq<Device>, loads: seq<Device>, shapes: map<string, LoadShape>, d: Device)
    requires WellFormedCircuit(start, pvs, loads, shapes) && (d in pvs || d in loads)
    ensures d.shape in shapes
    ensures ShapeFrameOf(start, shapes[d.shape]).index == FrameIndex(start, pvs + loads, shapes)
  {
    assert d in pvs + loads;
  }

  /** The shape cache holds, for every name it knows, the frame built from that shape. */
  ghost predicate CacheCoherent(start: int, cache: map<string, ShapeFrame>, shapes: map<string, LoadShape>) {
    forall name :: name in cache ==> name in shapes && cache[name] == ShapeFrameOf(start, shapes[name])
  }

  /** Builds the aggregate frame: PV systems into "PV", then loads into "Load",
      each shape built once per name and looked up in a cache afterwards. */
  method AggregateProfiles(start: int, pvs: seq<Device>, loads: seq<Device>, shapes: map<string, LoadShape>)
    returns (p: Profiles)
    requires WellFormedCircuit(start, pvs, loads, shapes) && RatioDefined(start, pvs, loads, shapes)
    ensures p == ProfilesOf(start, pvs, loads, shapes)
  {
    ghost var n := FrameLength(start, pvs, loads, shapes);
    ghost var frameIndex := FrameIndex(start, pvs + loads, shapes);
    CircuitLengths(start, pvs, loads, shapes);

    var index: seq<int> := [];
    var pvCol: seq<real> := [];
    var loadCol: seq<real> := [];

    var pvShapes: map<string, ShapeFrame> := map[];
    for k := 0 to |pvs|
      invariant CacheCoherent(start, pvShapes, shapes)
      invariant k == 0 ==> index == [] && pvCol == [] && loadCol == []
      invariant k > 0 ==> index == frameIndex && loadCol == Zeros(n)
      invariant k > 0 ==> ShapesOfLength(pvs[..k], shapes, n) && pvCol == ColumnTotal(pvs[..k], shapes, n)
    {
      var d := pvs[k];
      DeviceOnFrameIndex(start, pvs, loads, shapes, d);
      ColumnTotalStep(pvs, k, shapes, n);
      if d.shape !in pvShapes {
        var frame := CreateLoadshapePmultFrame(start, shapes[d.shape]);
        pvShapes := pvShapes[d.shape := frame];
      }
      var contribution := Scaled(pvShapes[d.shape].mult, d.rating);
      if |index| == 0 {
        if k == 0 {
          ColumnTotalFirst(pvs, shapes, n);
        }
        index := pvShapes[d.shape].index;
        pvCol := contribution;
        loadCol := Zeros(|index|);
      } else {
        pvCol := Plus(pvCol, contribution);
      }
    }
    assert pvs[..|pvs|] == pvs;

    var loadShapes: map<string, ShapeFrame> := map[];
    for k := 0 to |loads|
      invariant CacheCoherent(start, loadShapes, shapes)
      invariant |pvs| > 0 ==> pvCol == ColumnTotal(pvs, shapes, n)
      invariant k == 0 && |pvs| == 0 ==> index == [] && loadCol == []
      invariant k > 0 || |pvs| > 0 ==> index == frameIndex
      invariant k > 0 || |pvs| > 0 ==> ShapesOfLength(loads[..k], shapes, n) && loadCol == ColumnTotal(loads[..k], shapes, n)
    {
      var d := loads[k];
      DeviceOnFrameIndex(start, pvs, loads, shapes, d);
      ColumnTotalStep(loads, k, shapes, n);
      if d.shape !in loadShapes {
        var frame := CreateLoadshapePmultFrame(start, shapes[d.shape]);
        loadShapes := loadShapes[d.shape := frame];
      }
      var contribution := Scaled(loadShapes[d.shape].mult, d.rating);
      if |index| == 0 {
        if k == 0 {
          ColumnTotalFirst(loads, shapes, n);
        }
        index := loadShapes[d.shape].index;
        loadCol := contribution;
      } else {
        loadCol := Plus(loadCol, contribution);
      }
    }
    assert loads[..|loads|] == loads;

    var pvColumns := NoPv;
    if |pvs| > 0 {
      pvColumns := PvColumns(pvCol, Quotient(pvCol, loadCol), Minus(pvCol, loadCol));
    }
    p := Profiles(index, loadCol, pvColumns);
  }

  // ---------------------------------------------------------------------------
  // The candidate table
  // ---------------------------------------------------------------------------

  /** How a criterion picks its row: the extremum sought, the column, and whether
      only the rows in the daily PV window take part. */
  datatype Rule = Rule(extremum: Extremum, column: Column, daytimeOnly: bool)
  datatype Column = LoadColumn | PvColumn | RatioColumn | MinusColumn

  function RuleOf(c: Criterion): (r: Rule)
    ensures r.column != LoadColumn <==> NeedsPv(c)
  {
    match c
    case PeakLoad => Rule(Largest, LoadColumn, false)
    case PeakPvToLoadRatio => Rule(Largest, RatioColumn, true)
    case PeakPvMinusLoad => Rule(Largest, MinusColumn, true)
    case PeakPv => Rule(Largest, PvColumn, true)
    case LeastLoad => Rule(Smallest, LoadColumn, false)
    case LeastDaytimeLoad => Rule(Smallest, LoadColumn, true)
  }

  /** The profiles carry every column the criterion reads. */
  predicate Applicable(p: Profiles, c: Criterion) {
    ProfilesValid(p) && (NeedsPv(c) ==> p.pvColumns.PvColumns?)
  }

  function Series(p: Profiles, c: Criterion): (xs: seq<real>)
    requires Applicable(p, c)
    ensures |xs| == |p.index|
  {
    match RuleOf(c).column
    case LoadColumn => p.load
    case PvColumn => p.pvColumns.pv
    case RatioColumn => p.pvColumns.ratio
    case MinusColumn => p.pvColumns.minus
  }

  /** The rows a criterion considers. */
  function Mask(p: Profiles, c: Criterion): (keep: seq<bool>)
    ensures |keep| == |p.index|
    ensures forall i :: 0 <= i < |p.index| ==> (keep[i] <==> !RuleOf(c).daytimeOnly || InDaytimeWindow(p.index[i]))
  {
    if RuleOf(c).daytimeOnly then DaytimeMask(p.index) else KeepAll(|p.index|)
  }

  /** The row position a criterion selects: the earliest optimum of its column over
      its rows, or no data when it considers no row. */
  function BestPosition(p: Profiles, c: Criterion): (r: Result<nat, SelectionError>)
    requires Applicable(p, c)
    ensures r.Ok? <==> true in Mask(p, c)
    ensures r.Err? ==> r.error == NoData(c)
    ensures r.Ok? ==> IsFirstBest(RuleOf(c).extremum, Series(p, c), Mask(p, c), r.value)
  {
    var keep := Mask(p, c);
    if true in keep then Ok(FirstBest(RuleOf(c).extremum, Series(p, c), keep)) else Err(NoData(c))
  }

  /** A row of the table: a criterion and the time stamp it selects. */
  datatype Candidate = Candidate(criterion: Criterion, time: int)

  /** The table, built row by row in order; the first row that has no data ends it with that error. */
  function Tabulate(p: Profiles, cs: seq<Criterion>): (r: Result<seq<Candidate>, SelectionError>)
    requires forall c :: c in cs ==> Applicable(p, c)
    ensures r.Ok? ==> |r.value| == |cs| && forall i :: 0 <= i < |cs| ==> r.value[i].criterion == cs[i]
    ensures r.Ok? <==> forall c :: c in cs ==> BestPosition(p, c).Ok?
    ensures r.Err? ==> exists i :: 0 <= i < |cs| && r.error == NoData(cs[i]) && BestPosition(p, cs[i]).Err?
    decreases |cs|
  {
    if |cs| == 0 then Ok([])
    else
      assert cs[0] in cs;
      assert forall c :: c in cs[1..] ==> c in cs;
      var k :- BestPosition(p, cs[0]);
      var rest :- Tabulate(p, cs[1..]);
      Ok([Candidate(cs[0], p.index[k])] + rest)
  }

  /** A complete table is its first row followed by the complete table of the rest. */
  lemma TabulateUnfold(p: Profiles, cs: seq<Criterion>)
    requires forall c :: c in cs ==> Applicable(p, c)
    requires Tabulate(p, cs).Ok? && |cs| > 0
    ensures cs[0] in cs && BestPosition(p, cs[0]).Ok?
    ensures forall c :: c in cs[1..] ==> Applicable(p, c)
    ensures Tabulate(p, cs[1..]).Ok?
    ensures Tabulate(p, cs).value == [Candidate(cs[0], p.index[BestPosition(p, cs[0]).value])] + Tabulate(p, cs[1..]).value
  {
    assert cs[0] in cs;
    assert forall c :: c in cs[1..] ==> c in cs;
  }

  /** Each row of a complete table holds the time its criterion selects. */
  lemma {:induction false} TabulateRows(p: Profiles, cs: seq<Criterion>, i: nat)
    requires forall c :: c in cs ==> Applicable(p, c)
    requires Tabulate(p, cs).Ok? && i < |cs|
    ensures cs[i] in cs && BestPosition(p, cs[i]).Ok?
    ensures Tabulate(p, cs).value[i].time == p.index[BestPosition(p, cs[i]).value]
    decreases |cs|
  {
    assert cs[0] in cs && cs[i] in cs;
    assert forall c :: c in cs[1..] ==> c in cs;
    TabulateUnfold(p, cs);
    if i > 0 {
      TabulateRows(p, cs[1..], i - 1);
    }
  }

  /** The row criterion `c` contributes when it has data. */
  function Row(p: Profiles, c: Criterion): Candidate
    requires Applicable(p, c) && BestPosition(p, c).Ok?
  {
    Candidate(c, p.index[BestPosition(p, c).value])
  }

  /** When every criterion has data, the table is their rows in order. */
  lemma {:induction false} TabulateAllRows(p: Profiles, cs: seq<Criterion>, rows: seq<Candidate>)
    requires forall c :: c in cs ==> Applicable(p, c)
    requires |rows| == |cs|
    requires forall j :: 0 <= j < |cs| ==> Applicable(p, cs[j]) && BestPosition(p, cs[j]).Ok? && rows[j] == Row(p, cs[j])
    ensures Tabulate(p, cs) == Ok(rows)
    decreases |cs|
  {
    if |cs| > 0 {
      var tail, rest := cs[1..], rows[1..];
      assert forall c :: c in tail ==> c in cs;
      assert forall j :: 0 <= j < |tail| ==> tail[j] == cs[j + 1];
      assert forall j :: 0 <= j < |rest| ==> rest[j] == rows[j + 1];
      TabulateAllRows(p, tail, rest);
      assert cs[0] in cs && BestPosition(p, cs[0]).Ok?;
      assert rows == [Row(p, cs[0])] + rest;
    }
  }

  /** The first criterion without data decides the error of the whole table. */
  lemma {:induction false} TabulateFirstError(p: Profiles, cs: seq<Criterion>, i: nat)
    requires forall c :: c in cs ==> Applicable(p, c)
    requires i < |cs|
    requires forall j :: 0 <= j < i ==> Applicable(p, cs[j]) && BestPosition(p, cs[j]).Ok?
    requires Applicable(p, cs[i]) && BestPosition(p, cs[i]).Err?
    ensures Tabulate(p, cs) == Err(NoData(cs[i]))
    decreases |cs|
  {
    assert cs[0] in cs;
    if i > 0 {
      assert forall c :: c in cs[1..] ==> c in cs;
      assert forall j :: 0 <= j < i ==> cs[1..][j] == cs[j + 1];
      TabulateFirstError(p, cs[1..], i - 1);
    }
  }

  /** The table filled row by row, in the order of `cs`. */
  method FillTimepoints(p: Profiles, cs: seq<Criterion>) returns (r: Result<seq<Candidate>, SelectionError>)
    requires forall c :: c in cs ==> Applicable(p, c)
    ensures r == Tabulate(p, cs)
  {
    var rows: seq<Candidate> := [];
    for i := 0 to |cs|
      invariant |rows| == i
      invariant forall j :: 0 <= j < i ==> Applicable(p, cs[j]) && BestPosition(p, cs[j]).Ok? && rows[j] == Row(p, cs[j])
    {
      assert cs[i] in cs;
      var k := BestPosition(p, cs[i]);
      if k.Err? {
        TabulateFirstError(p, cs, i);
        return Err(k.error);
      }
      rows := rows + [Candidate(cs[i], p.index[k.value])];
    }
    TabulateAllRows(p, cs, rows);
    r := Ok(rows);
  }

  /** The time stamp of the first row for criterion `c`. */
  function Lookup(table: seq<Candidate>, c: Criterion): (r: Result<int, SelectionError>)
    ensures r.Ok? <==> exists i :: 0 <= i < |table| && table[i].criterion == c
    ensures r.Err? ==> r.error == MissingCriterion(c)
    ensures r.Ok? ==> exists i :: 0 <= i < |table| && table[i] == Candidate(c, r.value)
  {
    if |table| == 0 then Err(MissingCriterion(c))
    else if table[0].criterion == c then Ok(table[0].time)
    else
      var r := Lookup(table[1..], c);
      assert forall i :: 1 <= i < |table| ==> table[1..][i - 1] == table[i];
      assert r.Ok? ==> exists i :: 1 <= i < |table| && table[i] == Candidate(c, r.value);
      r
  }

  /** In a table built from distinct criteria, looking a criterion up finds its own row. */
  lemma {:induction false} LookupTabulated(p: Profiles, cs: seq<Criterion>, i: nat)
    requires forall c :: c in cs ==> Applicable(p, c)
    requires Tabulate(p, cs).Ok? && i < |cs|
    requires forall j :: 0 <= j < i ==> cs[j] != cs[i]
    ensures Lookup(Tabulate(p, cs).value, cs[i]) == Ok(Tabulate(p, cs).value[i].time)
    decreases |cs|
  {
    TabulateUnfold(p, cs);
    var table := Tabulate(p, cs).value;
    assert table[0].criterion == cs[0];
    if i > 0 {
      var rest := Tabulate(p, cs[1..]).value;
      assert table[1..] == rest;
      assert cs[1..][i - 1] == cs[i];
      LookupTabulated(p, cs[1..], i - 1);
      assert Lookup(table, cs[i]) == Lookup(rest, cs[i]);
    }
  }

  // ---------------------------------------------------------------------------
  // The snapshot time point
  // ---------------------------------------------------------------------------

  /** A circuit the analysis can run on: well formed, and with a defined ratio
      column whenever the mode does not stop the analysis first. */
  predicate Analysable(mode: SelectionMode, start: int, pvs: seq<Device>, loads: seq<Device>, shapes: map<string, LoadShape>) {
    && WellFormedCircuit(start, pvs, loads, shapes)
    && (ResolveMode(mode, |pvs| > 0) != None ==> RatioDefined(start, pvs, loads, shapes))
  }

  /** The snapshot time point: resolve the mode, aggregate the profiles, build the
      whole table, and return the resolved criterion's time stamp. */
  function SnapshotOf(mode: SelectionMode, start: int, pvs: seq<Device>, loads: seq<Device>, shapes: map<string, LoadShape>)
    : (r: Result<int, SelectionError>)
    requires Analysable(mode, start, pvs, loads, shapes)
    ensures r == Err(UnsupportedMode(None)) <==> ResolveMode(mode, |pvs| > 0) == None
  {
    var hasPv := |pvs| > 0;
    var c :- CriterionOf(ResolveMode(mode, hasPv));
    var p := ProfilesOf(start, pvs, loads, shapes);
    assert forall x :: x in Criteria(hasPv) ==> Applicable(p, x);
    var table :- Tabulate(p, Criteria(hasPv));
    Lookup(table, c)
  }

  /** The circuit's aggregate profiles, named for the lemmas below. */
  function CircuitProfiles(start: int, pvs: seq<Device>, loads: seq<Device>, shapes: map<string, LoadShape>): Profiles
    requires WellFormedCircuit(start, pvs, loads, shapes) && RatioDefined(start, pvs, loads, shapes)
  {
    ProfilesOf(start, pvs, loads, shapes)
  }

  /** The criteria rows are applicable to the profiles they are evaluated on. */
  lemma CriteriaApplicable(start: int, pvs: seq<Device>, loads: seq<Device>, shapes: map<string, LoadShape>)
    requires WellFormedCircuit(start, pvs, loads, shapes) && RatioDefined(start, pvs, loads, shapes)
    ensures forall c :: c in Criteria(|pvs| > 0) ==> Applicable(CircuitProfiles(start, pvs, loads, shapes), c)
  {
  }

  /** A successful snapshot is the time stamp of the row position the resolved criterion selects. */
  lemma SnapshotIsSelectedRow(mode: SelectionMode, start: int, pvs: seq<Device>, loads: seq<Device>, shapes: map<string, LoadShape>)
    requires Analysable(mode, start, pvs, loads, shapes)
    requires SnapshotOf(mode, start, pvs, loads, shapes).Ok?
    ensures CriterionOf(ResolveMode(mode, |pvs| > 0)).Ok? && RatioDefined(start, pvs, loads, shapes)
    ensures var p := CircuitProfiles(start, pvs, loads, shapes);
      var c := CriterionOf(ResolveMode(mode, |pvs| > 0)).value;
      Applicable(p, c) && BestPosition(p, c).Ok? &&
      SnapshotOf(mode, start, pvs, loads, shapes).value == p.index[BestPosition(p, c).value]
  {
    var hasPv := |pvs| > 0;
    var c := CriterionOf(ResolveMode(mode, hasPv)).value;
    var p := CircuitProfiles(start, pvs, loads, shapes);
    var cs := Criteria(hasPv);
    CriteriaApplicable(start, pvs, loads, shapes);
    ResolvedCriterionIsTabulated(mode, hasPv);
    var i := FirstIndexOf(cs, c);
    TabulateRows(p, cs, i);
    LookupTabulated(p, cs, i);
  }

  /** The position of the first occurrence of `x`. */
  function FirstIndexOf<T(==)>(xs: seq<T>, x: T): (i: nat)
    requires x in xs
    ensures i < |xs| && xs[i] == x && forall j :: 0 <= j < i ==> xs[j] != x
  {
    if xs[0] == x then 0
    else
      var i := FirstIndexOf(xs[1..], x);
      assert xs[1..][i] == xs[i + 1];
      i + 1
  }

  /** The whole table can be built exactly when there is a row and some row lies in
      the daily window: every row is computed, and "Min Daytime Load" is always one. */
  lemma TableCompleteIff(p: Profiles, hasPv: bool)
    requires ProfilesValid(p) && (hasPv ==> p.pvColumns.PvColumns?)
    ensures forall c :: c in Criteria(hasPv) ==> Applicable(p, c)
    ensures Tabulate(p, Criteria(hasPv)).Ok? <==>
      exists i :: 0 <= i < |p.index| && InDaytimeWindow(p.index[i])
  {
    var cs := Criteria(hasPv);
    assert forall c :: c in cs ==> Applicable(p, c);
    CriteriaMembership(hasPv, LeastDaytimeLoad);
    if Tabulate(p, cs).Ok? {
      assert BestPosition(p, LeastDaytimeLoad).Ok?;
      var k :| 0 <= k < |p.index| && Mask(p, LeastDaytimeLoad)[k];
      assert InDaytimeWindow(p.index[k]);
    }
    if exists i :: 0 <= i < |p.index| && InDaytimeWindow(p.index[i]) {
      var i :| 0 <= i < |p.index| && InDaytimeWindow(p.index[i]);
      forall c | c in cs
        ensures BestPosition(p, c).Ok?
      {
        assert Mask(p, c)[i];
      }
    }
  }

  /** Once the mode names a criterion, the snapshot succeeds exactly when the whole table does. */
  lemma SnapshotOkIffTableOk(mode: SelectionMode, start: int, pvs: seq<Device>, loads: seq<Device>, shapes: map<string, LoadShape>)
    requires Analysable(mode, start, pvs, loads, shapes)
    requires ResolveMode(mode, |pvs| > 0) != None
    ensures RatioDefined(start, pvs, loads, shapes)
    ensures forall c :: c in Criteria(|pvs| > 0) ==> Applicable(CircuitProfiles(start, pvs, loads, shapes), c)
    ensures SnapshotOf(mode, start, pvs, loads, shapes).Ok? <==>
      Tabulate(CircuitProfiles(start, pvs, loads, shapes), Criteria(|pvs| > 0)).Ok?
  {
    var hasPv := |pvs| > 0;
    var p := CircuitProfiles(start, pvs, loads, shapes);
    var cs := Criteria(hasPv);
    CriteriaApplicable(start, pvs, loads, shapes);
    if Tabulate(p, cs).Ok? {
      var c := CriterionOf(ResolveMode(mode, hasPv)).value;
      ResolvedCriterionIsTabulated(mode, hasPv);
      var i := FirstIndexOf(cs, c);
      LookupTabulated(p, cs, i);
    }
  }

  /** The snapshot fails exactly when the mode is unsupported or no time stamp of the
      profiles falls in the daily window (which includes empty profiles), whatever
      mode was asked for. */
  lemma SnapshotFailsIff(mode: SelectionMode, start: int, pvs: seq<Device>, loads: seq<Device>, shapes: map<string, LoadShape>)
    requires Analysable(mode, start, pvs, loads, shapes)
    ensures SnapshotOf(mode, start, pvs, loads, shapes).Err? <==>
      || ResolveMode(mode, |pvs| > 0) == None
      || (forall i :: 0 <= i < FrameLength(start, pvs, loads, shapes) ==>
            !InDaytimeWindow(FrameIndex(start, pvs + loads, shapes)[i]))
  {
    if ResolveMode(mode, |pvs| > 0) != None {
      SnapshotOkIffTableOk(mode, start, pvs, loads, shapes);
      TableCompleteIff(CircuitProfiles(start, pvs, loads, shapes), |pvs| > 0);
    }
  }

  /** In max-load mode (and so in every circuit without PV systems) the snapshot is
      the earliest time of peak total load. */
  lemma MaxLoadIsEarliestPeak(mode: SelectionMode, start: int, pvs: seq<Device>, loads: seq<Device>, shapes: map<string, LoadShape>)
    requires Analysable(mode, start, pvs, loads, shapes)
    requires ResolveMode(mode, |pvs| > 0) == MaxLoad
    requires SnapshotOf(mode, start, pvs, loads, shapes).Ok?
    ensures RatioDefined(start, pvs, loads, shapes)
    ensures var p := CircuitProfiles(start, pvs, loads, shapes);
      exists k :: 0 <= k < |p.index| && SnapshotOf(mode, start, pvs, loads, shapes).value == p.index[k]
        && (forall i :: 0 <= i < |p.index| ==> p.load[i] <= p.load[k])
        && (forall i :: 0 <= i < k ==> p.load[i] < p.load[k])
  {
    SnapshotIsSelectedRow(mode, start, pvs, loads, shapes);
    var p := CircuitProfiles(start, pvs, loads, shapes);
    var k := BestPosition(p, PeakLoad).value;
    assert forall i :: 0 <= i < |p.index| ==> Mask(p, PeakLoad)[i];
  }

  /** In the windowed modes the snapshot lies in the daily window and is the earliest
      optimum of its column among the in-window time stamps. */
  lemma WindowedModeIsEarliestInWindow(mode: SelectionMode, start: int, pvs: seq<Device>, loads: seq<Device>, shapes: map<string, LoadShape>)
    requires Analysable(mode, start, pvs, loads, shapes)
    requires ResolveMode(mode, |pvs| > 0) in {MaxPvLoadRatio, DaytimeMinLoad, MaxPvMinusLoad}
    requires SnapshotOf(mode, start, pvs, loads, shapes).Ok?
    ensures CriterionOf(ResolveMode(mode, |pvs| > 0)).Ok? && RatioDefined(start, pvs, loads, shapes)
    ensures var p := CircuitProfiles(start, pvs, loads, shapes);
      var c := CriterionOf(ResolveMode(mode, |pvs| > 0)).value;
      var e := RuleOf(c).extremum;
      Applicable(p, c) &&
      exists k :: 0 <= k < |p.index| && SnapshotOf(mode, start, pvs, loads, shapes).value == p.index[k]
        && InDaytimeWindow(p.index[k])
        && (forall i :: 0 <= i < |p.index| && InDaytimeWindow(p.index[i]) ==> !Better(e, Series(p, c)[i], Series(p, c)[k]))
        && (forall i :: 0 <= i < k && InDaytimeWindow(p.index[i]) ==> Better(e, Series(p, c)[k], Series(p, c)[i]))
  {
    SnapshotIsSelectedRow(mode, start, pvs, loads, shapes);
    var p := CircuitProfiles(start, pvs, loads, shapes);
    var c := CriterionOf(ResolveMode(mode, |pvs| > 0)).value;
    var k := BestPosition(p, c).value;
    assert RuleOf(c).daytimeOnly;
    assert Mask(p, c)[k];
  }

  /** Without PV systems the mode is ignored, so every mode gives the same snapshot. */
  lemma NoPvIgnoresMode(mode: SelectionMode, start: int, loads: seq<Device>, shapes: map<string, LoadShape>)
    requires Analysable(mode, start, [], loads, shapes)
    ensures Analysable(MaxLoad, start, [], loads, shapes)
    ensures SnapshotOf(mode, start, [], loads, shapes) == SnapshotOf(MaxLoad, start, [], loads, shapes)
  {
  }

  /** The report: the snapshot time point and the table it was read from, which the
      source also writes out as JSON. */
  method GetSnapshotTimepoint(mode: SelectionMode, start: int, pvs: seq<Device>, loads: seq<Device>, shapes: map<string, LoadShape>)
    returns (r: Result<int, SelectionError>, table: seq<Candidate>)
    requires Analysable(mode, start, pvs, loads, shapes)
    ensures r == SnapshotOf(mode, start, pvs, loads, shapes)
    ensures r.Ok? ==> table == Tabulate(CircuitProfiles(start, pvs, loads, shapes), Criteria(|pvs| > 0)).value
  {
    table := [];
    var hasPv := |pvs| > 0;
    var resolved := mode;
    if !hasPv && mode != MaxLoad {
      resolved := MaxLoad;
    }
    var column := CriterionOf(resolved);
    if column.Err? {
      return Err(column.error), table;
    }
    var p := AggregateProfiles(start, pvs, loads, shapes);
    assert forall x :: x in Criteria(hasPv) ==> Applicable(p, x);
    var timepoints := FillTimepoints(p, Criteria(hasPv));
    if timepoints.Err? {
      return Err(timepoints.error), table;
    }
    table := timepoints.value;
    r := Lookup(table, column.value);
  }

  // ---------------------------------------------------------------------------
  // Worked examples
  // ---------------------------------------------------------------------------

  /** One load of 1 kW on the shape [5, 3, 9, 1], hourly from midnight. */
  function NightLoads(): seq<Device> { [Device("load", 1.0, "S")] }
  function NightShapes(): map<string, LoadShape> { map["S" := LoadShape([5.0, 3.0, 9.0, 1.0], 3600)] }

  lemma NightProfiles()
    ensures WellFormedCircuit(0, [], NightLoads(), NightShapes())
    ensures RatioDefined(0, [], NightLoads(), NightShapes())
    ensures CircuitProfiles(0, [], NightLoads(), NightShapes())
      == Profiles([0, 3600, 7200, 10800], [5.0, 3.0, 9.0, 1.0], NoPv)
  {
    var loads, shapes := NightLoads(), NightShapes();
    assert [] + loads == loads;
    assert WellFormedCircuit(0, [], loads, shapes);
    var p := CircuitProfiles(0, [], loads, shapes);
    assert p.index == TimeIndex(0, 3600, 4);
    assert loads[..0] == [];
    assert p.load == Plus(Zeros(4), Scaled([5.0, 3.0, 9.0, 1.0], 1.0));
  }

  /** Without PV, a ratio request falls back to max load, yet the night-only profile
      has no row for "Min Daytime Load", which is always computed, so the call fails. */
  lemma NightOnlyProfileFails()
    ensures Analysable(MaxPvLoadRatio, 0, [], NightLoads(), NightShapes())
    ensures SnapshotOf(MaxPvLoadRatio, 0, [], NightLoads(), NightShapes()) == Err(NoData(LeastDaytimeLoad))
  {
    NightProfiles();
    var p := Profiles([0, 3600, 7200, 10800], [5.0, 3.0, 9.0, 1.0], NoPv);
    assert Mask(p, PeakLoad)[0] && Mask(p, LeastLoad)[0];
    assert Mask(p, LeastDaytimeLoad) == [false, false, false, false];
    assert Criteria(false) == [PeakLoad, LeastLoad, LeastDaytimeLoad];
    assert Tabulate(p, [LeastDaytimeLoad]) == Err(NoData(LeastDaytimeLoad));
    assert [LeastLoad, LeastDaytimeLoad][1..] == [LeastDaytimeLoad];
    assert Tabulate(p, [LeastLoad, LeastDaytimeLoad]) == Err(NoData(LeastDaytimeLoad));
    assert [PeakLoad, LeastLoad, LeastDaytimeLoad][1..] == [LeastLoad, LeastDaytimeLoad];
    assert Tabulate(p, [PeakLoad, LeastLoad, LeastDaytimeLoad]) == Err(NoData(LeastDaytimeLoad));
  }

  /** The same load with five more points, the last one at 08:00: the table is
      complete and max load is read at 02:00. */
  function DayShapes(): map<string, LoadShape> { map["S" := LoadShape([5.0, 3.0, 9.0, 1.0, 1.0, 1.0, 1.0, 1.0, 2.0], 3600)] }

  lemma DayProfiles()
    ensures WellFormedCircuit(0, [], NightLoads(), DayShapes())
    ensures RatioDefined(0, [], NightLoads(), DayShapes())
    ensures CircuitProfiles(0, [], NightLoads(), DayShapes())
      == Profiles([0, 3600, 7200, 10800, 14400, 18000, 21600, 25200, 28800], [5.0, 3.0, 9.0, 1.0, 1.0, 1.0, 1.0, 1.0, 2.0], NoPv)
  {
    var loads, shapes := NightLoads(), DayShapes();
    assert [] + loads == loads;
    assert WellFormedCircuit(0, [], loads, shapes);
    var p := CircuitProfiles(0, [], loads, shapes);
    assert p.index == TimeIndex(0, 3600, 9);
    assert loads[..0] == [];
    assert p.load == Plus(Zeros(9), Scaled([5.0, 3.0, 9.0, 1.0, 1.0, 1.0, 1.0, 1.0, 2.0], 1.0));
  }

  lemma DayProfilePeaksAtTwo()
    ensures Analysable(MaxPvLoadRatio, 0, [], NightLoads(), DayShapes())
    ensures SnapshotOf(MaxPvLoadRatio, 0, [], NightLoads(), DayShapes()) == Ok(7200)
  {
    DayProfiles();
    var p := Profiles([0, 3600, 7200, 10800, 14400, 18000, 21600, 25200, 28800], [5.0, 3.0, 9.0, 1.0, 1.0, 1.0, 1.0, 1.0, 2.0], NoPv);
    assert InDaytimeWindow(p.index[8]);
    SnapshotFailsIff(MaxPvLoadRatio, 0, [], NightLoads(), DayShapes());
    SnapshotIsSelectedRow(MaxPvLoadRatio, 0, [], NightLoads(), DayShapes());
    assert Mask(p, PeakLoad) == KeepAll(9);
    assert IsFirstBest(Largest, p.load, KeepAll(9), 2);
    FirstBestIsUnique(Largest, p.load, KeepAll(9), 2);
    assert BestPosition(p, PeakLoad) == Ok(2);
  }
}
