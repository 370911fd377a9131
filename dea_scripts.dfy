/**
  The clear-observation rules of 10_Scripts/DEADataHandling.py: which
  timesteps of a Landsat or Sentinel-2 load are kept, how the sensors'
  results are merged, and the polygon name derived from a shapefile path.
  A timestep is a record of its time and its (y, x) pixel grids; the loads
  themselves and the Landsat PQ bit-flag decoding are inputs.
 */
module DeaScripts {
  import opened Wrappers
  import opened Exceptions
  import opened Labeled

  // ---------------------------------------------------------------------
  // Timesteps

  /** Seconds since 1970-01-01T00:00:00 UTC. */
  type Time = int

  /** A (y, x) raster of one timestep, row by row. */
  type Grid<T> = seq<seq<T>>

  predicate IsGrid<T>(g: Grid<T>, rows: nat, cols: nat) {
    |g| == rows && forall i :: 0 <= i < rows ==> |g[i]| == cols
  }

  /** One timestep of a product load: its time and one grid per band, in band order. */
  datatype Scene = Scene(time: Time, bands: seq<Grid<Cell>>)

  predicate SceneShaped(s: Scene, rows: nat, cols: nat) {
    forall b :: 0 <= b < |s.bands| ==> IsGrid(s.bands[b], rows, cols)
  }

  /** A timestep with the grid of its good-quality pixels. */
  datatype Paired = Paired(scene: Scene, good: Grid<bool>)

  predicate PairedShaped(x: Paired, rows: nat, cols: nat) {
    SceneShaped(x.scene, rows, cols) && IsGrid(x.good, rows, cols)
  }

  /** A kept timestep: its time, its band grids and the `data_perc` it was kept for. */
  datatype Observation = Observation(time: Time, bands: seq<Grid<Cell>>, dataPerc: real)

  // ---------------------------------------------------------------------
  // Clear fraction and threshold (lines 334-340 and 507-513)

  function CountRow(row: seq<bool>): (n: nat)
    ensures n <= |row|
  {
    if |row| == 0 then 0 else (if row[0] then 1 else 0) + CountRow(row[1..])
  }

  /** `good_quality.sum(dim=['x', 'y'])` for one timestep. */
  function CountGood(g: Grid<bool>): nat {
    if |g| == 0 then 0 else CountRow(g[0]) + CountGood(g[1..])
  }

  lemma {:induction false} CountGoodBound(g: Grid<bool>, rows: nat, cols: nat)
    requires IsGrid(g, rows, cols)
    ensures CountGood(g) <= rows * cols
    decreases rows
  {
    if rows > 0 {
      CountGoodBound(g[1..], rows - 1, cols);
      assert rows * cols == (rows - 1) * cols + cols;
    }
  }

  /**
    `data_perc` of one timestep: good pixels over rows × cols. An empty grid
    divides zero by zero, a NaN (None).
   */
  function ClearFraction(good: Grid<bool>, rows: nat, cols: nat): (r: Option<real>)
    requires IsGrid(good, rows, cols)
    ensures r.None? <==> rows == 0 || cols == 0
    ensures r.Some? ==> 0.0 <= r.value <= 1.0
  {
    if rows == 0 || cols == 0 then None
    else
      CountGoodBound(good, rows, cols);
      Proportion(CountGood(good), rows * cols);
      Some(CountGood(good) as real / (rows * cols) as real)
  }

  lemma Proportion(c: nat, n: nat)
    requires 0 < n && c <= n
    ensures 0.0 <= c as real / n as real <= 1.0
  {
    assert c as real / n as real <= n as real / n as real;
  }

  /** `data_perc >= masked_prop`; a NaN fraction compares false. */
  predicate ClearEnough(f: Option<real>, maskedProp: real) {
    f.Some? && f.value >= maskedProp
  }

  /** Every pixel good gives a fraction of exactly 1. */
  lemma {:induction false} AllGoodIsOne(good: Grid<bool>, rows: nat, cols: nat)
    requires IsGrid(good, rows, cols) && rows > 0 && cols > 0
    requires forall i, j :: 0 <= i < rows && 0 <= j < cols ==> good[i][j]
    ensures ClearFraction(good, rows, cols) == Some(1.0)
  {
    AllGoodCount(good, rows, cols);
    assert (rows * cols) as real / (rows * cols) as real == 1.0;
  }

  lemma {:induction false} AllGoodRow(row: seq<bool>)
    requires forall j :: 0 <= j < |row| ==> row[j]
    ensures CountRow(row) == |row|
    decreases |row|
  {
    if |row| > 0 {
      AllGoodRow(row[1..]);
    }
  }

  lemma {:induction false} AllGoodCount(good: Grid<bool>, rows: nat, cols: nat)
    requires IsGrid(good, rows, cols)
    requires forall i, j :: 0 <= i < rows && 0 <= j < cols ==> good[i][j]
    ensures CountGood(good) == rows * cols
    decreases rows
  {
    if rows > 0 {
      AllGoodRow(good[0]);
      AllGoodCount(good[1..], rows - 1, cols);
      assert rows * cols == (rows - 1) * cols + cols;
    }
  }

  // ---------------------------------------------------------------------
  // Pixel masking (`filtered.where(good_quality)`, lines 345-346 and 518-519)

  /** One band grid kept where `good` holds and NaN elsewhere. */
  function MaskGrid(g: Grid<Cell>, good: Grid<bool>, rows: nat, cols: nat): (r: Grid<Cell>)
    requires IsGrid(g, rows, cols) && IsGrid(good, rows, cols)
    ensures IsGrid(r, rows, cols)
    ensures forall i, j :: 0 <= i < rows && 0 <= j < cols ==> r[i][j] == if good[i][j] then g[i][j] else None
  {
    seq(rows, i requires 0 <= i < rows => seq(cols, j requires 0 <= j < cols => if good[i][j] then g[i][j] else None))
  }

  function MaskBands(bands: seq<Grid<Cell>>, good: Grid<bool>, rows: nat, cols: nat): (r: seq<Grid<Cell>>)
    requires forall b :: 0 <= b < |bands| ==> IsGrid(bands[b], rows, cols)
    requires IsGrid(good, rows, cols)
    ensures |r| == |bands| && forall b :: 0 <= b < |bands| ==> r[b] == MaskGrid(bands[b], good, rows, cols)
  {
    seq(|bands|, b requires 0 <= b < |bands| => MaskGrid(bands[b], good, rows, cols))
  }

  /** What a kept timestep becomes: masked when `apply_mask` is set, as loaded otherwise. */
  function Observe(x: Paired, rows: nat, cols: nat, applyMask: bool): (o: Observation)
    requires PairedShaped(x, rows, cols) && rows > 0 && cols > 0
    ensures o.time == x.scene.time && o.dataPerc == ClearFraction(x.good, rows, cols).value
    ensures applyMask ==> o.bands == MaskBands(x.scene.bands, x.good, rows, cols)
    ensures !applyMask ==> o.bands == x.scene.bands
  {
    Observation(
      x.scene.time,
      if applyMask then MaskBands(x.scene.bands, x.good, rows, cols) else x.scene.bands,
      ClearFraction(x.good, rows, cols).value)
  }

  /**
    `data.where(data.data_perc >= masked_prop, drop=True)`, then the
    optional mask: the timesteps clear enough, in order.
   */
  function KeepClear(ps: seq<Paired>, rows: nat, cols: nat, maskedProp: real, applyMask: bool): (r: seq<Observation>)
    requires forall x :: x in ps ==> PairedShaped(x, rows, cols)
    ensures |r| <= |ps|
    ensures forall o :: o in r ==>
      exists x ::
        && x in ps && PairedShaped(x, rows, cols)
        && ClearEnough(ClearFraction(x.good, rows, cols), maskedProp)
        && o == Observe(x, rows, cols, applyMask)
    ensures forall x :: x in ps && PairedShaped(x, rows, cols) && ClearEnough(ClearFraction(x.good, rows, cols), maskedProp) ==>
      Observe(x, rows, cols, applyMask) in r
  {
    if |ps| == 0 then []
    else
      var x := ps[0];
      assert PairedShaped(x, rows, cols);
      var rest := KeepClear(ps[1..], rows, cols, maskedProp, applyMask);
      assert forall y :: y in ps[1..] ==> y in ps;
      if ClearEnough(ClearFraction(x.good, rows, cols), maskedProp) then [Observe(x, rows, cols, applyMask)] + rest
      else rest
  }

  /** Every kept timestep reached the threshold, and its fraction is a proportion. */
  lemma KeptAreClear(ps: seq<Paired>, rows: nat, cols: nat, maskedProp: real, applyMask: bool)
    requires forall x :: x in ps ==> PairedShaped(x, rows, cols)
    ensures forall o :: o in KeepClear(ps, rows, cols, maskedProp, applyMask) ==>
      maskedProp <= o.dataPerc && 0.0 <= o.dataPerc <= 1.0
  {
    forall o | o in KeepClear(ps, rows, cols, maskedProp, applyMask)
      ensures maskedProp <= o.dataPerc && 0.0 <= o.dataPerc <= 1.0
    {
      var x :| x in ps && PairedShaped(x, rows, cols) &&
        ClearEnough(ClearFraction(x.good, rows, cols), maskedProp) && o == Observe(x, rows, cols, applyMask);
    }
  }

  // ---------------------------------------------------------------------
  // Merging the sensors (lines 363-365 and 531-533)

  /** `xr.concat` along time: the sensors' timesteps one sensor after another. */
  function Flatten(xss: seq<seq<Observation>>): seq<Observation> {
    if |xss| == 0 then [] else Flatten(xss[..|xss| - 1]) + xss[|xss| - 1]
  }

  /** The concatenation holds exactly the timesteps of its parts. */
  lemma {:induction false} FlattenMembers(xss: seq<seq<Observation>>, o: Observation)
    ensures o in Flatten(xss) <==> exists k :: 0 <= k < |xss| && o in xss[k]
    decreases |xss|
  {
    if |xss| > 0 {
      var n := |xss| - 1;
      FlattenMembers(xss[..n], o);
      if o in Flatten(xss[..n]) {
        var k :| 0 <= k < n && o in xss[..n][k];
        assert o in xss[k];
      }
      assert forall k :: 0 <= k < n ==> xss[..n][k] == xss[k];
    }
  }

  predicate SortedByTime(xs: seq<Observation>) {
    forall i, j :: 0 <= i < j < |xs| ==> xs[i].time <= xs[j].time
  }

  /** `o` placed before the first later timestep, after every earlier or equal one. */
  function Insert(o: Observation, xs: seq<Observation>): (r: seq<Observation>)
    ensures multiset(r) == multiset(xs) + multiset{o}
  {
    if |xs| == 0 || o.time <= xs[0].time then [o] + xs
    else
      assert xs == [xs[0]] + xs[1..];
      [xs[0]] + Insert(o, xs[1..])
  }

  /** `sortby('time')`: a stable sort by time. */
  function SortByTime(xs: seq<Observation>): (r: seq<Observation>)
    ensures multiset(r) == multiset(xs)
  {
    if |xs| == 0 then []
    else
      assert xs == [xs[0]] + xs[1..];
      Insert(xs[0], SortByTime(xs[1..]))
  }

  /** Putting `x` before a sorted sequence whose times are all at least `x.time` keeps it sorted. */
  lemma ConsSorted(x: Observation, ys: seq<Observation>)
    requires SortedByTime(ys)
    requires forall k :: 0 <= k < |ys| ==> x.time <= ys[k].time
    ensures SortedByTime([x] + ys)
  {
    var r := [x] + ys;
    forall i, j | 0 <= i < j < |r| ensures r[i].time <= r[j].time {
      assert r[j] == ys[j - 1];
      if i > 0 {
        assert r[i] == ys[i - 1];
      }
    }
  }

  /** A lower bound on the times of `o` and of `xs` bounds every time of `Insert(o, xs)`. */
  lemma InsertLowerBound(o: Observation, xs: seq<Observation>, t: Time)
    requires t <= o.time && forall k :: 0 <= k < |xs| ==> t <= xs[k].time
    ensures forall k :: 0 <= k < |Insert(o, xs)| ==> t <= Insert(o, xs)[k].time
  {
    var r := Insert(o, xs);
    forall k | 0 <= k < |r| ensures t <= r[k].time {
      assert r[k] in multiset(xs) + multiset{o};
      if r[k] != o {
        assert r[k] in xs;
      }
    }
  }

  lemma {:induction false} InsertSorted(o: Observation, xs: seq<Observation>)
    requires SortedByTime(xs)
    ensures SortedByTime(Insert(o, xs))
    decreases |xs|
  {
    if |xs| > 0 && o.time > xs[0].time {
      InsertSorted(o, xs[1..]);
      InsertLowerBound(o, xs[1..], xs[0].time);
      ConsSorted(xs[0], Insert(o, xs[1..]));
    }
  }

  /** The result of `sortby` is ordered by time and holds the same timesteps. */
  lemma {:induction false} SortByTimeSorts(xs: seq<Observation>)
    ensures SortedByTime(SortByTime(xs))
    ensures multiset(SortByTime(xs)) == multiset(xs)
    decreases |xs|
  {
    if |xs| > 0 {
      SortByTimeSorts(xs[1..]);
      InsertSorted(xs[0], SortByTime(xs[1..]));
    }
  }

  /** The timesteps of `xs` at time `t`, in order. */
  function AtTime(xs: seq<Observation>, t: Time): seq<Observation> {
    if |xs| == 0 then []
    else (if xs[0].time == t then [xs[0]] else []) + AtTime(xs[1..], t)
  }

  /** `AtTime` keeps exactly the timesteps at time `t`. */
  lemma {:induction false} AtTimeMembers(xs: seq<Observation>, t: Time)
    ensures forall o :: o in AtTime(xs, t) <==> o in xs && o.time == t
    decreases |xs|
  {
    if |xs| > 0 {
      AtTimeMembers(xs[1..], t);
      assert xs == [xs[0]] + xs[1..];
    }
  }

  lemma AtTimeCons(x: Observation, ys: seq<Observation>, t: Time)
    ensures AtTime([x] + ys, t) == (if x.time == t then [x] else []) + AtTime(ys, t)
  {
    assert ([x] + ys)[1..] == ys;
  }

  /** Inserting `o` puts it in front of the timesteps of its own time, which keep their order. */
  lemma {:induction false} InsertStable(o: Observation, xs: seq<Observation>, t: Time)
    ensures AtTime(Insert(o, xs), t) == (if o.time == t then [o] else []) + AtTime(xs, t)
    decreases |xs|
  {
    if |xs| > 0 && o.time > xs[0].time {
      var rest := Insert(o, xs[1..]);
      InsertStable(o, xs[1..], t);
      AtTimeCons(xs[0], rest, t);
      AtTimeCons(xs[0], xs[1..], t);
      assert xs == [xs[0]] + xs[1..];
    } else {
      AtTimeCons(o, xs, t);
    }
  }

  /** `sortby` is stable: timesteps with equal times keep their order of concatenation. */
  lemma {:induction false} SortByTimeStable(xs: seq<Observation>, t: Time)
    ensures AtTime(SortByTime(xs), t) == AtTime(xs, t)
    decreases |xs|
  {
    if |xs| > 0 {
      SortByTimeStable(xs[1..], t);
      InsertStable(xs[0], SortByTime(xs[1..]), t);
      AtTimeCons(xs[0], xs[1..], t);
      assert xs == [xs[0]] + xs[1..];
    }
  }

  /** The message `xr.concat` raises with when given no datasets. */
  const EmptyConcat := "must supply at least one object to concatenate"

  /** Lines 364-365 / 532-533: concatenate the per-sensor results, then sort by time. */
  function Combine(filteredSensors: seq<seq<Observation>>): (r: Result<seq<Observation>, Exception>)
    ensures r.Failure? <==> |filteredSensors| == 0
    ensures r.Failure? ==> r.error == ValueError(EmptyConcat)
    ensures r.Success? ==> multiset(r.value) == multiset(Flatten(filteredSensors))
  {
    if |filteredSensors| == 0 then Failure(ValueError(EmptyConcat))
    else Success(SortByTime(Flatten(filteredSensors)))
  }

  /** A combined result is ordered by time and holds exactly the timesteps of the sensors' results. */
  lemma CombineSorted(filteredSensors: seq<seq<Observation>>)
    requires |filteredSensors| > 0
    ensures SortedByTime(Combine(filteredSensors).value)
    ensures forall o :: o in Combine(filteredSensors).value <==> o in Flatten(filteredSensors)
  {
    var all := Flatten(filteredSensors);
    SortByTimeSorts(all);
    forall o ensures o in SortByTime(all) <==> o in all {
      assert o in SortByTime(all) <==> o in multiset(SortByTime(all));
    }
  }

  // ---------------------------------------------------------------------
  // One Landsat sensor (lines 278-355)

  /** A PQ timestep: its time and the good-pixel grid `make_mask` derives from it. */
  datatype PqScene = PqScene(time: Time, good: Grid<bool>)

  /** What the two `dc.load` calls return for one sensor, on a rows × cols grid. */
  datatype LandsatLoad = LandsatLoad(data: seq<Scene>, pq: seq<PqScene>, rows: nat, cols: nat)

  predicate LandsatShaped(ld: LandsatLoad) {
    && (forall s :: s in ld.data ==> SceneShaped(s, ld.rows, ld.cols))
    && (forall p :: p in ld.pq ==> IsGrid(p.good, ld.rows, ld.cols))
  }

  /** 2003-05-30T00:00:00Z, the `np.datetime64('2003-05-30')` of line 308. */
  const SlcOffStart: Time := 1054252800

  /** A timestep survives the SLC-off filter (lines 304-308). */
  predicate SlcOk(sensor: string, ls7SlcOff: bool, t: Time) {
    ls7SlcOff || sensor != "ls7" || t < SlcOffStart
  }

  /** `data.where(data.time < cutoff, drop=True)`. */
  function Before(data: seq<Scene>, cutoff: Time): (r: seq<Scene>)
    ensures |r| <= |data|
    ensures forall s :: s in r <==> s in data && s.time < cutoff
  {
    if |data| == 0 then []
    else (if data[0].time < cutoff then [data[0]] else []) + Before(data[1..], cutoff)
  }

  /** Lines 304-308: Landsat 7 loses its SLC-off timesteps unless `ls7_slc_off` is set. */
  function DropSlcOff(sensor: string, ls7SlcOff: bool, data: seq<Scene>): (r: seq<Scene>)
    ensures forall s :: s in r <==> s in data && SlcOk(sensor, ls7SlcOff, s.time)
    ensures ls7SlcOff || sensor != "ls7" ==> r == data
  {
    if !ls7SlcOff && sensor == "ls7" then Before(data, SlcOffStart) else data
  }

  /** The PQ timestep at time `t`, if the PQ load has one. */
  function PqAt(pq: seq<PqScene>, t: Time): (r: Option<PqScene>)
    ensures r.Some? ==> r.value in pq && r.value.time == t
    ensures r.None? <==> forall p :: p in pq ==> p.time != t
  {
    if |pq| == 0 then None
    else if pq[0].time == t then Some(pq[0])
    else PqAt(pq[1..], t)
  }

  /**
    Lines 311-313: the times of `data - pq` are those present in both loads;
    each data timestep at such a time is paired with the PQ grid of that time.
   */
  function Matched(data: seq<Scene>, pq: seq<PqScene>): (r: seq<Paired>)
    ensures |r| <= |data|
    ensures forall x :: x in r ==> x.scene in data && PqAt(pq, x.scene.time).Some? && x.good == PqAt(pq, x.scene.time).value.good
    ensures forall s :: s in data && PqAt(pq, s.time).Some? ==> Paired(s, PqAt(pq, s.time).value.good) in r
  {
    if |data| == 0 then []
    else
      var rest := Matched(data[1..], pq);
      assert forall s :: s in data[1..] ==> s in data;
      match PqAt(pq, data[0].time)
      case None => rest
      case Some(p) => [Paired(data[0], p.good)] + rest
  }

  /** The timesteps one Landsat sensor contributes: SLC filter, PQ match, threshold and optional mask. */
  function LandsatSensor(sensor: string, ld: LandsatLoad, maskedProp: real, applyMask: bool, ls7SlcOff: bool): seq<Observation>
    requires LandsatShaped(ld)
  {
    var ps := Matched(DropSlcOff(sensor, ls7SlcOff, ld.data), ld.pq);
    assert forall x :: x in ps ==> PairedShaped(x, ld.rows, ld.cols);
    KeepClear(ps, ld.rows, ld.cols, maskedProp, applyMask)
  }

  /** Data timestep `s` of a Landsat load is kept: SLC filter passed, PQ present and clear enough. */
  predicate LandsatKept(sensor: string, ld: LandsatLoad, maskedProp: real, ls7SlcOff: bool, s: Scene)
    requires LandsatShaped(ld)
  {
    && SlcOk(sensor, ls7SlcOff, s.time)
    && PqAt(ld.pq, s.time).Some?
    && ClearEnough(ClearFraction(PqAt(ld.pq, s.time).value.good, ld.rows, ld.cols), maskedProp)
  }

  /** The observation a kept Landsat timestep becomes. */
  function LandsatObserve(ld: LandsatLoad, s: Scene, applyMask: bool): (o: Observation)
    requires LandsatShaped(ld) && s in ld.data && ld.rows > 0 && ld.cols > 0
    requires PqAt(ld.pq, s.time).Some?
    ensures o.time == s.time
  {
    Observe(Paired(s, PqAt(ld.pq, s.time).value.good), ld.rows, ld.cols, applyMask)
  }

  /**
    A Landsat sensor's result holds exactly the observations of the data
    timesteps that pass the SLC filter, have PQ at their time and are clear
    enough.
   */
  lemma LandsatSensorKeeps(sensor: string, ld: LandsatLoad, maskedProp: real, applyMask: bool, ls7SlcOff: bool)
    requires LandsatShaped(ld)
    ensures forall o :: o in LandsatSensor(sensor, ld, maskedProp, applyMask, ls7SlcOff) ==>
      exists s ::
        && s in ld.data && LandsatKept(sensor, ld, maskedProp, ls7SlcOff, s)
        && o == LandsatObserve(ld, s, applyMask)
    ensures forall s :: s in ld.data && LandsatKept(sensor, ld, maskedProp, ls7SlcOff, s) ==>
      LandsatObserve(ld, s, applyMask) in LandsatSensor(sensor, ld, maskedProp, applyMask, ls7SlcOff)
  {
    var kept := DropSlcOff(sensor, ls7SlcOff, ld.data);
    var ps := Matched(kept, ld.pq);
    assert forall x :: x in ps ==> PairedShaped(x, ld.rows, ld.cols);
    var r := LandsatSensor(sensor, ld, maskedProp, applyMask, ls7SlcOff);
    forall o | o in r
      ensures exists s ::
        && s in ld.data && LandsatKept(sensor, ld, maskedProp, ls7SlcOff, s)
        && o == LandsatObserve(ld, s, applyMask)
    {
      var x :| x in ps && PairedShaped(x, ld.rows, ld.cols) &&
        ClearEnough(ClearFraction(x.good, ld.rows, ld.cols), maskedProp) && o == Observe(x, ld.rows, ld.cols, applyMask);
      assert x.scene in kept;
      assert LandsatKept(sensor, ld, maskedProp, ls7SlcOff, x.scene);
      assert x == Paired(x.scene, PqAt(ld.pq, x.scene.time).value.good);
    }
    forall s | s in ld.data && LandsatKept(sensor, ld, maskedProp, ls7SlcOff, s)
      ensures LandsatObserve(ld, s, applyMask) in r
    {
      assert s in kept;
      var x := Paired(s, PqAt(ld.pq, s.time).value.good);
      assert x in ps && PairedShaped(x, ld.rows, ld.cols);
    }
  }

  /** With `ls7_slc_off` unset, no Landsat 7 observation dates from the SLC failure or later. */
  lemma Ls7BeforeSlcOff(ld: LandsatLoad, maskedProp: real, applyMask: bool)
    requires LandsatShaped(ld)
    ensures forall o :: o in LandsatSensor("ls7", ld, maskedProp, applyMask, false) ==> o.time < SlcOffStart
  {
    LandsatSensorKeeps("ls7", ld, maskedProp, applyMask, false);
  }

  // ---------------------------------------------------------------------
  // The loops over the sensors (lines 269-365 and 465-533)

  /**
    `filtered_sensors` after a loop that skips every sensor whose outcome is
    an error and appends the result of every other, in sensor order.
   */
  function Collect(sensors: seq<string>, outcome: string -> Option<seq<Observation>>): (r: seq<seq<Observation>>)
    ensures |r| <= |sensors|
    decreases |sensors|
  {
    if |sensors| == 0 then []
    else
      var prev := Collect(sensors[..|sensors| - 1], outcome);
      match outcome(sensors[|sensors| - 1])
      case None => prev
      case Some(x) => prev + [x]
  }

  /** Nothing is collected exactly when every sensor fails. */
  lemma {:induction false} CollectEmpty(sensors: seq<string>, outcome: string -> Option<seq<Observation>>)
    ensures |Collect(sensors, outcome)| == 0 <==> forall i :: 0 <= i < |sensors| ==> outcome(sensors[i]).None?
    decreases |sensors|
  {
    if |sensors| > 0 {
      var n := |sensors| - 1;
      CollectEmpty(sensors[..n], outcome);
      assert forall i :: 0 <= i < n ==> sensors[..n][i] == sensors[i];
    }
  }

  /** The concatenation of what is collected holds exactly what the succeeding sensors return. */
  lemma {:induction false} CollectMembers(sensors: seq<string>, outcome: string -> Option<seq<Observation>>, o: Observation)
    ensures o in Flatten(Collect(sensors, outcome)) <==>
      exists i :: 0 <= i < |sensors| && outcome(sensors[i]).Some? && o in outcome(sensors[i]).value
    decreases |sensors|
  {
    if |sensors| > 0 {
      var n := |sensors| - 1;
      var prefix := sensors[..n];
      CollectMembers(prefix, outcome, o);
      var prev := Collect(prefix, outcome);
      if outcome(sensors[n]).Some? {
        var x := outcome(sensors[n]).value;
        assert (prev + [x])[..|prev|] == prev;
        assert Flatten(prev + [x]) == Flatten(prev) + x;
      }
      if o in Flatten(prev) {
        var i :| 0 <= i < n && outcome(prefix[i]).Some? && o in outcome(prefix[i]).value;
        assert prefix[i] == sensors[i];
      }
      assert forall i :: 0 <= i < n ==> prefix[i] == sensors[i];
    }
  }

  /**
    `filtered_sensors` after a loop in which the first sensor whose outcome
    is an error ends the whole call with that error.
   */
  function CollectAll(sensors: seq<string>, outcome: string -> Result<seq<Observation>, Exception>): (r: Result<seq<seq<Observation>>, Exception>)
    ensures r.Success? ==> |r.value| == |sensors|
    decreases |sensors|
  {
    if |sensors| == 0 then Success([])
    else
      var prev :- CollectAll(sensors[..|sensors| - 1], outcome);
      var x :- outcome(sensors[|sensors| - 1]);
      Success(prev + [x])
  }

  /** No sensor before the `i`-th fails. */
  predicate NoFailureBefore<T>(sensors: seq<string>, outcome: string -> Result<T, Exception>, i: nat)
    requires i <= |sensors|
  {
    forall j :: 0 <= j < i ==> outcome(sensors[j]).Success?
  }

  /** The loop fails exactly when some sensor does, and then with the first sensor's error. */
  lemma {:induction false} CollectAllFails(sensors: seq<string>, outcome: string -> Result<seq<Observation>, Exception>)
    ensures CollectAll(sensors, outcome).Failure? <==> exists i :: 0 <= i < |sensors| && outcome(sensors[i]).Failure?
    ensures forall i :: 0 <= i < |sensors| && outcome(sensors[i]).Failure? && NoFailureBefore(sensors, outcome, i) ==>
      CollectAll(sensors, outcome) == Failure(outcome(sensors[i]).error)
    decreases |sensors|
  {
    if |sensors| > 0 {
      var n := |sensors| - 1;
      var prefix := sensors[..n];
      CollectAllFails(prefix, outcome);
      assert forall i :: 0 <= i < n ==> prefix[i] == sensors[i];
      if CollectAll(prefix, outcome).Failure? {
        var i :| 0 <= i < n && outcome(prefix[i]).Failure?;
        assert outcome(sensors[i]).Failure?;
      }
    }
  }

  /** When the loop completes, each sensor contributed its result, in order. */
  lemma {:induction false} CollectAllMembers(sensors: seq<string>, outcome: string -> Result<seq<Observation>, Exception>, o: Observation)
    requires CollectAll(sensors, outcome).Success?
    ensures o in Flatten(CollectAll(sensors, outcome).value) <==>
      exists i :: 0 <= i < |sensors| && outcome(sensors[i]).Success? && o in outcome(sensors[i]).value
    decreases |sensors|
  {
    if |sensors| > 0 {
      var n := |sensors| - 1;
      var prefix := sensors[..n];
      CollectAllMembers(prefix, outcome, o);
      var prev := CollectAll(prefix, outcome).value;
      var x := outcome(sensors[n]).value;
      assert (prev + [x])[..|prev|] == prev;
      assert Flatten(prev + [x]) == Flatten(prev) + x;
      if o in Flatten(prev) {
        var i :| 0 <= i < n && outcome(prefix[i]).Success? && o in outcome(prefix[i]).value;
        assert prefix[i] == sensors[i];
      }
      assert forall i :: 0 <= i < n ==> prefix[i] == sensors[i];
    }
  }

  // ---------------------------------------------------------------------
  // load_clearlandsat (lines 269-365)

  /** A Landsat load whose grids agree, as two loads of one query do. */
  type ShapedLandsatLoad = ld: LandsatLoad | LandsatShaped(ld) witness LandsatLoad([], [], 0, 0)

  /**
    One pass of the Landsat loop body: a sensor whose `dc.load` raises is
    skipped by the bare `except` of lines 357-360.
   */
  function LandsatOutcome(dcLoad: string -> Result<ShapedLandsatLoad, Exception>,
                          maskedProp: real, applyMask: bool, ls7SlcOff: bool): string -> Option<seq<Observation>>
  {
    sensor =>
      match dcLoad(sensor)
      case Failure(_) => None
      case Success(ld) => Some(LandsatSensor(sensor, ld, maskedProp, applyMask, ls7SlcOff))
  }

  /** `load_clearlandsat` up to `mask_invalid_data`: the merged, time-sorted clear timesteps. */
  function ClearLandsat(sensors: seq<string>, dcLoad: string -> Result<ShapedLandsatLoad, Exception>,
                        maskedProp: real, applyMask: bool, ls7SlcOff: bool): Result<seq<Observation>, Exception>
  {
    Combine(Collect(sensors, LandsatOutcome(dcLoad, maskedProp, applyMask, ls7SlcOff)))
  }

  /** The loop of lines 269-365 over the sensors, then the merge. */
  method LoadClearLandsat(sensors: seq<string>, dcLoad: string -> Result<ShapedLandsatLoad, Exception>,
                          maskedProp: real, applyMask: bool, ls7SlcOff: bool) returns (r: Result<seq<Observation>, Exception>)
    ensures r == ClearLandsat(sensors, dcLoad, maskedProp, applyMask, ls7SlcOff)
  {
    var filteredSensors: seq<seq<Observation>> := [];
    for k := 0 to |sensors|
      invariant filteredSensors == Collect(sensors[..k], LandsatOutcome(dcLoad, maskedProp, applyMask, ls7SlcOff))
    {
      assert sensors[..k + 1][..k] == sensors[..k];
      var sensor := sensors[k];
      match dcLoad(sensor) {
        case Failure(_) =>
        case Success(ld) =>
          var filtered := LandsatSensor(sensor, ld, maskedProp, applyMask, ls7SlcOff);
          filteredSensors := filteredSensors + [filtered];
      }
    }
    assert sensors[..|sensors|] == sensors;
    r := Combine(filteredSensors);
  }

  /** `load_clearlandsat` raises (the empty `xr.concat`) exactly when every sensor is skipped. */
  lemma ClearLandsatFails(sensors: seq<string>, dcLoad: string -> Result<ShapedLandsatLoad, Exception>,
                          maskedProp: real, applyMask: bool, ls7SlcOff: bool)
    ensures ClearLandsat(sensors, dcLoad, maskedProp, applyMask, ls7SlcOff).Failure? <==>
      forall i :: 0 <= i < |sensors| ==> dcLoad(sensors[i]).Failure?
    ensures ClearLandsat(sensors, dcLoad, maskedProp, applyMask, ls7SlcOff).Failure? ==>
      ClearLandsat(sensors, dcLoad, maskedProp, applyMask, ls7SlcOff).error == ValueError(EmptyConcat)
  {
    var outcome := LandsatOutcome(dcLoad, maskedProp, applyMask, ls7SlcOff);
    CollectEmpty(sensors, outcome);
    assert forall i :: 0 <= i < |sensors| ==> (outcome(sensors[i]).None? <==> dcLoad(sensors[i]).Failure?);
  }

  /** One timestep is in the concatenation exactly when a sensor whose load succeeded keeps it. */
  lemma LandsatMember(sensors: seq<string>, dcLoad: string -> Result<ShapedLandsatLoad, Exception>,
                      maskedProp: real, applyMask: bool, ls7SlcOff: bool, o: Observation)
    ensures o in Flatten(Collect(sensors, LandsatOutcome(dcLoad, maskedProp, applyMask, ls7SlcOff))) <==>
      exists i :: 0 <= i < |sensors| && dcLoad(sensors[i]).Success? &&
        o in LandsatSensor(sensors[i], dcLoad(sensors[i]).value, maskedProp, applyMask, ls7SlcOff)
  {
    CollectMembers(sensors, LandsatOutcome(dcLoad, maskedProp, applyMask, ls7SlcOff), o);
  }

  /**
    Otherwise it returns, sorted by time, exactly the timesteps that the
    sensors whose load succeeded keep.
   */
  lemma ClearLandsatContents(sensors: seq<string>, dcLoad: string -> Result<ShapedLandsatLoad, Exception>,
                             maskedProp: real, applyMask: bool, ls7SlcOff: bool)
    ensures ClearLandsat(sensors, dcLoad, maskedProp, applyMask, ls7SlcOff).Success? ==>
      && SortedByTime(ClearLandsat(sensors, dcLoad, maskedProp, applyMask, ls7SlcOff).value)
      && forall o :: o in ClearLandsat(sensors, dcLoad, maskedProp, applyMask, ls7SlcOff).value <==>
        exists i :: 0 <= i < |sensors| && dcLoad(sensors[i]).Success? &&
          o in LandsatSensor(sensors[i], dcLoad(sensors[i]).value, maskedProp, applyMask, ls7SlcOff)
  {
    var rs := Collect(sensors, LandsatOutcome(dcLoad, maskedProp, applyMask, ls7SlcOff));
    if |rs| > 0 {
      CombineSorted(rs);
      forall o {
        LandsatMember(sensors, dcLoad, maskedProp, applyMask, ls7SlcOff, o);
      }
    }
  }

  // ---------------------------------------------------------------------
  // One Sentinel-2 sensor (lines 465-522)

  /** A Sentinel-2 timestep: its time, its band grids and its pixel-quality grid (NaN as None). */
  datatype SentinelScene = SentinelScene(time: Time, bands: seq<Grid<Cell>>, quality: Grid<Cell>)

  /** What the two `dc.load` calls return for one sensor, on a rows × cols grid. */
  datatype SentinelLoad = SentinelLoad(scenes: seq<SentinelScene>, rows: nat, cols: nat)

  predicate SentinelShaped(ld: SentinelLoad) {
    forall s :: s in ld.scenes ==> SceneShaped(Scene(s.time, s.bands), ld.rows, ld.cols) && IsGrid(s.quality, ld.rows, ld.cols)
  }

  type ShapedSentinelLoad = ld: SentinelLoad | SentinelShaped(ld) witness SentinelLoad([], 0, 0)

  /** The `mask_values` default: nodata, cloud and cloud shadow. */
  const DefaultMaskValues: seq<real> := [0.0, 2.0, 3.0]

  /** `np.isin(q, mask_values)`: NaN is in no list. */
  predicate IsIn(q: Cell, maskValues: seq<real>) {
    match q
    case None => false
    case Some(v) => v in maskValues
  }

  /**
    Lines 503-504: `np.isin(..., invert=True)` marks the values not listed,
    `where` turns the others into NaN and `notnull` keeps what is left.
   */
  function GoodGrid(quality: Grid<Cell>, maskValues: seq<real>, rows: nat, cols: nat): (r: Grid<bool>)
    requires IsGrid(quality, rows, cols)
    ensures IsGrid(r, rows, cols)
    ensures forall i, j :: 0 <= i < rows && 0 <= j < cols ==>
      (r[i][j] <==> quality[i][j].Some? && quality[i][j].value !in maskValues)
  {
    seq(rows, i requires 0 <= i < rows => seq(cols, j requires 0 <= j < cols =>
      var notListed := !IsIn(quality[i][j], maskValues);
      var kept := if notListed then quality[i][j] else None;
      kept.Some?))
  }

  /** A Sentinel timestep with its good-pixel grid. */
  function SentinelPaired(s: SentinelScene, maskValues: seq<real>, rows: nat, cols: nat): (x: Paired)
    requires SceneShaped(Scene(s.time, s.bands), rows, cols) && IsGrid(s.quality, rows, cols)
    ensures PairedShaped(x, rows, cols) && x.scene == Scene(s.time, s.bands)
  {
    Paired(Scene(s.time, s.bands), GoodGrid(s.quality, maskValues, rows, cols))
  }

  /** The timesteps one Sentinel-2 sensor contributes: threshold and optional mask. */
  function SentinelSensor(ld: ShapedSentinelLoad, maskValues: seq<real>, maskedProp: real, applyMask: bool): seq<Observation> {
    var ps := seq(|ld.scenes|, i requires 0 <= i < |ld.scenes| =>
      assert ld.scenes[i] in ld.scenes;
      SentinelPaired(ld.scenes[i], maskValues, ld.rows, ld.cols));
    KeepClear(ps, ld.rows, ld.cols, maskedProp, applyMask)
  }

  /** A Sentinel timestep is kept exactly when its share of pixels of unlisted quality reaches `masked_prop`. */
  lemma SentinelSensorKeeps(ld: ShapedSentinelLoad, maskValues: seq<real>, maskedProp: real, applyMask: bool)
    ensures forall o :: o in SentinelSensor(ld, maskValues, maskedProp, applyMask) ==>
      exists s ::
        && s in ld.scenes
        && ClearEnough(ClearFraction(SentinelPaired(s, maskValues, ld.rows, ld.cols).good, ld.rows, ld.cols), maskedProp)
        && o == Observe(SentinelPaired(s, maskValues, ld.rows, ld.cols), ld.rows, ld.cols, applyMask)
    ensures forall s ::
      (s in ld.scenes &&
       ClearEnough(ClearFraction(SentinelPaired(s, maskValues, ld.rows, ld.cols).good, ld.rows, ld.cols), maskedProp)) ==>
        Observe(SentinelPaired(s, maskValues, ld.rows, ld.cols), ld.rows, ld.cols, applyMask) in
          SentinelSensor(ld, maskValues, maskedProp, applyMask)
  {
    var ps := seq(|ld.scenes|, i requires 0 <= i < |ld.scenes| =>
      assert ld.scenes[i] in ld.scenes;
      SentinelPaired(ld.scenes[i], maskValues, ld.rows, ld.cols));
    assert forall x :: x in ps ==> PairedShaped(x, ld.rows, ld.cols);
    forall o | o in SentinelSensor(ld, maskValues, maskedProp, applyMask)
      ensures exists s ::
        && s in ld.scenes
        && ClearEnough(ClearFraction(SentinelPaired(s, maskValues, ld.rows, ld.cols).good, ld.rows, ld.cols), maskedProp)
        && o == Observe(SentinelPaired(s, maskValues, ld.rows, ld.cols), ld.rows, ld.cols, applyMask)
    {
      var x :| x in ps && PairedShaped(x, ld.rows, ld.cols) &&
        ClearEnough(ClearFraction(x.good, ld.rows, ld.cols), maskedProp) && o == Observe(x, ld.rows, ld.cols, applyMask);
      var i :| 0 <= i < |ps| && ps[i] == x;
      assert ld.scenes[i] in ld.scenes;
    }
    forall s | s in ld.scenes &&
      ClearEnough(ClearFraction(SentinelPaired(s, maskValues, ld.rows, ld.cols).good, ld.rows, ld.cols), maskedProp)
      ensures Observe(SentinelPaired(s, maskValues, ld.rows, ld.cols), ld.rows, ld.cols, applyMask) in
        SentinelSensor(ld, maskValues, maskedProp, applyMask)
    {
      var i :| 0 <= i < |ld.scenes| && ld.scenes[i] == s;
      assert ps[i] in ps;
    }
  }

  // ---------------------------------------------------------------------
  // load_clearsentinel (lines 465-539)

  /** One pass of the Sentinel loop body; there is no `try`, so a load that raises ends the call. */
  function SentinelOutcome(dcLoad: string -> Result<ShapedSentinelLoad, Exception>,
                           maskValues: seq<real>, maskedProp: real, applyMask: bool): string -> Result<seq<Observation>, Exception>
  {
    sensor =>
      match dcLoad(sensor)
      case Failure(e) => Failure(e)
      case Success(ld) => Success(SentinelSensor(ld, maskValues, maskedProp, applyMask))
  }

  /** `load_clearsentinel` up to `mask_invalid_data`. */
  function ClearSentinel(sensors: seq<string>, dcLoad: string -> Result<ShapedSentinelLoad, Exception>,
                         maskValues: seq<real>, maskedProp: real, applyMask: bool): Result<seq<Observation>, Exception>
  {
    var filteredSensors :- CollectAll(sensors, SentinelOutcome(dcLoad, maskValues, maskedProp, applyMask));
    Combine(filteredSensors)
  }

  /** The loop of lines 465-522 over the sensors, then the merge. */
  method LoadClearSentinel(sensors: seq<string>, dcLoad: string -> Result<ShapedSentinelLoad, Exception>,
                           maskValues: seq<real>, maskedProp: real, applyMask: bool) returns (r: Result<seq<Observation>, Exception>)
    ensures r == ClearSentinel(sensors, dcLoad, maskValues, maskedProp, applyMask)
  {
    var filteredSensors: seq<seq<Observation>> := [];
    for k := 0 to |sensors|
      invariant CollectAll(sensors[..k], SentinelOutcome(dcLoad, maskValues, maskedProp, applyMask)) == Success(filteredSensors)
    {
      assert sensors[..k + 1][..k] == sensors[..k];
      var sensor := sensors[k];
      match dcLoad(sensor) {
        case Failure(e) =>
          CollectAllFailurePersists(sensors, SentinelOutcome(dcLoad, maskValues, maskedProp, applyMask), k + 1);
          return Failure(e);
        case Success(ld) =>
          var filtered := SentinelSensor(ld, maskValues, maskedProp, applyMask);
          filteredSensors := filteredSensors + [filtered];
      }
    }
    assert sensors[..|sensors|] == sensors;
    r := Combine(filteredSensors);
  }

  /** Once a prefix of the sensors fails, the whole loop fails with the same error. */
  lemma {:induction false} CollectAllFailurePersists(sensors: seq<string>, outcome: string -> Result<seq<Observation>, Exception>, k: nat)
    requires k <= |sensors| && CollectAll(sensors[..k], outcome).Failure?
    ensures CollectAll(sensors, outcome) == CollectAll(sensors[..k], outcome)
    decreases |sensors| - k
  {
    if k < |sensors| {
      assert sensors[..k + 1][..k] == sensors[..k];
      CollectAllFailurePersists(sensors, outcome, k + 1);
    } else {
      assert sensors[..k] == sensors;
    }
  }

  /**
    `load_clearsentinel` fails when a load raises, with the error of the
    first sensor that does, or else when there is no sensor at all (the
    empty `xr.concat`).
   */
  lemma ClearSentinelFails(sensors: seq<string>, dcLoad: string -> Result<ShapedSentinelLoad, Exception>,
                           maskValues: seq<real>, maskedProp: real, applyMask: bool)
    ensures ClearSentinel(sensors, dcLoad, maskValues, maskedProp, applyMask).Failure? <==>
      |sensors| == 0 || exists i :: 0 <= i < |sensors| && dcLoad(sensors[i]).Failure?
    ensures |sensors| == 0 ==> ClearSentinel(sensors, dcLoad, maskValues, maskedProp, applyMask) == Failure(ValueError(EmptyConcat))
    ensures forall i ::
      (0 <= i < |sensors| && dcLoad(sensors[i]).Failure? &&
       NoFailureBefore(sensors, dcLoad, i)) ==>
        ClearSentinel(sensors, dcLoad, maskValues, maskedProp, applyMask) == Failure(dcLoad(sensors[i]).error)
  {
    var outcome := SentinelOutcome(dcLoad, maskValues, maskedProp, applyMask);
    CollectAllFails(sensors, outcome);
    assert forall i :: 0 <= i < |sensors| ==> (outcome(sensors[i]).Failure? <==> dcLoad(sensors[i]).Failure?);
    assert forall i :: 0 <= i < |sensors| && dcLoad(sensors[i]).Failure? ==> outcome(sensors[i]).error == dcLoad(sensors[i]).error;
  }

  /** One timestep is in the concatenation exactly when one of the sensors keeps it. */
  lemma SentinelMember(sensors: seq<string>, dcLoad: string -> Result<ShapedSentinelLoad, Exception>,
                       maskValues: seq<real>, maskedProp: real, applyMask: bool, o: Observation)
    requires CollectAll(sensors, SentinelOutcome(dcLoad, maskValues, maskedProp, applyMask)).Success?
    ensures o in Flatten(CollectAll(sensors, SentinelOutcome(dcLoad, maskValues, maskedProp, applyMask)).value) <==>
      exists i :: 0 <= i < |sensors| && dcLoad(sensors[i]).Success? &&
        o in SentinelSensor(dcLoad(sensors[i]).value, maskValues, maskedProp, applyMask)
  {
    CollectAllMembers(sensors, SentinelOutcome(dcLoad, maskValues, maskedProp, applyMask), o);
  }

  /** A successful Sentinel merge is ordered by time and holds exactly the timesteps every sensor keeps. */
  lemma ClearSentinelContents(sensors: seq<string>, dcLoad: string -> Result<ShapedSentinelLoad, Exception>,
                              maskValues: seq<real>, maskedProp: real, applyMask: bool)
    ensures ClearSentinel(sensors, dcLoad, maskValues, maskedProp, applyMask).Success? ==>
      && SortedByTime(ClearSentinel(sensors, dcLoad, maskValues, maskedProp, applyMask).value)
      && forall o :: o in ClearSentinel(sensors, dcLoad, maskValues, maskedProp, applyMask).value <==>
        exists i :: 0 <= i < |sensors| && dcLoad(sensors[i]).Success? &&
          o in SentinelSensor(dcLoad(sensors[i]).value, maskValues, maskedProp, applyMask)
  {
    var rs := CollectAll(sensors, SentinelOutcome(dcLoad, maskValues, maskedProp, applyMask));
    if rs.Success? && |rs.value| > 0 {
      CombineSorted(rs.value);
      forall o {
        SentinelMember(sensors, dcLoad, maskValues, maskedProp, applyMask, o);
      }
    }
  }

  // ---------------------------------------------------------------------
  // shape_name (lines 591-606)

  /** Python's `str.split(sep)`: the pieces between separators, at least one. */
  function SplitOn(s: string, sep: char): (parts: seq<string>)
    ensures |parts| >= 1
    ensures forall k :: 0 <= k < |parts| ==> sep !in parts[k]
  {
    if |s| == 0 then [""]
    else
      var rest := SplitOn(s[1..], sep);
      if s[0] == sep then [""] + rest
      else [[s[0]] + rest[0]] + rest[1..]
  }

  /** `sep.join(parts)`. */
  function JoinOn(parts: seq<string>, sep: char): string
    requires |parts| >= 1
  {
    if |parts| == 1 then parts[0] else parts[0] + [sep] + JoinOn(parts[1..], sep)
  }

  /** Joining with the separator undoes the split. */
  lemma {:induction false} JoinSplit(s: string, sep: char)
    ensures JoinOn(SplitOn(s, sep), sep) == s
    decreases |s|
  {
    if |s| > 0 {
      var rest := SplitOn(s[1..], sep);
      JoinSplit(s[1..], sep);
      if s[0] == sep {
        assert ([""] + rest)[1..] == rest;
      } else {
        var parts := [[s[0]] + rest[0]] + rest[1..];
        if |rest| > 1 {
          assert parts[1..] == rest[1..];
        }
        assert s == [s[0]] + s[1..];
      }
    }
  }

  /** Splitting a piece free of the separator in front of `t` extends the first piece of `t`'s split. */
  lemma {:induction false} SplitOnPrefix(p: string, t: string, sep: char)
    requires sep !in p
    ensures SplitOn(p + t, sep) == [p + SplitOn(t, sep)[0]] + SplitOn(t, sep)[1..]
    decreases |p|
  {
    if |p| > 0 {
      assert (p + t)[1..] == p[1..] + t;
      assert p[0] in p;
      SplitOnPrefix(p[1..], t, sep);
      assert [p[0]] + (p[1..] + SplitOn(t, sep)[0]) == p + SplitOn(t, sep)[0];
    } else {
      var q := SplitOn(t, sep);
      assert p + t == t && p + q[0] == q[0];
      assert q == [q[0]] + q[1..];
    }
  }

  /** Splitting undoes a join of pieces free of the separator. */
  lemma {:induction false} SplitJoin(parts: seq<string>, sep: char)
    requires |parts| >= 1 && forall k :: 0 <= k < |parts| ==> sep !in parts[k]
    ensures SplitOn(JoinOn(parts, sep), sep) == parts
    decreases |parts|
  {
    if |parts| == 1 {
      SplitOnPrefix(parts[0], "", sep);
      assert parts[0] + "" == parts[0];
    } else {
      var tail := JoinOn(parts[1..], sep);
      SplitJoin(parts[1..], sep);
      var u := [sep] + tail;
      assert parts[0] + [sep] + tail == parts[0] + u;
      SplitOnPrefix(parts[0], u, sep);
      assert u[0] == sep && u[1..] == tail;
      assert SplitOn(u, sep) == [""] + parts[1..];
      assert parts[0] + "" == parts[0];
      assert parts == [parts[0]] + parts[1..];
    }
  }

  /** A join of two or more pieces ends with the separator and the last piece. */
  lemma {:induction false} JoinLast(parts: seq<string>, sep: char)
    requires |parts| >= 2
    ensures JoinOn(parts, sep) == JoinOn(parts[..|parts| - 1], sep) + [sep] + parts[|parts| - 1]
    decreases |parts|
  {
    if |parts| > 2 {
      JoinLast(parts[1..], sep);
      assert parts[1..][..|parts| - 2] == parts[..|parts| - 1][1..];
    }
  }

  /** The decimal digit `d`. */
  function DigitChar(d: nat): (c: char)
    requires d < 10
    ensures '0' <= c <= '9' && c as int - '0' as int == d
  {
    ('0' as int + d) as char
  }

  /** `str(n)` for a non-negative integer: its decimal digits, most significant first. */
  function Decimal(n: nat): (s: string)
    ensures |s| >= 1 && forall k :: 0 <= k < |s| ==> '0' <= s[k] <= '9'
  {
    if n < 10 then [DigitChar(n)] else Decimal(n / 10) + [DigitChar(n % 10)]
  }

  /** `int(s)` for a string of decimal digits. */
  function ParseDecimal(s: string): nat
    requires forall k :: 0 <= k < |s| ==> '0' <= s[k] <= '9'
  {
    if |s| == 0 then 0 else ParseDecimal(s[..|s| - 1]) * 10 + (s[|s| - 1] as int - '0' as int)
  }

  /** Reading the digits back gives the number: `int(str(n)) == n`. */
  lemma {:induction false} DecimalRoundTrip(n: nat)
    ensures ParseDecimal(Decimal(n)) == n
    decreases n
  {
    if n >= 10 {
      DecimalRoundTrip(n / 10);
      var s := Decimal(n);
      assert s[..|s| - 1] == Decimal(n / 10);
    }
  }

  /** `shapefile.split('/')[-1]`: the last component of the path. */
  function FileName(shapefile: string): (f: string)
    ensures '/' !in f
  {
    var parts := SplitOn(shapefile, '/');
    parts[|parts| - 1]
  }

  /** `.split('.')[0]`: the file name up to its first `.`. */
  function Stem(shapefile: string): string {
    SplitOn(FileName(shapefile), '.')[0]
  }

  /** Line 603: the stem, an underscore and the polygon index. */
  function ShapeName(shapefile: string, i: nat): string {
    Stem(shapefile) + "_" + Decimal(i)
  }

  /** The path is a directory part, empty or ending in `/`, followed by the file name. */
  lemma DirPart(shapefile: string)
    ensures exists dir :: shapefile == dir + FileName(shapefile) && (dir == "" || dir[|dir| - 1] == '/')
  {
    var parts := SplitOn(shapefile, '/');
    var n := |parts|;
    JoinSplit(shapefile, '/');
    var dir := if n == 1 then "" else JoinOn(parts[..n - 1], '/') + ['/'];
    if n > 1 {
      JoinLast(parts, '/');
    }
    assert shapefile == dir + FileName(shapefile);
  }

  /** A file name is its part before the first `.`, then nothing or a `.` and the rest. */
  lemma ExtPart(file: string)
    ensures '.' !in SplitOn(file, '.')[0]
    ensures exists ext :: file == SplitOn(file, '.')[0] + ext && (ext == "" || ext[0] == '.')
  {
    var sub := SplitOn(file, '.');
    JoinSplit(file, '.');
    var ext := if |sub| == 1 then "" else ['.'] + JoinOn(sub[1..], '.');
    assert file == sub[0] + ext;
  }

  /**
    The path is a directory part (empty or ending in `/`), then the stem,
    which holds neither `/` nor `.`, then an extension part (empty or
    starting with `.`) without `/`.
   */
  lemma ShapeNameParts(shapefile: string)
    ensures '/' !in Stem(shapefile) && '.' !in Stem(shapefile)
    ensures exists dir, ext ::
      && shapefile == dir + Stem(shapefile) + ext
      && (dir == "" || dir[|dir| - 1] == '/')
      && (ext == "" || ext[0] == '.')
      && '/' !in ext
  {
    var file := FileName(shapefile);
    var stem := Stem(shapefile);
    DirPart(shapefile);
    ExtPart(file);
    var dir :| shapefile == dir + file && (dir == "" || dir[|dir| - 1] == '/');
    var ext :| file == stem + ext && (ext == "" || ext[0] == '.');
    assert '/' !in stem && '/' !in ext;
    assert shapefile == dir + stem + ext;
  }

  /** The name is the stem and `_`, then digits that read back as the index. */
  lemma ShapeNameIndex(shapefile: string, i: nat)
    ensures ShapeName(shapefile, i)[..|Stem(shapefile)| + 1] == Stem(shapefile) + "_"
    ensures ParseDecimal(ShapeName(shapefile, i)[|Stem(shapefile)| + 1..]) == i
  {
    var name := ShapeName(shapefile, i);
    assert name[|Stem(shapefile)| + 1..] == Decimal(i);
    DecimalRoundTrip(i);
  }

  /**
    `open_polygon_from_shapefile` as written, for a shapefile of `count`
    polygons: the guard of line 595 lets `i == count` through to the
    indexing of line 599, which fails, and the `sys.exit(0)` of line 597 is
    a lookup of the name `sys`, which the module never imports.
   */
  function OpenPolygonAsWritten(shapefile: string, count: nat, i: nat): (r: Result<string, Exception>)
    ensures r.Success? <==> i < count
  {
    if i > count then Failure(NameError("sys"))
    else if i == count then Failure(IndexError(i))
    else Success(ShapeName(shapefile, i))
  }

  /** The index one past the last polygon passes the guard and fails at the indexing instead. */
  lemma GuardMissesLastIndex()
    ensures OpenPolygonAsWritten("data/catchments.shp", 3, 3) == Failure(IndexError(3))
    ensures OpenPolygon("data/catchments.shp", 3, 3) == Failure(SystemExit(0))
  {
  }

  /** Every index the guard catches ends in `NameError` instead of the intended exit. */
  lemma ExitRaisesNameError(shapefile: string, count: nat, i: nat)
    requires i > count
    ensures OpenPolygonAsWritten(shapefile, count, i) == Failure(NameError("sys"))
    ensures OpenPolygon(shapefile, count, i) == Failure(SystemExit(0))
  {
  }

  /**
    The intended behaviour: an index past the polygons exits, every other
    gives the polygon's name.
   */
  function OpenPolygon(shapefile: string, count: nat, i: nat): (r: Result<string, Exception>)
    ensures r.Success? <==> i < count
    ensures r.Failure? ==> r.error == SystemExit(0)
    ensures r.Success? ==> r.value == ShapeName(shapefile, i)
  {
    if i >= count then Failure(SystemExit(0)) else Success(ShapeName(shapefile, i))
  }

  /** On every index in range the code as written and the intended code agree. */
  lemma AsWrittenAgreesInRange(shapefile: string, count: nat, i: nat)
    requires i < count
    ensures OpenPolygonAsWritten(shapefile, count, i) == OpenPolygon(shapefile, count, i)
  {
  }
}
