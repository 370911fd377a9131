/**
  The per-pixel arithmetic of algorithms/DEADataHandling.py: tasseled-cap
  index bands as fixed weighted sums of six Landsat bands, and the two masks
  applied after loading (terrain -999 values for nbart, `pixel_quality == 1`
  for Sentinel). Values are reals; a missing value (NaN) is `None`.
 */
module DeaAlgorithms {
  import opened Wrappers
  import opened Exceptions
  import opened Tensors
  import opened Labeled

  // ---------------------------------------------------------------------
  // Coefficient tables

  /** The six Landsat bands an index weighs. */
  datatype Band = Blue | Green | Red | Nir | Swir1 | Swir2

  /** The band's variable name. */
  function BandName(b: Band): string {
    match b
    case Blue => "blue"
    case Green => "green"
    case Red => "red"
    case Nir => "nir"
    case Swir1 => "swir1"
    case Swir2 => "swir2"
  }

  /** The bands in the order lines 214-216 add them. */
  const Bands: seq<Band> := [Blue, Green, Red, Nir, Swir1, Swir2]

  lemma BandsListsEveryBand()
    ensures forall b: Band :: b in Bands
  {
    forall b: Band ensures b in Bands {
      var k := match b
        case Blue => 0 case Green => 1 case Red => 2 case Nir => 3 case Swir1 => 4 case Swir2 => 5;
      assert Bands[k] == b;
    }
  }

  datatype Index = Wetness | Greenness | Brightness

  datatype Sensor = Ls5 | Ls7 | Ls8

  function IndexName(i: Index): string {
    match i
    case Wetness => "wetness"
    case Greenness => "greenness"
    case Brightness => "brightness"
  }

  function SensorName(s: Sensor): string {
    match s
    case Ls5 => "ls5"
    case Ls7 => "ls7"
    case Ls8 => "ls8"
  }

  /** `analysis_coefficient[name]` succeeds for these names only. */
  function IndexNamed(name: string): (r: Option<Index>) {
    if name == "wetness" then Some(Wetness)
    else if name == "greenness" then Some(Greenness)
    else if name == "brightness" then Some(Brightness)
    else None
  }

  /** `<index>_coeff[name]` succeeds for these names only. */
  function SensorNamed(name: string): (r: Option<Sensor>) {
    if name == "ls5" then Some(Ls5)
    else if name == "ls7" then Some(Ls7)
    else if name == "ls8" then Some(Ls8)
    else None
  }

  /** The table's keys are exactly the names of the indices and of the sensors. */
  lemma {:induction false} TableKeys(name: string)
    ensures forall i: Index :: IndexNamed(IndexName(i)) == Some(i)
    ensures forall s: Sensor :: SensorNamed(SensorName(s)) == Some(s)
    ensures IndexNamed(name).Some? ==> IndexName(IndexNamed(name).value) == name
    ensures SensorNamed(name).Some? ==> SensorName(SensorNamed(name).value) == name
  {
    assert IndexNamed(IndexName(Greenness)) == Some(Greenness) by {
      assert IndexName(Greenness) != "wetness" by { assert IndexName(Greenness)[0] != "wetness"[0]; }
    }
    assert IndexNamed(IndexName(Brightness)) == Some(Brightness) by {
      assert IndexName(Brightness) != "wetness" by { assert IndexName(Brightness)[0] != "wetness"[0]; }
      assert IndexName(Brightness) != "greenness" by { assert IndexName(Brightness)[0] != "greenness"[0]; }
    }
    assert SensorNamed(SensorName(Ls7)) == Some(Ls7) by {
      assert SensorName(Ls7) != "ls5" by { assert SensorName(Ls7)[2] != "ls5"[2]; }
    }
    assert SensorNamed(SensorName(Ls8)) == Some(Ls8) by {
      assert SensorName(Ls8) != "ls5" by { assert SensorName(Ls8)[2] != "ls5"[2]; }
      assert SensorName(Ls8) != "ls7" by { assert SensorName(Ls8)[2] != "ls7"[2]; }
    }
  }

  /** One row of a coefficient table: a weight per band. */
  datatype Row = Row(blue: real, green: real, red: real, nir: real, swir1: real, swir2: real) {
    function Weight(b: Band): real {
      match b
      case Blue => blue
      case Green => green
      case Red => red
      case Nir => nir
      case Swir1 => swir1
      case Swir2 => swir2
    }
  }

  function WetnessCoeff(s: Sensor): Row {
    match s
    case Ls5 => Row(0.0315, 0.2021, 0.3102, 0.1594, -0.6806, -0.6109)
    case Ls7 => Row(0.2626, 0.2141, 0.0926, 0.0656, -0.7629, -0.5388)
    case Ls8 => Row(0.1511, 0.1973, 0.3283, 0.3407, -0.7117, -0.4559)
  }

  function GreennessCoeff(s: Sensor): Row {
    match s
    case Ls5 => Row(-0.1603, -0.2819, -0.4934, 0.7940, -0.0002, -0.1446)
    case Ls7 => Row(-0.3344, -0.3544, -0.4556, 0.6966, -0.0242, -0.2630)
    case Ls8 => Row(-0.2941, -0.2430, -0.5424, 0.7276, -0.0713, -0.1608)
  }

  function BrightnessCoeff(s: Sensor): Row {
    match s
    case Ls5 => Row(0.2043, 0.4158, 0.5524, 0.5741, 0.3124, 0.2303)
    case Ls7 => Row(0.3561, 0.3972, 0.3904, 0.6966, 0.2286, 0.1596)
    case Ls8 => Row(0.3029, 0.2786, 0.4733, 0.5599, 0.508, 0.1872)
  }

  /** `analysis_coefficient[index][sensor]`. */
  function AnalysisCoefficient(i: Index, s: Sensor): Row {
    match i
    case Wetness => WetnessCoeff(s)
    case Greenness => GreennessCoeff(s)
    case Brightness => BrightnessCoeff(s)
  }

  /** The indices computed when the caller names none. */
  const DefaultTcBands: seq<string> := ["greenness", "brightness", "wetness"]

  // ---------------------------------------------------------------------
  // Element-wise arithmetic

  /** `x * c` on one element; NaN stays NaN. */
  function ScaleCell(x: Cell, c: real): Cell {
    if x.Some? then Some(x.value * c) else None
  }

  /** `x + y` on one element; NaN if either is NaN. */
  function AddCell(x: Cell, y: Cell): Cell {
    if x.Some? && y.Some? then Some(x.value + y.value) else None
  }

  function Scale(t: Tensor<Cell>, shape: seq<nat>, c: real): (r: Tensor<Cell>)
    requires HasShape(t, shape)
    ensures HasShape(r, shape)
  {
    Build(shape, (idx: seq<nat>) requires InBounds(idx, shape) => ScaleCell(At(t, shape, idx), c))
  }

  function Add(a: Tensor<Cell>, b: Tensor<Cell>, shape: seq<nat>): (r: Tensor<Cell>)
    requires HasShape(a, shape) && HasShape(b, shape)
    ensures HasShape(r, shape)
  {
    Build(shape, (idx: seq<nat>) requires InBounds(idx, shape) => AddCell(At(a, shape, idx), At(b, shape, idx)))
  }

  lemma ScaleAt(t: Tensor<Cell>, shape: seq<nat>, c: real, idx: seq<nat>)
    requires HasShape(t, shape) && InBounds(idx, shape)
    ensures At(Scale(t, shape, c), shape, idx) == ScaleCell(At(t, shape, idx), c)
  {
    AtBuild(shape, (idx: seq<nat>) requires InBounds(idx, shape) => ScaleCell(At(t, shape, idx), c), idx);
  }

  lemma AddAt(a: Tensor<Cell>, b: Tensor<Cell>, shape: seq<nat>, idx: seq<nat>)
    requires HasShape(a, shape) && HasShape(b, shape) && InBounds(idx, shape)
    ensures At(Add(a, b, shape), shape, idx) == AddCell(At(a, shape, idx), At(b, shape, idx))
  {
    AtBuild(shape, (idx: seq<nat>) requires InBounds(idx, shape) => AddCell(At(a, shape, idx), At(b, shape, idx)), idx);
  }

  // ---------------------------------------------------------------------
  // The reference weighted sum

  /** The values of one pixel in the six bands. */
  datatype Pixel = Pixel(blue: Cell, green: Cell, red: Cell, nir: Cell, swir1: Cell, swir2: Cell) {
    function Value(b: Band): Cell {
      match b
      case Blue => blue
      case Green => green
      case Red => red
      case Nir => nir
      case Swir1 => swir1
      case Swir2 => swir2
    }
  }

  /** Σ value × weight over `bands`, when every value is a number. */
  function Dot(row: Row, px: Pixel, bands: seq<Band>): real
    requires forall b :: b in bands ==> px.Value(b).Some?
  {
    if |bands| == 0 then 0.0 else px.Value(bands[0]).value * row.Weight(bands[0]) + Dot(row, px, bands[1..])
  }

  /** An index value at one pixel: the weighted sum of its six band values, NaN when any is NaN. */
  function WeightedSum(row: Row, px: Pixel): Cell {
    if forall b :: b in Bands ==> px.Value(b).Some? then Some(Dot(row, px, Bands)) else None
  }

  // ---------------------------------------------------------------------
  // tasseled_cap

  /** The input has a variable for each of the six bands. */
  predicate HasSixBands(src: Dataset) {
    forall b: Band :: BandName(b) in src.vars
  }

  /** The bands of the six that `src` has share one dimension tuple, so the sum needs no broadcasting. */
  predicate SixBandsAligned(src: Dataset) {
    forall b1: Band, b2: Band :: BandName(b1) in src.vars && BandName(b2) in src.vars ==>
      src.vars[BandName(b1)].dims == src.vars[BandName(b2)].dims
  }

  /** The six bands share the blue band's shape. */
  lemma AlignedShapes(src: Dataset)
    requires ValidDataset(src) && SixBandsAligned(src) && HasSixBands(src)
    ensures forall b: Band :: src.vars[BandName(b)].shape == src.vars[BandName(Blue)].shape
  {
    forall b: Band ensures src.vars[BandName(b)].shape == src.vars[BandName(Blue)].shape {
      var v := src.vars[BandName(b)];
      var w := src.vars[BandName(Blue)];
      assert forall m :: 0 <= m < |v.shape| ==> v.shape[m] == src.sizes[v.dims[m]] == w.shape[m];
    }
  }

  /** The first of `bands` that `ds` lacks: the attribute lookup that fails first. */
  function FirstMissing(ds: Dataset, bands: seq<Band>): (r: Option<Band>)
    ensures r.None? <==> forall b :: b in bands ==> BandName(b) in ds.vars
    ensures r.Some? ==> r.value in bands && BandName(r.value) !in ds.vars
  {
    if |bands| == 0 then None
    else if BandName(bands[0]) !in ds.vars then Some(bands[0])
    else FirstMissing(ds, bands[1..])
  }

  /** The value of band `b` of `src` at `idx`. */
  function BandAt(src: Dataset, b: Band, idx: seq<nat>): Cell
    requires ValidDataset(src) && SixBandsAligned(src) && HasSixBands(src)
    requires InBounds(idx, src.vars[BandName(Blue)].shape)
  {
    AlignedShapes(src);
    At(src.vars[BandName(b)].data, src.vars[BandName(Blue)].shape, idx)
  }

  /** The six band values of `src` at `idx`. */
  function PixelAt(src: Dataset, idx: seq<nat>): (px: Pixel)
    requires ValidDataset(src) && SixBandsAligned(src) && HasSixBands(src)
    requires InBounds(idx, src.vars[BandName(Blue)].shape)
    ensures forall b: Band :: px.Value(b) == BandAt(src, b, idx)
  {
    Pixel(BandAt(src, Blue, idx), BandAt(src, Green, idx), BandAt(src, Red, idx),
      BandAt(src, Nir, idx), BandAt(src, Swir1, idx), BandAt(src, Swir2, idx))
  }

  /** `sensor_coeff.<band>` for one band: the band scaled by its weight. */
  function Weighted(src: Dataset, row: Row, b: Band): (t: Tensor<Cell>)
    requires ValidDataset(src) && SixBandsAligned(src) && HasSixBands(src)
    ensures HasShape(t, src.vars[BandName(Blue)].shape)
  {
    AlignedShapes(src);
    Scale(src.vars[BandName(b)].data, src.vars[BandName(Blue)].shape, row.Weight(b))
  }

  /** Lines 214-216: the six weighted bands added in order. */
  function IndexSum(src: Dataset, row: Row): (t: Tensor<Cell>)
    requires ValidDataset(src) && SixBandsAligned(src) && HasSixBands(src)
    ensures HasShape(t, src.vars[BandName(Blue)].shape)
  {
    var shape := src.vars[BandName(Blue)].shape;
    Add(Add(Add(Add(Add(
      Weighted(src, row, Blue), Weighted(src, row, Green), shape),
      Weighted(src, row, Red), shape),
      Weighted(src, row, Nir), shape),
      Weighted(src, row, Swir1), shape),
      Weighted(src, row, Swir2), shape)
  }

  /**
    Lines 210-216 for one index: look the coefficients up, multiply the
    Dataset by them and add the six products in order.
   */
  function IndexBand(src: Dataset, sensor: string, tcBand: string): (r: Result<Variable, Exception>)
    requires ValidDataset(src) && SixBandsAligned(src)
    ensures r.Success? ==>
      && HasSixBands(src)
      && r.value.dims == src.vars[BandName(Blue)].dims && r.value.shape == src.vars[BandName(Blue)].shape
      && ValidVariable(r.value, src.sizes) && r.value.attrs == map[]
  {
    var index := IndexNamed(tcBand);
    if index.None? then Failure(KeyError(tcBand))
    else
      var sensorKey := SensorNamed(sensor);
      if sensorKey.None? then Failure(KeyError(sensor))
      else
        var missing := FirstMissing(src, Bands);
        if missing.Some? then Failure(AttributeError(BandName(missing.value)))
        else
          assert HasSixBands(src) by { BandsListsEveryBand(); }
          var blue := src.vars[BandName(Blue)];
          assert ValidVariable(blue, src.sizes);
          Success(Variable(blue.dims, blue.shape, IndexSum(src, AnalysisCoefficient(index.value, sensorKey.value)), map[]))
  }

  /**
    An index band is computed exactly when the index and the sensor are in
    the table and the six bands are present; the failures are the lookups
    that fail first.
   */
  lemma IndexBandOutcome(src: Dataset, sensor: string, tcBand: string)
    requires ValidDataset(src) && SixBandsAligned(src)
    ensures IndexBand(src, sensor, tcBand).Success? <==>
      IndexNamed(tcBand).Some? && SensorNamed(sensor).Some? && HasSixBands(src)
    ensures IndexNamed(tcBand).None? ==> IndexBand(src, sensor, tcBand) == Failure(KeyError(tcBand))
    ensures IndexNamed(tcBand).Some? && SensorNamed(sensor).None? ==>
      IndexBand(src, sensor, tcBand) == Failure(KeyError(sensor))
    ensures IndexNamed(tcBand).Some? && SensorNamed(sensor).Some? && !HasSixBands(src) ==>
      && IndexBand(src, sensor, tcBand).Failure?
      && IndexBand(src, sensor, tcBand).error.AttributeError?
      && exists b: Band :: IndexBand(src, sensor, tcBand).error.name == BandName(b) && BandName(b) !in src.vars
  {
    BandsListsEveryBand();
  }

  /** Weight × value summed over the six bands is the six-term sum in the order the source adds them. */
  lemma DotSix(row: Row, px: Pixel)
    requires px.blue.Some? && px.green.Some? && px.red.Some? && px.nir.Some? && px.swir1.Some? && px.swir2.Some?
    ensures Dot(row, px, Bands) ==
      px.blue.value * row.blue + px.green.value * row.green + px.red.value * row.red
      + px.nir.value * row.nir + px.swir1.value * row.swir1 + px.swir2.value * row.swir2
  {
    var s5, s4, s3, s2, s1 := [Swir2], [Swir1, Swir2], [Nir, Swir1, Swir2], [Red, Nir, Swir1, Swir2], [Green, Red, Nir, Swir1, Swir2];
    assert s5[1..] == [] && s4[1..] == s5 && s3[1..] == s4 && s2[1..] == s3 && s1[1..] == s2 && Bands[1..] == s1;
    assert Dot(row, px, s5) == px.swir2.value * row.swir2;
    assert Dot(row, px, s4) == px.swir1.value * row.swir1 + Dot(row, px, s5);
    assert Dot(row, px, s3) == px.nir.value * row.nir + Dot(row, px, s4);
    assert Dot(row, px, s2) == px.red.value * row.red + Dot(row, px, s3);
    assert Dot(row, px, s1) == px.green.value * row.green + Dot(row, px, s2);
    assert Dot(row, px, Bands) == px.blue.value * row.blue + Dot(row, px, s1);
  }

  /** The chain of `+` on six scaled cells: the six-term sum, NaN as soon as one term is. */
  lemma CellChain(row: Row, px: Pixel)
    ensures
      AddCell(AddCell(AddCell(AddCell(AddCell(
        ScaleCell(px.blue, row.blue), ScaleCell(px.green, row.green)),
        ScaleCell(px.red, row.red)),
        ScaleCell(px.nir, row.nir)),
        ScaleCell(px.swir1, row.swir1)),
        ScaleCell(px.swir2, row.swir2))
      == WeightedSum(row, px)
  {
    BandsListsEveryBand();
    if forall b :: b in Bands ==> px.Value(b).Some? {
      assert px.Value(Blue).Some? && px.Value(Green).Some? && px.Value(Red).Some?;
      assert px.Value(Nir).Some? && px.Value(Swir1).Some? && px.Value(Swir2).Some?;
      DotSix(row, px);
      var chain :=
        AddCell(AddCell(AddCell(AddCell(AddCell(
          ScaleCell(px.blue, row.blue), ScaleCell(px.green, row.green)),
          ScaleCell(px.red, row.red)),
          ScaleCell(px.nir, row.nir)),
          ScaleCell(px.swir1, row.swir1)),
          ScaleCell(px.swir2, row.swir2));
      assert chain.Some? && chain.value == WeightedSum(row, px).value;
    }
  }

  /** The index sum at one pixel is the weighted sum of that pixel's six band values. */
  lemma IndexSumAt(src: Dataset, row: Row, idx: seq<nat>)
    requires ValidDataset(src) && SixBandsAligned(src) && HasSixBands(src)
    requires InBounds(idx, src.vars[BandName(Blue)].shape)
    ensures At(IndexSum(src, row), src.vars[BandName(Blue)].shape, idx) == WeightedSum(row, PixelAt(src, idx))
  {
    AlignedShapes(src);
    var shape := src.vars[BandName(Blue)].shape;
    var px := PixelAt(src, idx);
    var w1, w2, w3, w4, w5, w6 :=
      Weighted(src, row, Blue), Weighted(src, row, Green), Weighted(src, row, Red),
      Weighted(src, row, Nir), Weighted(src, row, Swir1), Weighted(src, row, Swir2);
    ScaleAt(src.vars[BandName(Blue)].data, shape, row.blue, idx);
    ScaleAt(src.vars[BandName(Green)].data, shape, row.green, idx);
    ScaleAt(src.vars[BandName(Red)].data, shape, row.red, idx);
    ScaleAt(src.vars[BandName(Nir)].data, shape, row.nir, idx);
    ScaleAt(src.vars[BandName(Swir1)].data, shape, row.swir1, idx);
    ScaleAt(src.vars[BandName(Swir2)].data, shape, row.swir2, idx);
    var s1 := Add(w1, w2, shape);
    var s2 := Add(s1, w3, shape);
    var s3 := Add(s2, w4, shape);
    var s4 := Add(s3, w5, shape);
    AddAt(w1, w2, shape, idx);
    AddAt(s1, w3, shape, idx);
    AddAt(s2, w4, shape, idx);
    AddAt(s3, w5, shape, idx);
    AddAt(s4, w6, shape, idx);
    CellChain(row, px);
  }

  /** Every pixel of an index band is the weighted sum of that pixel's six band values. */
  lemma IndexBandIsWeightedSum(src: Dataset, sensor: string, tcBand: string, idx: seq<nat>)
    requires ValidDataset(src) && SixBandsAligned(src)
    requires IndexBand(src, sensor, tcBand).Success?
    requires InBounds(idx, IndexBand(src, sensor, tcBand).value.shape)
    ensures IndexNamed(tcBand).Some? && SensorNamed(sensor).Some? && HasSixBands(src)
    ensures At(IndexBand(src, sensor, tcBand).value.data, IndexBand(src, sensor, tcBand).value.shape, idx) ==
      WeightedSum(AnalysisCoefficient(IndexNamed(tcBand).value, SensorNamed(sensor).value), PixelAt(src, idx))
  {
    IndexBandOutcome(src, sensor, tcBand);
    IndexSumAt(src, AnalysisCoefficient(IndexNamed(tcBand).value, SensorNamed(sensor).value), idx);
  }

  /** `ds[name] = v`: a new variable goes last; an existing one is replaced where it stands. */
  function SetVar(ds: Dataset, name: string, v: Variable): (r: Dataset)
    requires ValidDataset(ds) && ValidVariable(v, ds.sizes)
    ensures ValidDataset(r) && r.vars == ds.vars[name := v] && r.sizes == ds.sizes
    ensures |ds.names| <= |r.names| && r.names[..|ds.names|] == ds.names
  {
    var names := if name in ds.vars then ds.names else ds.names + [name];
    var r := ds.(names := names, vars := ds.vars[name := v]);
    SetVarValid(ds, name, v, r);
    r
  }

  lemma SetVarValid(ds: Dataset, name: string, v: Variable, r: Dataset)
    requires ValidDataset(ds) && ValidVariable(v, ds.sizes)
    requires r.vars == ds.vars[name := v] && r.sizes == ds.sizes && r.chunks == ds.chunks
    requires r.names == if name in ds.vars then ds.names else ds.names + [name]
    ensures ValidDataset(r)
  {
    if name !in ds.vars {
      AppendFresh(ds.names, name);
    }
  }

  /** Lines 207-216: each listed index in turn is computed and assigned into `out`. */
  function AddIndexBands(out: Dataset, src: Dataset, sensor: string, tcBands: seq<string>): (r: Result<Dataset, Exception>)
    requires ValidDataset(out) && ValidDataset(src) && SixBandsAligned(src) && out.sizes == src.sizes
    ensures r.Success? ==> ValidDataset(r.value) && r.value.sizes == src.sizes
    decreases |tcBands|
  {
    if |tcBands| == 0 then Success(out)
    else
      var prev :- AddIndexBands(out, src, sensor, tcBands[..|tcBands| - 1]);
      var v :- IndexBand(src, sensor, tcBands[|tcBands| - 1]);
      Success(SetVar(prev, tcBands[|tcBands| - 1], v))
  }

  /** The loop succeeds exactly when every listed index can be computed. */
  lemma {:induction false} AddIndexBandsSucceeds(out: Dataset, src: Dataset, sensor: string, tcBands: seq<string>)
    requires ValidDataset(out) && ValidDataset(src) && SixBandsAligned(src) && out.sizes == src.sizes
    ensures AddIndexBands(out, src, sensor, tcBands).Success? <==>
      forall t :: t in tcBands ==> IndexBand(src, sensor, t).Success?
    decreases |tcBands|
  {
    if |tcBands| > 0 {
      var init := tcBands[..|tcBands| - 1];
      var last := tcBands[|tcBands| - 1];
      assert forall t :: t in tcBands <==> t in init || t == last by {
        assert tcBands == init + [last];
      }
      AddIndexBandsSucceeds(out, src, sensor, init);
    }
  }

  /**
    A successful loop holds `out`'s variables with each listed index set to
    its band: the index bands replace variables of the same name, the other
    variables are untouched.
   */
  lemma AddIndexBandsContents(out: Dataset, src: Dataset, sensor: string, tcBands: seq<string>)
    requires ValidDataset(out) && ValidDataset(src) && SixBandsAligned(src) && out.sizes == src.sizes
    requires AddIndexBands(out, src, sensor, tcBands).Success?
    ensures
      var r := AddIndexBands(out, src, sensor, tcBands).value;
      && (forall b :: b in r.vars <==> b in out.vars || b in tcBands)
      && (forall t :: t in tcBands ==> IndexBand(src, sensor, t).Success? && t in r.vars && r.vars[t] == IndexBand(src, sensor, t).value)
      && (forall b :: b in out.vars && b !in tcBands ==> b in r.vars && r.vars[b] == out.vars[b])
  {
    AddIndexBandsKeys(out, src, sensor, tcBands);
    AddIndexBandsSets(out, src, sensor, tcBands);
    AddIndexBandsLeavesOthers(out, src, sensor, tcBands);
  }

  lemma {:induction false} AddIndexBandsKeys(out: Dataset, src: Dataset, sensor: string, tcBands: seq<string>)
    requires ValidDataset(out) && ValidDataset(src) && SixBandsAligned(src) && out.sizes == src.sizes
    requires AddIndexBands(out, src, sensor, tcBands).Success?
    ensures forall b :: b in AddIndexBands(out, src, sensor, tcBands).value.vars <==> b in out.vars || b in tcBands
    decreases |tcBands|
  {
    if |tcBands| > 0 {
      var init := tcBands[..|tcBands| - 1];
      var last := tcBands[|tcBands| - 1];
      assert forall t :: t in tcBands <==> t in init || t == last by {
        assert tcBands == init + [last];
      }
      AddIndexBandsKeys(out, src, sensor, init);
    }
  }

  lemma {:induction false} AddIndexBandsSets(out: Dataset, src: Dataset, sensor: string, tcBands: seq<string>)
    requires ValidDataset(out) && ValidDataset(src) && SixBandsAligned(src) && out.sizes == src.sizes
    requires AddIndexBands(out, src, sensor, tcBands).Success?
    ensures forall t :: t in tcBands ==>
      && IndexBand(src, sensor, t).Success?
      && t in AddIndexBands(out, src, sensor, tcBands).value.vars
      && AddIndexBands(out, src, sensor, tcBands).value.vars[t] == IndexBand(src, sensor, t).value
    decreases |tcBands|
  {
    if |tcBands| > 0 {
      var init := tcBands[..|tcBands| - 1];
      var last := tcBands[|tcBands| - 1];
      assert forall t :: t in tcBands <==> t in init || t == last by {
        assert tcBands == init + [last];
      }
      AddIndexBandsSets(out, src, sensor, init);
    }
  }

  lemma {:induction false} AddIndexBandsLeavesOthers(out: Dataset, src: Dataset, sensor: string, tcBands: seq<string>)
    requires ValidDataset(out) && ValidDataset(src) && SixBandsAligned(src) && out.sizes == src.sizes
    requires AddIndexBands(out, src, sensor, tcBands).Success?
    ensures forall b :: b in out.vars && b !in tcBands ==>
      b in AddIndexBands(out, src, sensor, tcBands).value.vars && AddIndexBands(out, src, sensor, tcBands).value.vars[b] == out.vars[b]
    decreases |tcBands|
  {
    if |tcBands| > 0 {
      var init := tcBands[..|tcBands| - 1];
      var last := tcBands[|tcBands| - 1];
      assert forall t :: t in tcBands <==> t in init || t == last by {
        assert tcBands == init + [last];
      }
      AddIndexBandsLeavesOthers(out, src, sensor, init);
    }
  }

  /** The loop only appends: `out`'s variable names keep their places at the front. */
  lemma {:induction false} AddIndexBandsKeepsOrder(out: Dataset, src: Dataset, sensor: string, tcBands: seq<string>)
    requires ValidDataset(out) && ValidDataset(src) && SixBandsAligned(src) && out.sizes == src.sizes
    requires AddIndexBands(out, src, sensor, tcBands).Success?
    ensures
      var r := AddIndexBands(out, src, sensor, tcBands).value;
      |out.names| <= |r.names| && r.names[..|out.names|] == out.names
    decreases |tcBands|
  {
    if |tcBands| > 0 {
      var init := tcBands[..|tcBands| - 1];
      AddIndexBandsKeepsOrder(out, src, sensor, init);
      var p := AddIndexBands(out, src, sensor, init).value;
      var r := AddIndexBands(out, src, sensor, tcBands).value;
      assert r.names[..|p.names|] == p.names;
      assert r.names[..|out.names|] == r.names[..|p.names|][..|out.names|];
    }
  }

  /** One more index: the loop over the first k + 1 indices is the loop over k followed by one assignment. */
  lemma AddIndexBandsStep(out: Dataset, src: Dataset, sensor: string, tcBands: seq<string>, k: nat)
    requires ValidDataset(out) && ValidDataset(src) && SixBandsAligned(src) && out.sizes == src.sizes
    requires k < |tcBands| && AddIndexBands(out, src, sensor, tcBands[..k]).Success?
    requires IndexBand(src, sensor, tcBands[k]).Success?
    ensures AddIndexBands(out, src, sensor, tcBands[..k + 1]) ==
      Success(SetVar(AddIndexBands(out, src, sensor, tcBands[..k]).value, tcBands[k], IndexBand(src, sensor, tcBands[k]).value))
  {
    assert tcBands[..k + 1][..k] == tcBands[..k];
  }

  /** A failing loop raises the error of the first index that cannot be computed. */
  lemma {:induction false} AddIndexBandsFirstError(out: Dataset, src: Dataset, sensor: string, tcBands: seq<string>, k: nat)
    requires ValidDataset(out) && ValidDataset(src) && SixBandsAligned(src) && out.sizes == src.sizes
    requires k < |tcBands| && IndexBand(src, sensor, tcBands[k]).Failure?
    requires forall j :: 0 <= j < k ==> IndexBand(src, sensor, tcBands[j]).Success?
    ensures AddIndexBands(out, src, sensor, tcBands) == Failure(IndexBand(src, sensor, tcBands[k]).error)
    decreases |tcBands|
  {
    var init := tcBands[..|tcBands| - 1];
    if k < |tcBands| - 1 {
      assert init[k] == tcBands[k];
      AddIndexBandsFirstError(out, src, sensor, init, k);
    } else {
      assert forall t :: t in init ==> IndexBand(src, sensor, t).Success? by {
        forall t | t in init ensures IndexBand(src, sensor, t).Success? {
          var j :| 0 <= j < |init| && init[j] == t;
          assert tcBands[j] == t;
        }
      }
      AddIndexBandsSucceeds(out, src, sensor, init);
    }
  }

  /** The position of each element of `names` not listed in `labels`, in order. */
  function Keep(names: seq<string>, labels: seq<string>): (r: seq<string>)
    ensures forall x :: x in r <==> x in names && x !in labels
    ensures Distinct(names) ==> Distinct(r)
  {
    if |names| == 0 then []
    else
      var rest := Keep(names[1..], labels);
      if names[0] in labels then rest else [names[0]] + rest
  }

  /** `ds.drop(labels)`: the listed variables are removed, the others kept in order. */
  function DropVars(ds: Dataset, labels: seq<string>): (r: Dataset)
    requires ValidDataset(ds)
    ensures ValidDataset(r)
    ensures forall b :: b in r.vars <==> b in ds.vars && b !in labels
    ensures forall b :: b in r.vars ==> r.vars[b] == ds.vars[b]
  {
    ds.(names := Keep(ds.names, labels), vars := map b | b in ds.vars && b !in labels :: ds.vars[b])
  }

  /** tasseled_cap: the listed index bands added to a copy of the input, then the input's bands dropped if asked. */
  function TasseledCap(src: Dataset, sensor: string, tcBands: seq<string>, drop: bool): (r: Result<Dataset, Exception>)
    requires ValidDataset(src) && SixBandsAligned(src)
    ensures r.Success? ==> ValidDataset(r.value)
  {
    var out :- AddIndexBands(src, src, sensor, tcBands);
    Success(if drop then DropVars(out, src.names) else out)
  }

  /** Lines 207-216 as a loop: each listed index in turn is computed and assigned into the copy. */
  method AddIndexBandsLoop(src: Dataset, sensor: string, tcBands: seq<string>) returns (r: Result<Dataset, Exception>)
    requires ValidDataset(src) && SixBandsAligned(src)
    ensures r == AddIndexBands(src, src, sensor, tcBands)
  {
    var out := src;
    var k := 0;
    while k < |tcBands|
      invariant 0 <= k <= |tcBands|
      invariant AddIndexBands(src, src, sensor, tcBands[..k]) == Success(out)
    {
      var band := IndexBand(src, sensor, tcBands[k]);
      if band.Failure? {
        assert AddIndexBands(src, src, sensor, tcBands) == Failure(band.error) by {
          AddIndexBandsSucceeds(src, src, sensor, tcBands[..k]);
          forall j | 0 <= j < k ensures IndexBand(src, sensor, tcBands[j]).Success? {
            assert tcBands[..k][j] == tcBands[j];
          }
          AddIndexBandsFirstError(src, src, sensor, tcBands, k);
        }
        return Failure(band.error);
      }
      AddIndexBandsStep(src, src, sensor, tcBands, k);
      out := SetVar(out, tcBands[k], band.value);
      k := k + 1;
    }
    assert tcBands[..k] == tcBands;
    return Success(out);
  }

  /** tasseled_cap, statement by statement: the index loop on a copy, then the drop. */
  method TasseledCapLoop(src: Dataset, sensor: string, tcBands: seq<string>, drop: bool) returns (r: Result<Dataset, Exception>)
    requires ValidDataset(src) && SixBandsAligned(src)
    ensures r == TasseledCap(src, sensor, tcBands, drop)
  {
    var added := AddIndexBandsLoop(src, sensor, tcBands);
    if added.Failure? {
      return Failure(added.error);
    }
    var out := added.value;
    if drop {
      out := DropVars(out, src.names);
    }
    return Success(out);
  }

  /**
    The variables of the result: the listed indices minus the input's bands
    when dropping, the input's bands and the listed indices otherwise.
   */
  lemma TasseledCapKeys(src: Dataset, sensor: string, tcBands: seq<string>, drop: bool)
    requires ValidDataset(src) && SixBandsAligned(src)
    requires TasseledCap(src, sensor, tcBands, drop).Success?
    ensures forall b :: b in TasseledCap(src, sensor, tcBands, drop).value.vars <==>
      if drop then b in tcBands && b !in src.vars else b in src.vars || b in tcBands
  {
    AddIndexBandsContents(src, src, sensor, tcBands);
  }

  /** Every index band in the result is, pixel by pixel, the weighted sum of the input's six bands. */
  lemma TasseledCapValues(src: Dataset, sensor: string, tcBands: seq<string>, drop: bool, t: string, idx: seq<nat>)
    requires ValidDataset(src) && SixBandsAligned(src)
    requires TasseledCap(src, sensor, tcBands, drop).Success?
    requires t in tcBands && (drop ==> t !in src.vars)
    ensures t in TasseledCap(src, sensor, tcBands, drop).value.vars
    ensures IndexBand(src, sensor, t).Success?
    ensures TasseledCap(src, sensor, tcBands, drop).value.vars[t] == IndexBand(src, sensor, t).value
    ensures IndexNamed(t).Some? && SensorNamed(sensor).Some? && HasSixBands(src)
    ensures InBounds(idx, IndexBand(src, sensor, t).value.shape) ==>
      At(IndexBand(src, sensor, t).value.data, IndexBand(src, sensor, t).value.shape, idx) ==
        WeightedSum(AnalysisCoefficient(IndexNamed(t).value, SensorNamed(sensor).value), PixelAt(src, idx))
  {
    AddIndexBandsContents(src, src, sensor, tcBands);
    IndexBandOutcome(src, sensor, t);
    if InBounds(idx, IndexBand(src, sensor, t).value.shape) {
      IndexBandIsWeightedSum(src, sensor, t, idx);
    }
  }

  /** Without dropping, every input band that is not an index name is kept as it was, and the input's order leads. */
  lemma TasseledCapKeepsOriginals(src: Dataset, sensor: string, tcBands: seq<string>)
    requires ValidDataset(src) && SixBandsAligned(src)
    requires TasseledCap(src, sensor, tcBands, false).Success?
    ensures forall b :: b in src.vars && b !in tcBands ==>
      b in TasseledCap(src, sensor, tcBands, false).value.vars
      && TasseledCap(src, sensor, tcBands, false).value.vars[b] == src.vars[b]
    ensures |src.names| <= |TasseledCap(src, sensor, tcBands, false).value.names|
    ensures TasseledCap(src, sensor, tcBands, false).value.names[..|src.names|] == src.names
  {
    AddIndexBandsContents(src, src, sensor, tcBands);
    AddIndexBandsKeepsOrder(src, src, sensor, tcBands);
  }

  /**
    The default call on a six-band Landsat Dataset succeeds and yields
    greenness, brightness and wetness (with `drop`, those not already input
    bands).
   */
  lemma DefaultTasseledCap(src: Dataset, sensor: string, drop: bool)
    requires ValidDataset(src) && SixBandsAligned(src)
    requires SensorNamed(sensor).Some? && HasSixBands(src)
    ensures TasseledCap(src, sensor, DefaultTcBands, drop).Success?
    ensures forall t :: t in DefaultTcBands && (drop ==> t !in src.vars) ==> t in TasseledCap(src, sensor, DefaultTcBands, drop).value.vars
  {
    var bands := DefaultTcBands;
    DefaultIndexBands(src, sensor);
    AddIndexBandsSucceeds(src, src, sensor, bands);
    TasseledCapKeys(src, sensor, bands, drop);
  }

  /** Each default index band can be computed from a six-band Dataset of a known sensor. */
  lemma DefaultIndexBands(src: Dataset, sensor: string)
    requires ValidDataset(src) && SixBandsAligned(src)
    requires SensorNamed(sensor).Some? && HasSixBands(src)
    ensures forall t :: t in DefaultTcBands ==> IndexBand(src, sensor, t).Success?
  {
    forall t | t in DefaultTcBands ensures IndexBand(src, sensor, t).Success? {
      IndexBandOutcome(src, sensor, t);
      TableKeys(t);
      assert t == IndexName(Greenness) || t == IndexName(Brightness) || t == IndexName(Wetness);
    }
  }

  // ---------------------------------------------------------------------
  // Masks applied after loading

  /** `ds.where(keep)`: every data variable keeps its values where `keep` holds and is NaN elsewhere. */
  function WhereAll(ds: Dataset, keep: Tensor<bool>): (r: Dataset)
    requires ValidDataset(ds) && forall b :: b in ds.vars ==> HasShape(keep, ds.vars[b].shape)
    ensures ValidDataset(r) && r.names == ds.names && r.vars.Keys == ds.vars.Keys && r.attrs == ds.attrs
    ensures forall b :: b in r.vars ==> r.vars[b] == ds.vars[b].(data := Where(ds.vars[b].data, keep, ds.vars[b].shape))
  {
    var r := ds.(vars := map b | b in ds.vars :: ds.vars[b].(data := Where(ds.vars[b].data, keep, ds.vars[b].shape)));
    DataReplacedValid(ds, r);
    r
  }

  /** Replacing each variable's elements by others of the same shape keeps a Dataset valid. */
  lemma DataReplacedValid(ds: Dataset, r: Dataset)
    requires ValidDataset(ds)
    requires r == ds.(vars := r.vars) && r.vars.Keys == ds.vars.Keys
    requires forall b :: b in r.vars ==> r.vars[b] == ds.vars[b].(data := r.vars[b].data) && HasShape(r.vars[b].data, ds.vars[b].shape)
    ensures ValidDataset(r)
  {
  }

  /** The elements of `t` different from `x` (NaN is different from every number). */
  function NotEqual(t: Tensor<Cell>, shape: seq<nat>, x: real): (r: Tensor<bool>)
    requires HasShape(t, shape)
    ensures HasShape(r, shape)
    ensures forall idx :: InBounds(idx, shape) ==> At(r, shape, idx) == (At(t, shape, idx) != Some(x))
  {
    var f := (idx: seq<nat>) requires InBounds(idx, shape) => At(t, shape, idx) != Some(x);
    forall idx | InBounds(idx, shape) ensures At(Build(shape, f), shape, idx) == f(idx) {
      AtBuild(shape, f, idx);
    }
    Build(shape, f)
  }

  /** The elements of `t` equal to `x` (NaN equals nothing). */
  function Equal(t: Tensor<Cell>, shape: seq<nat>, x: real): (r: Tensor<bool>)
    requires HasShape(t, shape)
    ensures HasShape(r, shape)
    ensures forall idx :: InBounds(idx, shape) ==> At(r, shape, idx) == (At(t, shape, idx) == Some(x))
  {
    var f := (idx: seq<nat>) requires InBounds(idx, shape) => At(t, shape, idx) == Some(x);
    forall idx | InBounds(idx, shape) ensures At(Build(shape, f), shape, idx) == f(idx) {
      AtBuild(shape, f, idx);
    }
    Build(shape, f)
  }

  /** Line 91: `ds.where(ds != -999.0)`, each variable against its own values: the terrain value becomes NaN. */
  function TerrainFilter(ds: Dataset): (r: Dataset)
    requires ValidDataset(ds)
    ensures ValidDataset(r) && r.names == ds.names && r.vars.Keys == ds.vars.Keys && r.attrs == ds.attrs
    ensures forall b :: b in r.vars ==> r.vars[b] == ds.vars[b].(data := r.vars[b].data)
    ensures forall b, idx :: b in r.vars && InBounds(idx, ds.vars[b].shape) ==>
      var x := At(ds.vars[b].data, ds.vars[b].shape, idx);
      At(r.vars[b].data, ds.vars[b].shape, idx) == if x == Some(-999.0) then None else x
  {
    ds.(vars := map b | b in ds.vars ::
      var v := ds.vars[b];
      v.(data := Where(v.data, NotEqual(v.data, v.shape, -999.0), v.shape)))
  }

  /**
    load_nbarx after its two loads: `ds` is what the product load returned
    and `cloudFree` the PQ mask when the PQ load returned anything. None
    when the product load has no variables; otherwise each band is NaN where
    the PQ mask rejects a pixel and, for nbart only, where it holds the
    terrain value -999.0.
   */
  function MaskNbarx(ds: Dataset, cloudFree: Option<Tensor<bool>>, product: string, crs: Value, affine: Value): (r: Option<Dataset>)
    requires ValidDataset(ds)
    requires cloudFree.Some? ==> forall b :: b in ds.vars ==> HasShape(cloudFree.value, ds.vars[b].shape)
    ensures r.None? <==> ds.vars == map[]
    ensures r.Some? ==>
      && ValidDataset(r.value) && r.value.names == ds.names && r.value.vars.Keys == ds.vars.Keys
      && r.value.attrs == if cloudFree.Some? then ds.attrs["crs" := crs]["affine" := affine] else ds.attrs
  {
    if ds.vars == map[] then None
    else
      var masked :=
        if cloudFree.Some? then WhereAll(ds, cloudFree.value).(attrs := ds.attrs["crs" := crs]["affine" := affine])
        else ds;
      Some(if product == "nbart" then TerrainFilter(masked) else masked)
  }

  /** Each pixel of a loaded nbarx band: NaN when the PQ mask rejects it or, for nbart only, when it is -999.0. */
  lemma MaskNbarxAt(ds: Dataset, cloudFree: Option<Tensor<bool>>, product: string, crs: Value, affine: Value, b: string, idx: seq<nat>)
    requires ValidDataset(ds)
    requires cloudFree.Some? ==> forall b :: b in ds.vars ==> HasShape(cloudFree.value, ds.vars[b].shape)
    requires b in ds.vars && InBounds(idx, ds.vars[b].shape)
    ensures MaskNbarx(ds, cloudFree, product, crs, affine).Some?
    ensures
      var r := MaskNbarx(ds, cloudFree, product, crs, affine).value;
      var v := ds.vars[b];
      var x := At(v.data, v.shape, idx);
      && b in r.vars && r.vars[b].shape == v.shape && r.vars[b].dims == v.dims && HasShape(r.vars[b].data, v.shape)
      && At(r.vars[b].data, v.shape, idx) ==
           if cloudFree.Some? && !At(cloudFree.value, v.shape, idx) then None
           else if product == "nbart" && x == Some(-999.0) then None
           else x
  {
    var v := ds.vars[b];
    var masked :=
      if cloudFree.Some? then WhereAll(ds, cloudFree.value).(attrs := ds.attrs["crs" := crs]["affine" := affine])
      else ds;
    assert b in masked.vars && masked.vars[b].shape == v.shape;
    assert ValidVariable(masked.vars[b], masked.sizes);
  }

  /** For nbar (or any product other than nbart) without a PQ mask the loaded data is returned untouched. */
  lemma NbarIsNotTerrainFiltered(ds: Dataset, product: string, crs: Value, affine: Value)
    requires ValidDataset(ds) && ds.vars != map[] && product != "nbart"
    ensures MaskNbarx(ds, None, product, crs, affine) == Some(ds)
  {
  }

  /**
    load_sentinel after its load: every variable, `pixel_quality` included,
    is kept where `pixel_quality == 1` and NaN elsewhere. None when the load
    has no variables; AttributeError when it has no `pixel_quality` band.
   */
  function MaskSentinel(ds: Dataset, crs: Value, affine: Value): (r: Result<Option<Dataset>, Exception>)
    requires ValidDataset(ds)
    requires "pixel_quality" in ds.vars ==> forall b :: b in ds.vars ==> ds.vars[b].shape == ds.vars["pixel_quality"].shape
    ensures r.Failure? <==> ds.vars != map[] && "pixel_quality" !in ds.vars
    ensures r.Failure? ==> r.error == AttributeError("pixel_quality")
    ensures r == Success(None) <==> ds.vars == map[]
    ensures r.Success? && r.value.Some? ==>
      && ValidDataset(r.value.value) && r.value.value.names == ds.names && r.value.value.vars.Keys == ds.vars.Keys
      && r.value.value.attrs == ds.attrs["crs" := crs]["affine" := affine]
  {
    if ds.vars == map[] then Success(None)
    else if "pixel_quality" !in ds.vars then Failure(AttributeError("pixel_quality"))
    else
      var pq := ds.vars["pixel_quality"];
      var clearPixels := Equal(pq.data, pq.shape, 1.0);
      Success(Some(WhereAll(ds, clearPixels).(attrs := ds.attrs["crs" := crs]["affine" := affine])))
  }

  /** Each pixel of a loaded Sentinel band survives exactly when its `pixel_quality` is 1. */
  lemma MaskSentinelAt(ds: Dataset, crs: Value, affine: Value, b: string, idx: seq<nat>)
    requires ValidDataset(ds) && "pixel_quality" in ds.vars
    requires forall b :: b in ds.vars ==> ds.vars[b].shape == ds.vars["pixel_quality"].shape
    requires b in ds.vars && InBounds(idx, ds.vars[b].shape)
    ensures MaskSentinel(ds, crs, affine).Success? && MaskSentinel(ds, crs, affine).value.Some?
    ensures
      var r := MaskSentinel(ds, crs, affine).value.value;
      var v := ds.vars[b];
      var pq := ds.vars["pixel_quality"];
      && b in r.vars && HasShape(r.vars[b].data, v.shape)
      && At(r.vars[b].data, v.shape, idx) ==
           if At(pq.data, pq.shape, idx) == Some(1.0) then At(v.data, v.shape, idx) else None
  {
    var r := MaskSentinel(ds, crs, affine).value.value;
    assert ValidVariable(r.vars[b], r.sizes);
  }
}
