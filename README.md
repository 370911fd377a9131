# dea-notebooks core, modelled in Dafny

This project models three parts of the dea-notebooks helpers. Each one
turns Digital Earth Australia satellite loads into analysis-ready data.

- **`xr_geomedian.py`** (module `Geomedian`, `geomedian.dfy`). This is the
  bookkeeping around the per-pixel geometric-median composite:
  - `reshape_for_geomedian` stacks a Dataset's bands into a
    (y, x, band, time) DataArray;
  - `norm_input` accepts a Dataset, a 4-D DataArray or a raw 4-D array;
  - the `where` mask is validated, and `set_nan = ~where` is computed;
  - for a dask stack, the plan decides whether to rechunk;
  - pixels excluded by the mask are blanked in place in the solver's
    output buffer;
  - the (y, x, band) result is wrapped back into the caller's container,
    with its coordinates and with each band's attributes.

  The solver `nangeomedian_pcm` is a parameter. It is assumed to turn a
  (y, x, band, time) stack into a (y, x, band) array. For a dask stack it
  is also taken to work pixel by pixel (see "## Left out").
- **`algorithms/DEADataHandling.py`** (module `DeaAlgorithms`,
  `dea_algorithms.dfy`):
  - `tasseled_cap`, with its three coefficient tables. Each index is
    computed and assigned in order, and the original bands are optionally
    dropped.
  - The masking tails of `load_nbarx` and `load_sentinel`:
    - the PQ cloud mask;
    - the terrain filter `ds.where(ds != -999.0)` for `nbart`;
    - the Sentinel mask `pixel_quality == 1`;
    - the `None` return when nothing was loaded.
- **`10_Scripts/DEADataHandling.py`** (module `DeaScripts`,
  `dea_scripts.dfy`):
  - `load_clearlandsat`: the SLC-off filter, PQ matching, the clear
    fraction `data_perc`, the `masked_prop` threshold, optional
    pixel masking, the bare `except` that skips a failing sensor, and
    the concat-and-sort merge;
  - `load_clearsentinel`: the `mask_values` quality test. A failing sensor
    is not caught here;
  - `shape_name` and the index guard of `open_polygon_from_shapefile`.

Two modules support the ones above:
- `Tensors` (`tensors.dfy`) holds n-dimensional arrays as nested
  sequences.
- `Labeled` (`labeled.dfy`) holds xarray-like DataArrays and Datasets:
  - each has named dimensions, coordinates, attributes and optional dask
    chunks;
  - a NaN cell is `None`.

`Wrappers` (`wrappers.dfy`) holds `Option`, `Result` and the Python
exceptions the code raises.

Methods carry the source's loops and in-place updates:
- `SolveStack` blanks a 3-D `array` in place;
- `CopyBandAttrsLoop` copies band attributes;
- `AddIndexBandsLoop` and `TasseledCapLoop` run the `for tc_band` loop;
- `LoadClearLandsat` and `LoadClearSentinel` run the sensor loops.

Each of these methods, and `XrGeomedian` and `WrapOutput`, is proved equal
to a specification function. Lemmas state what the source promises about that
function. `Materialise` and `SetNaN` are the in-place steps inside
`SolveStack`; their contracts state the buffer element by element.

## Model

| member | source | states |
|---|---|---|
| `Geomedian.Without` | xr_geomedian.py:20 | the dimensions kept are exactly those of the input other than the reduction axis |
| `Geomedian.WithoutOfTriple` | xr_geomedian.py:20 | of three distinct dimensions, dropping the k-th leaves the other two in their original order |
| `Geomedian.SingletonImage` | xr_geomedian.py:9-13 | a set built from every band has one element exactly when there is a band and all bands agree, and then it is the first band's value |
| `Geomedian.DimSet` | xr_geomedian.py:9-10 | the set of band dimension tuples has one element exactly when all bands share their dimensions |
| `Geomedian.NodataSet` | xr_geomedian.py:22-26 | the set of `nodata` attributes has one element exactly when all bands share one nodata value |
| `Geomedian.ToArray` | xr_geomedian.py:29 | stacking the bands gives a valid 4-D array in the requested dimension order whose band axis has one entry per band |
| `Geomedian.StackData` | xr_geomedian.py:29 | element (i, j, b, t) of the stack is band b's element at the matching (y, x, time) position |
| `Geomedian.ReshapeForGeomedian` | xr_geomedian.py:8-34 | a successful reshape is a valid 4-D array with one band entry per data variable and two distinct spatial dimensions first |
| `Geomedian.ReshapeOutcome` | xr_geomedian.py:9-18 | differing band dimensions, a non-3-D band and a missing axis each raise their ValueError, checked in that order; the reshape succeeds exactly when none applies |
| `Geomedian.ReshapeCanonicalOrder` | xr_geomedian.py:20-29 | the result's dimensions are the two other dimensions in order, then "band", then the axis; the shape matches, and the band coordinate lists the band names in order |
| `Geomedian.ReshapeIsToArray` | xr_geomedian.py:20-34 | a successful reshape has the data, dimensions and coordinates of the band stack transposed to the order of line 20 |
| `Geomedian.ReshapeStacksBands` | xr_geomedian.py:29 | each element of the reshaped array is the corresponding element of the corresponding band |
| `Geomedian.ReshapeNodata` | xr_geomedian.py:22-32 | the result's attributes are the Dataset's, with `nodata` set exactly when all bands share one nodata value other than None, and set to that value |
| `Geomedian.NormInput` | xr_geomedian.py:48-63 | a successful normalisation gives a valid 4-D stack consistent with the DataArray and Dataset it keeps |
| `Geomedian.NormInputChecks` | xr_geomedian.py:49-63 | a DataArray is accepted iff it is 4-D with the axis last, and a raw array iff it is 4-D; the wrong-axis and raw-array rejections raise the source's ValueErrors; an accepted input is passed through unchanged |
| `Geomedian.RechunkPlanKeepsSpatialChunks` | xr_geomedian.py:78-80 | the plan keeps the y and x chunks, makes band and time one chunk each, and changes nothing when they already are |
| `Geomedian.Invert` | xr_geomedian.py:74 | `~where` negates every element and keeps the shape |
| `Geomedian.RechunkPlan` | xr_geomedian.py:79-80 | the chunk sizes a dask stack is rechunked to (no ensures; see `RechunkPlanKeepsSpatialChunks`) |
| `Geomedian.Blank` | xr_geomedian.py:90-91 | the composite with every band of each `set_nan` pixel set to NaN, keeping its shape (values in `BlankAt`) |
| `Geomedian.BlankAt` | xr_geomedian.py:90-91 | after blanking, an element is NaN where `set_nan` holds at its pixel and is unchanged elsewhere |
| `Geomedian.ContentsAt` | xr_geomedian.py:88-91 | the value read from the output buffer is the buffer's element |
| `Geomedian.Materialise` | xr_geomedian.py:88 | the solver's result as a fresh 3-D buffer holding the same elements |
| `Geomedian.SetNaN` | xr_geomedian.py:91 | in place: every band of a pixel whose `set_nan` entry holds becomes NaN; every other element is unchanged |
| `Geomedian.Composite` | xr_geomedian.py:65-91 | a successful composite is a valid array of shape (y, x, band) of the stack |
| `Geomedian.SolveStack` | xr_geomedian.py:65-91 | the imperative solve-and-blank equals the composite specification |
| `Geomedian.CompositeOutcome` | xr_geomedian.py:68-73 | a mask with a dask stack raises NotImplementedError, and a mask of the wrong shape raises ValueError; otherwise the composite succeeds |
| `Geomedian.CompositeBlanksExcludedPixels` | xr_geomedian.py:68-91 | with a mask, an output element is NaN where the mask is false and is the solver's value where it is true |
| `Geomedian.CompositeUnmasked` | xr_geomedian.py:75-88 | without a mask, the composite is exactly the solver's output |
| `Geomedian.CompositeChunks` | xr_geomedian.py:78-86 | a dask result (which never has a mask) keeps the y and x chunks and holds the band axis in one chunk; an in-memory result is not chunked |
| `Geomedian.RangeCoord` | xr_geomedian.py:97 | a dimension without a coordinate gets the default index 0, 1, … of its length |
| `Geomedian.OutArray` | xr_geomedian.py:96-98 | the output DataArray has the stack's first three dimensions, the composite's data and no attributes |
| `Geomedian.OutArrayLabels` | xr_geomedian.py:96-98 | the output coordinates are exactly the first three dimensions, copied from the input or defaulted to an index |
| `Geomedian.BandSliceAt` | xr_geomedian.py:104 | band slice k of the output holds element (i, j, k) at (i, j) |
| `Geomedian.ToDatasetByBand` | xr_geomedian.py:104 | splitting along "band" gives a valid Dataset with the given band names, each a 2-D slice with empty attributes |
| `Geomedian.CopyBandAttrs` | xr_geomedian.py:105-107 | the attribute-copy fold over the bands; it keeps the variable names (effect in `CopyBandAttrsAt` and `CopyBandAttrsEffect`) |
| `Geomedian.CopyBandAttrsFrame` | xr_geomedian.py:105-107 | copying attributes touches only the variables of the Dataset |
| `Geomedian.CopyBandAttrsAt` | xr_geomedian.py:105-107 | each band's attributes gain those of the same band of the input; a band not listed is unchanged |
| `Geomedian.CopyBandAttrsEffect` | xr_geomedian.py:105-107 | all bands at once: listed bands gain the input's attributes, and nothing else changes |
| `Geomedian.CopyBandAttrsKeepsValid` | xr_geomedian.py:105-107 | copying attributes keeps the Dataset well formed |
| `Geomedian.CopyBandAttrsLoop` | xr_geomedian.py:105-107 | the `for b in ds.data_vars` loop equals the attribute-copy specification |
| `Geomedian.CopyOntoBareBands` | xr_geomedian.py:104-107 | onto bands with empty attributes, the copy leaves each band with exactly the input band's attributes |
| `Geomedian.CopyOntoBareBand` | xr_geomedian.py:106-107 | one bare band receives exactly the input band's attributes |
| `Geomedian.Wrap` | xr_geomedian.py:93-109 | the result put back into the caller's container (no ensures; see `WrapOutput`, `WrapDatasetBranch`, `WrapSplitsBands`) |
| `Geomedian.WrapOutput` | xr_geomedian.py:93-109 | the imperative wrapping equals the container specification |
| `Geomedian.WrapDatasetBranch` | xr_geomedian.py:104-109 | for a Dataset, the output is the band split with attributes copied; it is valid, keeps band order, and each band keeps its attributes |
| `Geomedian.WrapSplitsBands` | xr_geomedian.py:104-109 | each output band has the input band's attributes, the two spatial dimensions, and the composite's values of that band |
| `Geomedian.Geomedian` | xr_geomedian.py:36-109 | the whole of `xr_geomedian` (no ensures; see `GeomedianOutcome`, `GeomedianSteps`, `RawInRawOut`, `DataArrayKeepsLabels`, `DatasetKeepsBands`) |
| `Geomedian.XrGeomedian` | xr_geomedian.py:36-109 | the imperative `xr_geomedian` equals the functional specification |
| `Geomedian.GeomedianSteps` | xr_geomedian.py:65-109 | a failure from normalisation or from the composite is returned as is; otherwise the result is the wrapped composite |
| `Geomedian.GeomedianOutcome` | xr_geomedian.py:65-73 | the errors of normalisation and mask validation come in the source's order; the call succeeds exactly when none applies |
| `Geomedian.ValidationPrecedesSolve` | xr_geomedian.py:65-88 | a failing call fails the same way whatever the solver: every check runs before the solver |
| `Geomedian.RawInRawOut` | xr_geomedian.py:59-94 | a raw 4-D array gives a raw (y, x, band) array: the composite itself |
| `Geomedian.DataArrayKeepsLabels` | xr_geomedian.py:49-102 | a DataArray gives a DataArray with the first three dimensions, their coordinates and the input's attributes |
| `Geomedian.DatasetKeepsBands` | xr_geomedian.py:56-109 | a Dataset gives a Dataset with the same bands in the same order; each keeps its attributes and holds its slice of the composite |
| `Geomedian.GeomedianAsWritten` | xr_geomedian.py:36-109 | `xr_geomedian` as written, with line 91's missing `np` (no ensures; see `MaskRaisesNameErrorAsWritten`, `AsWrittenAgreesWithoutMask`) |
| `Geomedian.MaskRaisesNameErrorAsWritten` | xr_geomedian.py:91 | as written, any call with a mask that would otherwise succeed raises NameError for `np` |
| `Geomedian.AsWrittenAgreesWithoutMask` | xr_geomedian.py:90-91 | without a mask, the code as written and the corrected model agree |
| `DeaAlgorithms.TableKeys` | algorithms/DEADataHandling.py:180-204 | the index and sensor keys of the coefficient tables name exactly the three indices and the three sensors |
| `DeaAlgorithms.WetnessCoeff` | algorithms/DEADataHandling.py:180-185 | the wetness coefficients per sensor, as tabled (no ensures; used by `IndexBandIsWeightedSum`) |
| `DeaAlgorithms.GreennessCoeff` | algorithms/DEADataHandling.py:187-192 | the greenness coefficients per sensor, as tabled (no ensures; used by `IndexBandIsWeightedSum`) |
| `DeaAlgorithms.BrightnessCoeff` | algorithms/DEADataHandling.py:194-199 | the brightness coefficients per sensor, as tabled (no ensures; used by `IndexBandIsWeightedSum`) |
| `DeaAlgorithms.AnalysisCoefficient` | algorithms/DEADataHandling.py:202-204 | the table row for an index and a sensor (no ensures; key lookup in `TableKeys` and `IndexBandOutcome`) |
| `DeaAlgorithms.WeightedSum` | algorithms/DEADataHandling.py:214-216 | the reference per-pixel sum of a row's coefficients times the six band values, NaN when any is NaN (no ensures; the partner of `CellChain` and `IndexBandIsWeightedSum`) |
| `DeaAlgorithms.FirstMissing` | algorithms/DEADataHandling.py:214-216 | the first band attribute looked up that the Dataset lacks, or none exactly when all six are present |
| `DeaAlgorithms.ScaleAt` | algorithms/DEADataHandling.py:211 | multiplying a band by its coefficient scales each element, and NaN stays NaN |
| `DeaAlgorithms.AddAt` | algorithms/DEADataHandling.py:214-216 | adding two bands adds element-wise, and NaN propagates |
| `DeaAlgorithms.AlignedShapes` | algorithms/DEADataHandling.py:211-216 | aligned input bands all have the blue band's shape |
| `DeaAlgorithms.PixelAt` | algorithms/DEADataHandling.py:211-216 | a pixel's six band values are the bands' elements at that position |
| `DeaAlgorithms.IndexSum` | algorithms/DEADataHandling.py:211-216 | the summed band has the blue band's shape (values in `IndexSumAt`) |
| `DeaAlgorithms.IndexBand` | algorithms/DEADataHandling.py:210-216 | a computed index band has the blue band's dimensions and shape |
| `DeaAlgorithms.IndexBandOutcome` | algorithms/DEADataHandling.py:210-216 | an unknown index or sensor raises KeyError, and a missing band raises AttributeError for the first band summed that is missing; it succeeds exactly otherwise |
| `DeaAlgorithms.DotSix` | algorithms/DEADataHandling.py:214-216 | the weighted sum over the six bands is the sum of blue to swir2, each times its coefficient |
| `DeaAlgorithms.CellChain` | algorithms/DEADataHandling.py:214-216 | the chained additions of the scaled bands give the weighted sum, and NaN when any band is NaN |
| `DeaAlgorithms.IndexSumAt` | algorithms/DEADataHandling.py:211-216 | each element of the summed band is the weighted sum of that pixel's six band values |
| `DeaAlgorithms.IndexBandIsWeightedSum` | algorithms/DEADataHandling.py:207-216 | each element of a computed index band is the table row's weighted sum of the pixel's six bands |
| `DeaAlgorithms.SetVar` | algorithms/DEADataHandling.py:214 | assigning a variable keeps the Dataset valid, replaces or appends that one name, and keeps the existing order |
| `DeaAlgorithms.SetVarValid` | algorithms/DEADataHandling.py:214 | a Dataset with one variable set and the name order extended is well formed |
| `DeaAlgorithms.AddIndexBands` | algorithms/DEADataHandling.py:207-216 | the loop's result is a valid Dataset on the input's grid |
| `DeaAlgorithms.AddIndexBandsSucceeds` | algorithms/DEADataHandling.py:207-216 | the loop succeeds exactly when every listed index can be computed |
| `DeaAlgorithms.AddIndexBandsFirstError` | algorithms/DEADataHandling.py:207-216 | a failing loop raises the error of the first index that fails |
| `DeaAlgorithms.AddIndexBandsStep` | algorithms/DEADataHandling.py:207-216 | one more iteration assigns that index's band to the partial result |
| `DeaAlgorithms.AddIndexBandsContents` | algorithms/DEADataHandling.py:207-216 | after the loop, the variables are the old ones plus the listed indices; each listed index holds its computed band, and every other variable keeps its value |
| `DeaAlgorithms.AddIndexBandsKeys` | algorithms/DEADataHandling.py:207-216 | after the loop, the variables are exactly the old ones plus the listed indices |
| `DeaAlgorithms.AddIndexBandsSets` | algorithms/DEADataHandling.py:207-216 | each listed index holds its computed band |
| `DeaAlgorithms.AddIndexBandsLeavesOthers` | algorithms/DEADataHandling.py:207-216 | variables not listed keep their values |
| `DeaAlgorithms.AddIndexBandsKeepsOrder` | algorithms/DEADataHandling.py:207-216 | the original variables keep their order, at the front |
| `DeaAlgorithms.AddIndexBandsLoop` | algorithms/DEADataHandling.py:207-216 | the imperative `for tc_band` loop over a copy of the input equals the specification |
| `DeaAlgorithms.Keep` | algorithms/DEADataHandling.py:221-222 | the names kept are exactly those not dropped, without repeats |
| `DeaAlgorithms.DropVars` | algorithms/DEADataHandling.py:219-222 | dropping keeps a valid Dataset whose variables are exactly the unlisted ones, with their values unchanged |
| `DeaAlgorithms.TasseledCap` | algorithms/DEADataHandling.py:177-224 | a successful `tasseled_cap` gives a valid Dataset |
| `DeaAlgorithms.TasseledCapLoop` | algorithms/DEADataHandling.py:177-224 | the imperative copy, loop and drop equals the specification |
| `DeaAlgorithms.TasseledCapKeys` | algorithms/DEADataHandling.py:207-222 | with `drop`, the output variables are the listed indices not named like an input band; without it, the input's bands plus the listed indices |
| `DeaAlgorithms.TasseledCapValues` | algorithms/DEADataHandling.py:207-216 | each computed index holds the weighted sum of its coefficient row over the six bands at every pixel |
| `DeaAlgorithms.TasseledCapKeepsOriginals` | algorithms/DEADataHandling.py:177-216 | with `drop` false, input bands not overwritten are unchanged and keep their order at the front |
| `DeaAlgorithms.DefaultTasseledCap` | algorithms/DEADataHandling.py:154-224 | with the default index list, a known sensor and the six bands, all three indices are computed |
| `DeaAlgorithms.DefaultIndexBands` | algorithms/DEADataHandling.py:154-216 | with a known sensor and the six bands, each default index band can be computed |
| `DeaAlgorithms.WhereAll` | algorithms/DEADataHandling.py:83 | `ds.where(mask)` applies the mask to every variable and changes nothing else |
| `DeaAlgorithms.DataReplacedValid` | algorithms/DEADataHandling.py:83-91 | a Dataset whose variables' data is replaced shape for shape stays well formed |
| `DeaAlgorithms.NotEqual` | algorithms/DEADataHandling.py:91 | `ds != -999.0` is true exactly where the element is not -999 (NaN included) |
| `DeaAlgorithms.Equal` | algorithms/DEADataHandling.py:141 | `pixel_quality == 1` is true exactly where the element is 1 |
| `DeaAlgorithms.TerrainFilter` | algorithms/DEADataHandling.py:87-91 | every -999 becomes NaN, and everything else is unchanged |
| `DeaAlgorithms.MaskNbarx` | algorithms/DEADataHandling.py:62-102 | nothing is returned exactly when nothing was loaded; otherwise the same bands in the same order, with `crs` and `affine` set exactly when PQ loaded |
| `DeaAlgorithms.MaskNbarxAt` | algorithms/DEADataHandling.py:83-93 | an element survives exactly when PQ is missing or clear, and, for `nbart`, it is not -999 |
| `DeaAlgorithms.NbarIsNotTerrainFiltered` | algorithms/DEADataHandling.py:87-95 | with no PQ and another product, the load is returned unchanged |
| `DeaAlgorithms.MaskSentinel` | algorithms/DEADataHandling.py:136-151 | a non-empty load without `pixel_quality` raises AttributeError, and an empty load returns nothing; otherwise the same bands in the same order, with `crs` and `affine` set |
| `DeaAlgorithms.MaskSentinelAt` | algorithms/DEADataHandling.py:141-142 | an element survives exactly when the pixel's quality is 1 |
| `DeaScripts.CountRow` | 10_Scripts/DEADataHandling.py:334 | the good pixels of a row number at most its length |
| `DeaScripts.CountGoodBound` | 10_Scripts/DEADataHandling.py:334 | the good pixels of a grid number at most its area |
| `DeaScripts.ClearFraction` | 10_Scripts/DEADataHandling.py:334 | `data_perc` is NaN exactly on an empty grid and otherwise lies in [0, 1] |
| `DeaScripts.Proportion` | 10_Scripts/DEADataHandling.py:507 | a count no larger than the area gives a fraction in [0, 1] |
| `DeaScripts.AllGoodIsOne` | 10_Scripts/DEADataHandling.py:507 | a grid whose every pixel is good has `data_perc` exactly 1 |
| `DeaScripts.AllGoodRow` | 10_Scripts/DEADataHandling.py:507 | a row whose every pixel is good counts its full length |
| `DeaScripts.AllGoodCount` | 10_Scripts/DEADataHandling.py:507 | a grid whose every pixel is good counts its full area |
| `DeaScripts.MaskGrid` | 10_Scripts/DEADataHandling.py:345-346 | `where(good_quality)` keeps good pixels and turns the rest into NaN |
| `DeaScripts.MaskBands` | 10_Scripts/DEADataHandling.py:518-519 | every band of the timestep is masked with the same grid |
| `DeaScripts.Observe` | 10_Scripts/DEADataHandling.py:337-346 | a kept timestep keeps its time, records its `data_perc`, and is masked exactly when `apply_mask` is set |
| `DeaScripts.KeepClear` | 10_Scripts/DEADataHandling.py:340-346 | the kept timesteps are exactly those with `data_perc >= masked_prop`, each observed from its own scene |
| `DeaScripts.KeptAreClear` | 10_Scripts/DEADataHandling.py:513 | every kept timestep's recorded `data_perc` meets the threshold |
| `DeaScripts.Flatten` | 10_Scripts/DEADataHandling.py:364 | the concatenation of the sensors' results (no ensures; see `FlattenMembers`) |
| `DeaScripts.FlattenMembers` | 10_Scripts/DEADataHandling.py:364 | the concatenation holds exactly the timesteps of the sensors' results |
| `DeaScripts.Insert` | 10_Scripts/DEADataHandling.py:365 | inserting adds exactly the one timestep |
| `DeaScripts.SortByTime` | 10_Scripts/DEADataHandling.py:533 | sorting permutes the timesteps |
| `DeaScripts.ConsSorted` | 10_Scripts/DEADataHandling.py:365 | an earliest timestep put in front of a sorted list keeps it sorted |
| `DeaScripts.InsertLowerBound` | 10_Scripts/DEADataHandling.py:365 | insertion keeps every time at or after a common lower bound |
| `DeaScripts.InsertSorted` | 10_Scripts/DEADataHandling.py:365 | insertion into a sorted list keeps it sorted |
| `DeaScripts.SortByTimeSorts` | 10_Scripts/DEADataHandling.py:365 | `sortby('time')` gives a time-sorted permutation |
| `DeaScripts.AtTimeMembers` | 10_Scripts/DEADataHandling.py:533 | the timesteps at time t are exactly the members with that time |
| `DeaScripts.AtTimeCons` | 10_Scripts/DEADataHandling.py:533 | the timesteps at t of a list with one in front are that one, if it is at t, then the rest's |
| `DeaScripts.InsertStable` | 10_Scripts/DEADataHandling.py:533 | insertion puts a new timestep ahead of the others at its time and keeps their order |
| `DeaScripts.SortByTimeStable` | 10_Scripts/DEADataHandling.py:365 | sorting keeps equal-time timesteps in their concatenation order: sensor order, then load order |
| `DeaScripts.Combine` | 10_Scripts/DEADataHandling.py:362-365 | concatenating no sensors raises ValueError; otherwise the result is a permutation of the concatenation |
| `DeaScripts.CombineSorted` | 10_Scripts/DEADataHandling.py:530-533 | the merged result is time-sorted and holds exactly the sensors' timesteps |
| `DeaScripts.Before` | 10_Scripts/DEADataHandling.py:308 | `where(time < cutoff, drop=True)` keeps exactly the timesteps before the cutoff |
| `DeaScripts.DropSlcOff` | 10_Scripts/DEADataHandling.py:304-308 | Landsat 7 loses its timesteps from 2003-05-30 on unless `ls7_slc_off` is set; other sensors are untouched |
| `DeaScripts.Ls7BeforeSlcOff` | 10_Scripts/DEADataHandling.py:304-308 | with `ls7_slc_off` false, every kept Landsat 7 timestep is before 2003-05-30 |
| `DeaScripts.PqAt` | 10_Scripts/DEADataHandling.py:311-313 | the PQ timestep at a time, found exactly when one exists |
| `DeaScripts.Matched` | 10_Scripts/DEADataHandling.py:311-313 | exactly the data timesteps with a PQ timestep at the same time are kept, each paired with that PQ's good grid |
| `DeaScripts.LandsatObserve` | 10_Scripts/DEADataHandling.py:333-346 | an observed Landsat timestep keeps its time |
| `DeaScripts.LandsatSensor` | 10_Scripts/DEADataHandling.py:304-346 | one Landsat sensor's kept timesteps (no ensures; see `LandsatSensorKeeps`, `Ls7BeforeSlcOff`) |
| `DeaScripts.LandsatSensorKeeps` | 10_Scripts/DEADataHandling.py:304-346 | one sensor keeps exactly the timesteps that pass the SLC-off filter, have PQ, and meet the threshold |
| `DeaScripts.Collect` | 10_Scripts/DEADataHandling.py:272-360 | the loop collects at most one result per sensor |
| `DeaScripts.CollectEmpty` | 10_Scripts/DEADataHandling.py:272-360 | nothing is collected exactly when every sensor raised |
| `DeaScripts.CollectMembers` | 10_Scripts/DEADataHandling.py:272-360 | a timestep is collected exactly when some sensor that did not raise produced it |
| `DeaScripts.CollectAll` | 10_Scripts/DEADataHandling.py:468-522 | a loop that does not raise collects exactly one result per sensor |
| `DeaScripts.CollectAllFails` | 10_Scripts/DEADataHandling.py:468-522 | the loop raises exactly when some sensor's load raises, and the error is the first such one |
| `DeaScripts.CollectAllMembers` | 10_Scripts/DEADataHandling.py:468-522 | a timestep is collected exactly when some sensor produced it |
| `DeaScripts.CollectAllFailurePersists` | 10_Scripts/DEADataHandling.py:468-496 | once a sensor has raised, later sensors do not change the outcome |
| `DeaScripts.ClearLandsat` | 10_Scripts/DEADataHandling.py:269-365 | `load_clearlandsat` up to `mask_invalid_data` (no ensures; see `ClearLandsatFails`, `ClearLandsatContents`) |
| `DeaScripts.LoadClearLandsat` | 10_Scripts/DEADataHandling.py:269-365 | the imperative sensor loop with its `try`/`except` equals the specification |
| `DeaScripts.ClearLandsatFails` | 10_Scripts/DEADataHandling.py:357-364 | it raises, from the concat, exactly when every sensor was skipped |
| `DeaScripts.LandsatMember` | 10_Scripts/DEADataHandling.py:272-360 | a timestep is collected exactly when a sensor whose load did not raise keeps it |
| `DeaScripts.ClearLandsatContents` | 10_Scripts/DEADataHandling.py:269-365 | the result is time-sorted and holds exactly the clear timesteps of the sensors not skipped |
| `DeaScripts.GoodGrid` | 10_Scripts/DEADataHandling.py:503-504 | a pixel is good exactly when its quality value is present and not one of `mask_values` |
| `DeaScripts.SentinelPaired` | 10_Scripts/DEADataHandling.py:503-507 | a Sentinel-2 timestep keeps its scene and gets a good grid of the load's shape |
| `DeaScripts.SentinelSensor` | 10_Scripts/DEADataHandling.py:498-522 | one Sentinel-2 sensor's kept timesteps (no ensures; see `SentinelSensorKeeps`) |
| `DeaScripts.SentinelSensorKeeps` | 10_Scripts/DEADataHandling.py:498-519 | one sensor keeps exactly the timesteps whose clear fraction meets the threshold |
| `DeaScripts.ClearSentinel` | 10_Scripts/DEADataHandling.py:465-533 | `load_clearsentinel` up to `mask_invalid_data` (no ensures; see `ClearSentinelFails`, `ClearSentinelContents`) |
| `DeaScripts.LoadClearSentinel` | 10_Scripts/DEADataHandling.py:465-533 | the imperative sensor loop equals the specification |
| `DeaScripts.ClearSentinelFails` | 10_Scripts/DEADataHandling.py:465-533 | it raises exactly when a load raises (the first error) or there are no sensors |
| `DeaScripts.SentinelMember` | 10_Scripts/DEADataHandling.py:468-522 | a timestep is collected exactly when some sensor keeps it |
| `DeaScripts.ClearSentinelContents` | 10_Scripts/DEADataHandling.py:465-533 | the result is time-sorted and holds exactly the clear timesteps of all sensors |
| `DeaScripts.SplitOn` | 10_Scripts/DEADataHandling.py:603 | `str.split` returns at least one part, and no part contains the separator |
| `DeaScripts.JoinSplit` | 10_Scripts/DEADataHandling.py:603 | joining the parts of a split gives back the string |
| `DeaScripts.SplitOnPrefix` | 10_Scripts/DEADataHandling.py:603 | a prefix without the separator extends the first part only |
| `DeaScripts.SplitJoin` | 10_Scripts/DEADataHandling.py:603 | splitting a join of separator-free parts gives back the parts |
| `DeaScripts.JoinLast` | 10_Scripts/DEADataHandling.py:603 | a join ends with the separator and the last part |
| `DeaScripts.DigitChar` | 10_Scripts/DEADataHandling.py:603 | a digit's character is the ASCII digit of that value |
| `DeaScripts.Decimal` | 10_Scripts/DEADataHandling.py:603 | `str(i)` is a non-empty string of decimal digits |
| `DeaScripts.DecimalRoundTrip` | 10_Scripts/DEADataHandling.py:603 | parsing `str(i)` gives back i |
| `DeaScripts.FileName` | 10_Scripts/DEADataHandling.py:603 | `split('/')[-1]` contains no '/' |
| `DeaScripts.Stem` | 10_Scripts/DEADataHandling.py:603 | `shapefile.split('/')[-1].split('.')[0]` (no ensures; see `ShapeNameParts`) |
| `DeaScripts.ShapeName` | 10_Scripts/DEADataHandling.py:603 | the stem, '_' and `str(i)` (no ensures; see `ShapeNameIndex`, `OpenPolygon`) |
| `DeaScripts.DirPart` | 10_Scripts/DEADataHandling.py:603 | the path is a directory part ending in '/' (or empty) followed by the file name |
| `DeaScripts.ExtPart` | 10_Scripts/DEADataHandling.py:603 | the file name is the dot-free stem followed by an empty or '.'-led remainder |
| `DeaScripts.ShapeNameParts` | 10_Scripts/DEADataHandling.py:603 | the stem has no '/' and no '.', and the path is a directory, the stem and an extension |
| `DeaScripts.ShapeNameIndex` | 10_Scripts/DEADataHandling.py:603 | the shape name is the stem, '_', and the decimal index, which parses back to the index |
| `DeaScripts.OpenPolygonAsWritten` | 10_Scripts/DEADataHandling.py:591-603 | as written, a name is returned exactly for an index below the polygon count |
| `DeaScripts.GuardMissesLastIndex` | 10_Scripts/DEADataHandling.py:595-599 | with 3 polygons and index 3, the code as written passes the guard and fails at `shapes[3]`; the corrected guard exits |
| `DeaScripts.ExitRaisesNameError` | 10_Scripts/DEADataHandling.py:595-597 | as written, an index past the count reaches `sys.exit(0)` and raises NameError for `sys`; corrected, it exits with code 0 |
| `DeaScripts.OpenPolygon` | 10_Scripts/DEADataHandling.py:591-606 | an index below the count gives the shape name; any other index exits with code 0 |
| `DeaScripts.AsWrittenAgreesInRange` | 10_Scripts/DEADataHandling.py:595-603 | for an index in range, the code as written and the corrected model agree |

## Left out

- `nangeomedian_pcm` is a parameter. The model assumes it maps a (y, x, band, time) stack to a (y, x, band) array (`ReducesTime`). Its `**kwargs` (`maxiters`, `eps`, `num_threads`) are left out.
- `Geomedian.Composite`: the dask branch (lines 82-86) is modelled as one solve of the whole stack, `solve(stack)`. The source solves block by block through `map_blocks(..., drop_axis=3)`. The two agree only for a solver that works pixel by pixel, as a per-pixel median does. `ReducesTime` states only shapes, so `CompositeUnmasked` and `CompositeChunks` hold for a dask stack under this per-pixel assumption.
- Dask laziness is left out. A dask stack is an array with `chunks`. `map_blocks`' `name` and `dtype` are left out; the model keeps the chunk structure it produces.
- `xr_geomedian` with a mask on a dask stack raises before line 91, so the in-place blanking is modelled on the in-memory buffer only.
- `Geomedian.ReshapeForGeomedian`: `ds.data_vars` is the Dataset's band list. Coordinate variables are separate from it.
- The empty Dataset is covered: its set of dimension tuples is empty, so the first ValueError applies.
- `DeaAlgorithms.IndexSum`, `DeaAlgorithms.CellChain`, `DeaAlgorithms.IndexBandIsWeightedSum`, `DeaScripts.ClearFraction`: cell values are exact reals, not float64. Float rounding is not modelled, either in the products of algorithms/DEADataHandling.py:211 or in the left-to-right sums of lines 214-216. Its dependence on the order of the additions is not modelled either: `CellChain` equals the reference sum only because real addition is associative. `data_perc` (10_Scripts/DEADataHandling.py:334, :507) is an exact quotient, so rounding at the `data_perc >= masked_prop` boundary (lines 340, 513) is not modelled.
- xarray broadcasting between bands of different shapes is left out. `tasseled_cap` and its lemmas require the six bands to share dimensions and shape (`SixBandsAligned`).
- `DeaAlgorithms.IndexBand`: `sensor_data * coeff` (line 211) is Dataset arithmetic, which keeps only the variables both operands have. Variables without a coefficient (such as `pixelquality`) are dropped from the product. Only the six summed bands reach the result, so only they are modelled.
- `DeaAlgorithms.MaskNbarx`, `DeaAlgorithms.MaskNbarxAt`: the PQ cloud-free mask is assumed to be on the product load's exact grid, with the same timesteps. `ds.where(cloud_free)` (line 83) aligns the two by an inner join on coordinates. When the PQ load has different timesteps, the source cuts `ds` to the shared ones. That time intersection is not modelled here; `DeaScripts.Matched` models it for `load_clearlandsat`.
- `DeaAlgorithms.MaskNbarx`: `ds.variables` is approximated by the data variables.
  - `make_mask`'s bit decoding of `pixelquality` is an input: the cloud-free grid.
  - The `dc.load` calls, `ga_pq_fuser`, the `print` calls, and the `bands_of_interest` branch that picks the load are left out.
- `DeaAlgorithms.MaskSentinel`: the load is an input. `crs` and `affine` are parameters rather than attributes read from the load.
- `DeaAlgorithms.MaskNbarx`, `DeaAlgorithms.MaskSentinel`: the source returns the triple `(ds, crs, affine)` (algorithms/DEADataHandling.py:100, :149). The model returns only the Dataset. `crs` and `affine` are parameters that the source passes through unchanged, so nothing it computes is lost.
- The loads of `load_clearlandsat` and `load_clearsentinel` are inputs.
  - A `dc.load` call is a function from sensor name to a load or an exception.
  - Any other exception in a Landsat sensor's `try` block is folded into that function's failure.
  - A sensor with no datasets gives an empty load. In `load_clearsentinel`, `pq[pixel_quality_band]` (10_Scripts/DEADataHandling.py:503) then raises KeyError. `load_clearsentinel` has no `try`, so the whole call fails. The model expects such a load to be given as that function's failure. A `SentinelLoad` with no scenes is a successful load that contributes nothing, so `DeaScripts.ClearSentinelFails` matches the source only under this convention.
  - `make_mask` for Landsat PQ is an input: the good-pixel grid of each PQ timestep.
  - The `mask_dict` keyword only changes that input.
- `DeaScripts.Observe`: a kept timestep is a record of its time, its band grids and its `data_perc`. It is not a whole Dataset.
  - `data_perc` is recorded rather than added as a Dataset variable.
  - Under `apply_mask`, the variable `data_perc` itself is not masked.
- `xr.concat` of sensors on different grids is left out. The merge is modelled on sequences of timesteps.
- `DeaScripts.ClearLandsatFails`, `DeaScripts.Combine`: the merge assumes every sensor returns the same variables, in the same order. A timestep's bands are an unnamed sequence of grids. With the default `bands_of_interest=None`, ls8 loads a `coastal_aerosol` band that ls5 and ls7 lack. `xr.concat` at line 364 then raises or drops that variable, depending on the xarray version. That case is not modelled, so the model raises only when every sensor was skipped.
- `masking.mask_invalid_data`, applied after the merge, is left out: nodata handling depends on product metadata.
- `product` and `bands_of_interest` only choose what is loaded; they are left out with the loads.
- The model assumes each load has distinct times, as `group_by='solar_day'` gives. `data - pq` matching is by time only.
- The docstring of `load_clearlandsat` says the SLC failure was on 31 May 2003. The code cuts at `2003-05-30`, and the model follows the code.
- `pixel_quality_band` is fixed to the load's quality grid. Choosing among several quality bands is left out.
- `open_polygon_from_shapefile`: the geometry, CRS and shapely outputs are left out, and so are `fiona.open`.
  - The polygon count and index are inputs.
  - Negative indices, which Python would count from the end, are left out: the index is a `nat`.
- `DeaScripts.OpenPolygonAsWritten`: `shapes[i]` for `i == len(shapes)` is assumed to raise IndexError.
- All `print` output, file I/O and clocks are left out.

## Findings

| source | as written | input that shows it | evidently intended | confidence | as-written member | corrected member |
|---|---|---|---|---|---|---|
| xr_geomedian.py:91 | `data[set_nan, :] = np.nan` uses `np`, which the module never imports, so every call with `where` that passes validation raises NameError | any valid 4-D input with a `where` mask of shape (y, x) and no dask | blank the excluded pixels to NaN (`CompositeBlanksExcludedPixels`) | not executed | `Geomedian.MaskRaisesNameErrorAsWritten` | `Geomedian.Composite` |
| 10_Scripts/DEADataHandling.py:597 | `sys.exit(0)` uses `sys`, which the module never imports, so an out-of-range index raises NameError instead of exiting | shapefile "data/catchments.shp" with 3 polygons, index 4 | exit with code 0 | not executed | `DeaScripts.ExitRaisesNameError` | `DeaScripts.OpenPolygon` |
| 10_Scripts/DEADataHandling.py:595 | the guard `i > len(shapes)` lets `i == len(shapes)` through to `shapes[i]` | shapefile "data/catchments.shp" with 3 polygons, index 3 | reject every index not below the count (`i >= len(shapes)`) | not executed | `DeaScripts.GuardMissesLastIndex` | `DeaScripts.OpenPolygon` |
