/** `preprocess_dataset`: the decision the cube builder takes for one
    granule. A granule without a `mapping` variable is refused; a granule in
    another projection is set aside; otherwise it is cropped to the cube's
    bounding box (bounds included) and either found empty or returned
    together with its middle date, after its x spacing is checked against
    the cube's cell size. */
module Preprocess {
  import opened Wrappers
  import opened Errors
  import opened Text
  import opened Dates
  import opened Granules

  /** The cube's grid cell size, in metres. */
  const CELL_SIZE: int := 240

  /** The five values `preprocess_dataset` returns. */
  datatype LayerResult = LayerResult(isEmpty: bool, projection: int, midDate: Option<int>,
                                     url: string, data: Option<Dataset>)

  /** The cube's bounding box. */
  datatype Box = Box(xMin: int, xMax: int, yMin: int, yMax: int)

  // ---------------------------------------------------------------------------
  // the crop

  predicate Within(c: int, lo: int, hi: int) {
    lo <= c && c <= hi
  }

  /** The indices of the coordinates inside [lo, hi], in increasing order. */
  function KeepIndices(cs: seq<int>, lo: int, hi: int): (r: seq<nat>)
    ensures forall j :: 0 <= j < |r| ==> r[j] < |cs| && Within(cs[r[j]], lo, hi)
    ensures forall j, k :: 0 <= j < k < |r| ==> r[j] < r[k]
    ensures forall i :: 0 <= i < |cs| && Within(cs[i], lo, hi) ==> i in r
    decreases |cs|
  {
    if cs == [] then []
    else
      var init := KeepIndices(cs[..|cs| - 1], lo, hi);
      if Within(cs[|cs| - 1], lo, hi) then init + [|cs| - 1] else init
  }

  /** `s[idx]` for an index array. */
  function Pick<T>(s: seq<T>, idx: seq<nat>): (r: seq<T>)
    requires forall j :: 0 <= j < |idx| ==> idx[j] < |s|
    ensures |r| == |idx| && forall j :: 0 <= j < |idx| ==> r[j] == s[idx[j]]
  {
    seq(|idx|, j requires 0 <= j < |idx| => s[idx[j]])
  }

  /** The coordinates inside [lo, hi], in order: the reference the crop is
      checked against. */
  function InRange(cs: seq<int>, lo: int, hi: int): seq<int>
    decreases |cs|
  {
    if cs == [] then []
    else if Within(cs[|cs| - 1], lo, hi) then InRange(cs[..|cs| - 1], lo, hi) + [cs[|cs| - 1]]
    else InRange(cs[..|cs| - 1], lo, hi)
  }

  lemma PickExtend<T>(s: seq<T>, x: T, idx: seq<nat>)
    requires forall j :: 0 <= j < |idx| ==> idx[j] < |s|
    ensures Pick(s + [x], idx) == Pick(s, idx)
  {
  }

  lemma PickSnoc<T>(s: seq<T>, idx: seq<nat>, i: nat)
    requires forall j :: 0 <= j < |idx| ==> idx[j] < |s|
    requires i < |s|
    ensures Pick(s, idx + [i]) == Pick(s, idx) + [s[i]]
  {
  }

  /** Picking the kept indices gives exactly the coordinates in range. */
  lemma {:induction false} PickKeepIndices(cs: seq<int>, lo: int, hi: int)
    ensures Pick(cs, KeepIndices(cs, lo, hi)) == InRange(cs, lo, hi)
    decreases |cs|
  {
    if cs != [] {
      var n := |cs|;
      var init := cs[..n - 1];
      var last := cs[n - 1];
      assert cs == init + [last];
      PickKeepIndices(init, lo, hi);
      var k0 := KeepIndices(init, lo, hi);
      PickExtend(init, last, k0);
      if Within(last, lo, hi) {
        PickSnoc(cs, k0, n - 1);
      }
    }
  }

  /** Nothing in range leaves no index. */
  lemma KeepIndicesEmpty(cs: seq<int>, lo: int, hi: int)
    ensures |KeepIndices(cs, lo, hi)| == 0 <==> forall i :: 0 <= i < |cs| ==> !Within(cs[i], lo, hi)
  {
    var r := KeepIndices(cs, lo, hi);
    if |r| > 0 {
      assert Within(cs[r[0]], lo, hi);
    }
  }

  /** The grid restricted to the kept rows and columns. */
  function CropGrid(g: Grid, yi: seq<nat>, xi: seq<nat>, ny: nat, nx: nat): (r: Grid)
    requires Shaped(g, ny, nx)
    requires forall j :: 0 <= j < |yi| ==> yi[j] < ny
    requires forall j :: 0 <= j < |xi| ==> xi[j] < nx
    ensures Shaped(r, |yi|, |xi|)
    ensures g == [] ==> r == []
    ensures g != [] ==> |r| == |yi| && forall a, b :: 0 <= a < |yi| && 0 <= b < |xi| ==> r[a][b] == g[yi[a]][xi[b]]
  {
    if g == [] then []
    else seq(|yi|, a requires 0 <= a < |yi| => Pick(g[yi[a]], xi))
  }

  /** `ds.where(mask_x & mask_y, drop=True)`: every gridded variable keeps
      the rows and columns whose coordinates are inside the box. Because the
      mask is a product of an x mask and a y mask, no cell of the kept block
      is masked out. */
  function Crop(ds: Dataset, b: Box): (r: Dataset)
    requires WellFormed(ds)
    ensures WellFormed(r)
    ensures r.x == Pick(ds.x, KeepIndices(ds.x, b.xMin, b.xMax))
    ensures r.y == Pick(ds.y, KeepIndices(ds.y, b.yMin, b.yMax))
    ensures r.vars.Keys == ds.vars.Keys && r.attrs == ds.attrs
    ensures forall n :: n in r.vars ==> r.vars[n].attrs == ds.vars[n].attrs
  {
    var xi := KeepIndices(ds.x, b.xMin, b.xMax);
    var yi := KeepIndices(ds.y, b.yMin, b.yMax);
    Dataset(Pick(ds.x, xi), Pick(ds.y, yi),
            map n | n in ds.vars :: Variable(CropGrid(ds.vars[n].grid, yi, xi, |ds.y|, |ds.x|), ds.vars[n].attrs),
            ds.attrs)
  }

  /** `np.any(v.notnull())`. */
  predicate AnyValue(g: Grid) {
    exists r, c :: 0 <= r < |g| && 0 <= c < |g[r]| && g[r][c].Some?
  }

  function Abs(n: int): nat {
    if n < 0 then -n else n
  }

  // ---------------------------------------------------------------------------
  // the attributes the decision reads

  /** `int(ds.mapping.spatial_epsg)`: an integer, or a string of decimal digits. */
  function Epsg(ds: Dataset): (r: Result<int, Error>)
    requires "mapping" in ds.vars
    ensures r.Success? <==> "spatial_epsg" in ds.vars["mapping"].attrs
                            && (ds.vars["mapping"].attrs["spatial_epsg"].AInt?
                                || (ds.vars["mapping"].attrs["spatial_epsg"].AStr?
                                    && |ds.vars["mapping"].attrs["spatial_epsg"].s| > 0
                                    && AllDigits(ds.vars["mapping"].attrs["spatial_epsg"].s)))
    ensures r.Success? ==> r.value >= 0 || ds.vars["mapping"].attrs["spatial_epsg"] == AInt(r.value)
  {
    var attrs := ds.vars["mapping"].attrs;
    if "spatial_epsg" !in attrs then Failure(MissingAttribute("", "mapping", "spatial_epsg"))
    else if attrs["spatial_epsg"].AInt? then Success(attrs["spatial_epsg"].i)
    else if attrs["spatial_epsg"].AStr? && |attrs["spatial_epsg"].s| > 0 && AllDigits(attrs["spatial_epsg"].s) then
      Success(DigitsValue(attrs["spatial_epsg"].s))
    else Failure(BadAttributeValue("mapping", "spatial_epsg"))
  }

  /** `ds.img_pair_info.<name>`. */
  function PairInfo(ds: Dataset, name: string): (r: Result<AttrValue, Error>)
    ensures r.Success? ==> "img_pair_info" in ds.vars && name in ds.vars["img_pair_info"].attrs
                           && r.value == ds.vars["img_pair_info"].attrs[name]
  {
    if "img_pair_info" !in ds.vars then Failure(MissingVariable("img_pair_info"))
    else if name !in ds.vars["img_pair_info"].attrs then Failure(MissingAttribute("", "img_pair_info", name))
    else Success(ds.vars["img_pair_info"].attrs[name])
  }

  /** `datetime.strptime(date_center, '%Y%m%d') + timedelta(milliseconds=int(date_dt))`. */
  function MidDateOf(ds: Dataset): (r: Result<int, Error>)
  {
    var center :- PairInfo(ds, "date_center");
    if !center.AStr? then Failure(BadAttributeValue("img_pair_info", "date_center"))
    else
      match ParseYmd(center.s)
      case None => Failure(BadDate(center.s))
      case Some(d) =>
        var dt :- PairInfo(ds, "date_dt");
        if !dt.AInt? then Failure(BadAttributeValue("img_pair_info", "date_dt"))
        else Success(MidDate(d, dt.i))
  }

  // ---------------------------------------------------------------------------
  // the decision

  /** No coordinate of `cs` lies inside [lo, hi]. */
  predicate Outside(cs: seq<int>, lo: int, hi: int) {
    forall i :: 0 <= i < |cs| ==> !Within(cs[i], lo, hi)
  }

  /** `mask.values.sum() == 0`: the box misses every column or every row. */
  predicate MissesBox(ds: Dataset, b: Box) {
    Outside(ds.x, b.xMin, b.xMax) || Outside(ds.y, b.yMin, b.yMax)
  }

  /** The granule names the cube's projection: `str(int(ds_projection)) == self.projection`. */
  predicate InTarget(ds: Dataset, projection: string) {
    "mapping" in ds.vars && Epsg(ds).Success? && DecimalString(Epsg(ds).value) == projection
  }

  /** The granule lies in the cube's projection, has a middle date and meets
      the box, so it is cropped. */
  predicate Cropped(ds: Dataset, projection: string, b: Box) {
    InTarget(ds, projection) && MidDateOf(ds).Success? && !MissesBox(ds, b)
  }

  /** What `preprocess_dataset` does with the crop of a granule in the
      cube's projection: without `v` it raises; a `v` with no value leaves
      the layer empty; otherwise the x spacing must be the cube's cell size
      (reading it needs two columns), and the crop is kept with its middle
      date. */
  function CheckCrop(data: Dataset, url: string, epsg: int, midDate: int): (r: Result<LayerResult, Error>)
    ensures "v" !in data.vars ==> r == Failure(MissingVariable("v"))
    ensures "v" in data.vars && !AnyValue(data.vars["v"].grid) ==>
              r == Success(LayerResult(true, epsg, None, url, None))
    ensures "v" in data.vars && AnyValue(data.vars["v"].grid) && |data.x| < 2 ==> r == Failure(TooFewColumns(url))
    ensures "v" in data.vars && AnyValue(data.vars["v"].grid) && |data.x| >= 2 ==>
              if Abs(data.x[0] - data.x[1]) == CELL_SIZE
              then r == Success(LayerResult(false, epsg, Some(midDate), url, Some(data)))
              else r == Failure(CellSizeMismatch(url, Abs(data.x[0] - data.x[1])))
  {
    if "v" !in data.vars then Failure(MissingVariable("v"))
    else if !AnyValue(data.vars["v"].grid) then Success(LayerResult(true, epsg, None, url, None))
    else if |data.x| < 2 then Failure(TooFewColumns(url))
    else if Abs(data.x[0] - data.x[1]) != CELL_SIZE then
      Failure(CellSizeMismatch(url, Abs(data.x[0] - data.x[1])))
    else Success(LayerResult(false, epsg, Some(midDate), url, Some(data)))
  }

  /** `preprocess_dataset(ds, url)` for a cube in `projection` with
      bounding box `b`; `PreprocessCases` below states its result case by
      case. */
  function PreprocessDataset(ds: Dataset, url: string, projection: string, b: Box): (r: Result<LayerResult, Error>)
    requires WellFormed(ds)
    ensures "mapping" !in ds.vars ==> r == Failure(UnsupportedProjection(url))
    ensures r.Success? ==> "mapping" in ds.vars && Epsg(ds) == Success(r.value.projection) && r.value.url == url
    ensures r.Success? ==> (r.value.data.Some? <==> r.value.midDate.Some?) && (r.value.isEmpty ==> r.value.data.None?)
  {
    if "mapping" !in ds.vars then Failure(UnsupportedProjection(url))
    else
      var epsg :- Epsg(ds);
      if DecimalString(epsg) != projection then Success(LayerResult(false, epsg, None, url, None))
      else
        var midDate :- MidDateOf(ds);
        var xi := KeepIndices(ds.x, b.xMin, b.xMax);
        var yi := KeepIndices(ds.y, b.yMin, b.yMax);
        // The mask's sum is the number of kept columns times the number of kept rows.
        if |xi| == 0 || |yi| == 0 then
          Success(LayerResult(true, epsg, None, url, None))
        else
          CheckCrop(Crop(ds, b), url, epsg, midDate)
  }

  /** A layer that is kept lies inside the box: its coordinates are exactly
      the granule's coordinates inside the bounds, bounds included. */
  lemma KeptLayerInBox(ds: Dataset, url: string, projection: string, b: Box)
    requires WellFormed(ds)
    requires PreprocessDataset(ds, url, projection, b).Success?
    requires PreprocessDataset(ds, url, projection, b).value.data.Some?
    ensures PreprocessDataset(ds, url, projection, b).value.data.value.x == InRange(ds.x, b.xMin, b.xMax)
    ensures PreprocessDataset(ds, url, projection, b).value.data.value.y == InRange(ds.y, b.yMin, b.yMax)
    ensures WellFormed(PreprocessDataset(ds, url, projection, b).value.data.value)
  {
    KeptLayerChecked(ds, url, projection, b);
    PickKeepIndices(ds.x, b.xMin, b.xMax);
    PickKeepIndices(ds.y, b.yMin, b.yMax);
  }

  /** Every granule meets exactly one case: refused without `mapping` or a
      readable `spatial_epsg`; set aside, non-empty and without data, in
      another projection; refused with an unreadable middle date; empty when
      the box misses it; and otherwise decided on its crop. */
  lemma PreprocessCases(ds: Dataset, url: string, projection: string, b: Box)
    requires WellFormed(ds)
    ensures var r := PreprocessDataset(ds, url, projection, b);
            && ("mapping" in ds.vars && Epsg(ds).Failure? ==> r == Failure(Epsg(ds).error))
            && ("mapping" in ds.vars && Epsg(ds).Success? && DecimalString(Epsg(ds).value) != projection ==>
                  r == Success(LayerResult(false, Epsg(ds).value, None, url, None)))
            && (InTarget(ds, projection) && MidDateOf(ds).Failure? ==> r == Failure(MidDateOf(ds).error))
            && (InTarget(ds, projection) && MidDateOf(ds).Success? && MissesBox(ds, b) ==>
                  r == Success(LayerResult(true, Epsg(ds).value, None, url, None)))
            && (Cropped(ds, projection, b) ==> r == CheckCrop(Crop(ds, b), url, Epsg(ds).value, MidDateOf(ds).value))
  {
    KeepIndicesEmpty(ds.x, b.xMin, b.xMax);
    KeepIndicesEmpty(ds.y, b.yMin, b.yMax);
  }

  /** A kept layer is the crop of a granule in the cube's projection, with
      its middle date; its `v` has a value and its x spacing is the cube's
      cell size. */
  lemma KeptLayerChecked(ds: Dataset, url: string, projection: string, b: Box)
    requires WellFormed(ds)
    requires PreprocessDataset(ds, url, projection, b).Success?
    requires PreprocessDataset(ds, url, projection, b).value.data.Some?
    ensures Cropped(ds, projection, b)
    ensures PreprocessDataset(ds, url, projection, b).value ==
              LayerResult(false, Epsg(ds).value, Some(MidDateOf(ds).value), url, Some(Crop(ds, b)))
    ensures "v" in Crop(ds, b).vars && AnyValue(Crop(ds, b).vars["v"].grid)
    ensures |Crop(ds, b).x| >= 2 && Abs(Crop(ds, b).x[0] - Crop(ds, b).x[1]) == CELL_SIZE
  {
  }

  /** An empty layer is a granule in the cube's projection that the box
      misses, or whose `v` has no value inside the box. */
  lemma EmptyLayerMissed(ds: Dataset, url: string, projection: string, b: Box)
    requires WellFormed(ds)
    requires PreprocessDataset(ds, url, projection, b).Success?
    requires PreprocessDataset(ds, url, projection, b).value.isEmpty
    ensures InTarget(ds, projection) && MidDateOf(ds).Success?
    ensures MissesBox(ds, b) || ("v" in Crop(ds, b).vars && !AnyValue(Crop(ds, b).vars["v"].grid))
  {
  }

  /** Every coordinate of a cropped granule is inside the bounds. */
  lemma {:induction false} InRangeWithin(cs: seq<int>, lo: int, hi: int)
    ensures forall c :: c in InRange(cs, lo, hi) <==> c in cs && Within(c, lo, hi)
    decreases |cs|
  {
    if cs != [] {
      InRangeWithin(cs[..|cs| - 1], lo, hi);
      assert cs == cs[..|cs| - 1] + [cs[|cs| - 1]];
    }
  }
}
