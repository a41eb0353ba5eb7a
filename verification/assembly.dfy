/** What `combine_layers` and `process_v_attributes` compute for one batch of
    accepted granules, value by value: the columns of the output cube (one
    entry per record along `mid_date`, or one grid per record), the choice of
    the projection variable, the grid-mapping and other "one distinct value"
    checks, the chip-size fallback and the names and values of the derived
    error and shift variables. The class methods that fill the cube step by
    step are proved against these definitions. */
module Assembly {
  import opened Wrappers
  import opened Errors
  import opened Granules

  // ---------------------------------------------------------------------------
  // the cube being assembled

  /** A cube variable: one grid per record, one value per record, or a
      scalar that carries only attributes. */
  datatype ColumnData = Spatial(grids: seq<Grid>) | PerRecord(values: seq<AttrValue>) | Scalar

  datatype Column = Column(data: ColumnData, attrs: Attrs)

  /** The cube's data variables and its global attributes. */
  datatype Cube = Cube(vars: map<string, Column>, attrs: Attrs)

  /** The column lies along a record axis of length `n`, or is a scalar. */
  predicate OnAxis(c: Column, n: nat) {
    match c.data
    case Spatial(grids) => |grids| == n
    case PerRecord(values) => |values| == n
    case Scalar => true
  }

  /** Every variable of the cube lies along the same record axis. */
  predicate AxisOk(vars: map<string, Column>, n: nat) {
    forall k :: k in vars ==> OnAxis(vars[k], n)
  }

  // ---------------------------------------------------------------------------
  // names (the strings of the variable and attribute name tables)

  const URL_VAR := "original_url_path"
  const V := "v"
  const V_ERROR := "v_error"
  const VX := "vx"
  const VY := "vy"
  const VA := "va"
  const VR := "vr"
  const VXP := "vxp"
  const VYP := "vyp"
  const VP := "vp"
  const VP_ERROR := "vp_error"
  const CHIP_SIZE_HEIGHT := "chip_size_height"
  const CHIP_SIZE_WIDTH := "chip_size_width"
  const INTERP_MASK := "interp_mask"
  const MAPPING := "mapping"
  const POLAR_STEREOGRAPHIC := "Polar_Stereographic"
  const UTM_PROJECTION := "UTM_Projection"
  const GRID_MAPPING := "grid_mapping"
  const GRID_MAPPING_NAME := "grid_mapping_name"
  const MAP_SCALE_CORRECTED := "map_scale_corrected"
  const STD_NAME := "standard_name"
  const DESCRIPTION_ATTR := "description"
  const STABLE_RMSE := "stable_rmse"
  const STABLE_APPLY_DATE := "stable_apply_date"
  const STABLE_SHIFT_APPLIED := "stable_shift_applied"
  const STABLE_COUNT := "stable_count"
  const STABLE_COUNT_SLOW := "stable_count_slow"
  const STABLE_COUNT_MASK := "stable_count_mask"
  const FLAG_STABLE_SHIFT := "flag_stable_shift"
  const FLAG_STABLE_SHIFT_DESCRIPTION := "flag_stable_shift_description"
  const STABLE_SHIFT := "stable_shift"
  const STABLE_SHIFT_SLOW := "stable_shift_slow"
  const STABLE_SHIFT_MASK := "stable_shift_mask"
  const ERROR := "error"
  const ERROR_MASK := "error_mask"
  const ERROR_MODELED := "error_modeled"
  const ERROR_SLOW := "error_slow"
  const IMG_PAIR_INFO := "img_pair_info"
  const DATE_CENTER := "date_center"
  const ACQUISITION_IMG1 := "acquisition_img1"
  const ACQUISITION_IMG2 := "acquisition_img2"
  const ACQUISITION_DATE_IMG1 := "acquisition_date_img1"
  const ACQUISITION_DATE_IMG2 := "acquisition_date_img2"
  const TIME_STANDARD_IMG1 := "time_standard_img1"
  const TIME_STANDARD_IMG2 := "time_standard_img2"
  const AUTORIFT_SOFTWARE_VERSION := "autoRIFT_software_version"
  const AUTORIFT_PARAMETER_FILE := "autoRIFT_parameter_file"

  /** The fill values the code passes as `missing_value`. */
  const MISSING_VALUE := AInt(-32767)
  const MISSING_BYTE := AInt(0)

  const CHIP_SIZE_HEIGHT_NO_VALUE := 65535

  /** The `img_pair_info` attributes copied into one variable each. */
  const IMG_PAIR_ATTRS: seq<string> := ["mission_img1", "sensor_img1", "satellite_img1",
                                        "mission_img2", "sensor_img2", "satellite_img2",
                                        "date_dt", DATE_CENTER, "roi_valid_percentage",
                                        AUTORIFT_SOFTWARE_VERSION]

  /** Of those, only `date_center` is converted to a date. */
  predicate ConvertToDate(name: string) {
    name == DATE_CENTER
  }

  /** The two velocity components whose legacy error attribute is `stable_rmse`. */
  const STABLE_RMSE_VARS: seq<string> := [VX, VY]

  // ---------------------------------------------------------------------------
  // columns gathered from the records

  /** `xr.concat` of one variable per record: the grids in record order, the
      attributes of the first. */
  function SpatialColumn(vs: seq<Variable>): (c: Column)
    ensures OnAxis(c, |vs|) && c.data.Spatial?
  {
    Column(Spatial(seq(|vs|, i requires 0 <= i < |vs| => vs[i].grid)), if vs == [] then map[] else vs[0].attrs)
  }

  /** `ds.<name>`: the attribute access raises when the record lacks it. */
  function RequiredVar(d: Dataset, name: string): (r: Result<Variable, Error>)
    ensures r.Success? <==> name in d.vars
    ensures r.Success? ==> r.value == d.vars[name]
  {
    if name in d.vars then Success(d.vars[name]) else Failure(MissingVariable(name))
  }

  /** `xr.concat([ds.<name> for ds in self.ds])`. */
  function Concat(ds: seq<Dataset>, name: string): (r: Result<Column, Error>)
    ensures r.Success? <==> forall i :: 0 <= i < |ds| ==> name in ds[i].vars
    ensures r.Failure? ==> r.error == MissingVariable(name)
    ensures r.Success? ==> OnAxis(r.value, |ds|) && r.value.data.Spatial?
    ensures r.Success? ==> forall i :: 0 <= i < |ds| ==> r.value.data.grids[i] == ds[i].vars[name].grid
    ensures r.Success? && |ds| > 0 ==> r.value.attrs == ds[0].vars[name].attrs
  {
    var vs :- MapAll(ds, (d: Dataset) => RequiredVar(d, name));
    Success(SpatialColumn(vs))
  }

  /** `xr.concat([self.get_data_var(ds, name) for ds in self.ds])`: a record
      without the variable contributes the all-missing placeholder. */
  function ConcatOrPlaceholder(ds: seq<Dataset>, name: string, gridX: seq<int>, gridY: seq<int>): (c: Column)
    ensures OnAxis(c, |ds|) && c.data.Spatial?
    ensures forall i :: 0 <= i < |ds| && name in ds[i].vars ==> c.data.grids[i] == ds[i].vars[name].grid
    ensures forall i :: 0 <= i < |ds| && name !in ds[i].vars ==> c.data.grids[i] == Placeholder(|gridY|, |gridX|)
    ensures |ds| > 0 ==> c.attrs == GetDataVar(ds[0], name, gridX, gridY).attrs
  {
    SpatialColumn(seq(|ds|, i requires 0 <= i < |ds| => GetDataVar(ds[i], name, gridX, gridY)))
  }

  /** The `original_url_path` variable: one URL per record. */
  function UrlColumn(urls: seq<string>): (c: Column)
    ensures OnAxis(c, |urls|) && c.data.PerRecord?
    ensures forall i :: 0 <= i < |urls| ==> c.data.values[i] == AStr(urls[i])
  {
    Column(PerRecord(seq(|urls|, i requires 0 <= i < |urls| => AStr(urls[i]))), map[])
  }

  /** A variable holding one value per record. */
  function RecordColumn(values: seq<AttrValue>, attrs: Attrs): (c: Column)
    ensures OnAxis(c, |values|) && c.data == PerRecord(values) && c.attrs == attrs
  {
    Column(PerRecord(values), attrs)
  }

  // ---------------------------------------------------------------------------
  // projection variable (first write only)

  /** The variable whose attributes describe the projection: the first of
      `Polar_Stereographic`, `UTM_Projection` and `mapping` that the granule
      has. */
  function ProjectionVariable(d: Dataset): (r: Option<string>)
    ensures r.None? <==> POLAR_STEREOGRAPHIC !in d.vars && UTM_PROJECTION !in d.vars && MAPPING !in d.vars
    ensures r.Some? ==> r.value in d.vars && r.value in [POLAR_STEREOGRAPHIC, UTM_PROJECTION, MAPPING]
    ensures r == Some(UTM_PROJECTION) || r == Some(MAPPING) ==> POLAR_STEREOGRAPHIC !in d.vars
    ensures r == Some(MAPPING) ==> UTM_PROJECTION !in d.vars
  {
    if POLAR_STEREOGRAPHIC in d.vars then Some(POLAR_STEREOGRAPHIC)
    else if UTM_PROJECTION in d.vars then Some(UTM_PROJECTION)
    else if MAPPING in d.vars then Some(MAPPING)
    else None
  }

  /** The scalar `mapping` variable of the cube carries the attributes of the
      first record's projection variable; without one the write fails. */
  function MappingColumn(d: Dataset, url: string): (r: Result<Column, Error>)
    ensures r.Failure? <==> ProjectionVariable(d).None?
    ensures r.Failure? ==> r.error == MissingProjectionVariable(url)
    ensures r.Success? ==> r.value.data.Scalar? && r.value.attrs == d.vars[ProjectionVariable(d).value].attrs
  {
    match ProjectionVariable(d)
    case None => Failure(MissingProjectionVariable(url))
    case Some(p) => Success(Column(Scalar, d.vars[p].attrs))
  }

  // ---------------------------------------------------------------------------
  // "one distinct value" checks

  /** The first value of a list that must hold a single distinct value, or
      `err` when it holds more. */
  function UniqueValue(values: seq<AttrValue>, err: Error): (r: Result<AttrValue, Error>)
    requires |values| > 0
    ensures r.Success? <==> forall i, j :: 0 <= i < |values| && 0 <= j < |values| ==> values[i] == values[j]
    ensures r.Success? ==> forall i :: 0 <= i < |values| ==> r.value == values[i]
    ensures r.Failure? ==> r.error == err
  {
    DistinctAtMostOne(values);
    if |Distinct(values)| > 1 then Failure(err) else Success(values[0])
  }

  /** Whether the batch uses the newer format, in which `v.grid_mapping`
      names the `mapping` variable. */
  function IsNewFormat(d0: Dataset): (r: Result<bool, Error>)
    ensures r.Success? <==> HasAttr(d0, V, GRID_MAPPING)
    ensures r.Success? ==> (r.value <==> d0.vars[V].attrs[GRID_MAPPING] == AStr(MAPPING))
  {
    var first :- VarAttr(d0, V, GRID_MAPPING);
    Success(first == AStr(MAPPING))
  }

  /** The grid-mapping value of every record: `mapping.grid_mapping_name`
      in the newer format, `v.grid_mapping` in the older one. */
  function GridMappingOf(d: Dataset, newFormat: bool): Result<AttrValue, Error> {
    if newFormat then VarAttr(d, MAPPING, GRID_MAPPING_NAME) else VarAttr(d, V, GRID_MAPPING)
  }

  /** The value every gridded variable of the cube gets as `grid_mapping`:
      the name `mapping` in the newer format and the common `v.grid_mapping`
      in the older one. The batch must agree on one grid mapping. */
  function GridMappingValue(ds: seq<Dataset>): (r: Result<AttrValue, Error>)
    requires |ds| > 0
    ensures r.Success? ==> IsNewFormat(ds[0]).Success?
    ensures r.Success? ==>
              var nf := IsNewFormat(ds[0]).value;
              MapAll(ds, (d: Dataset) => GridMappingOf(d, nf)).Success?
              && (forall i, j :: 0 <= i < |ds| && 0 <= j < |ds| ==>
                    GridMappingOf(ds[i], nf) == GridMappingOf(ds[j], nf))
              && r.value == (if nf then AStr(MAPPING) else GridMappingOf(ds[0], nf).value)
    ensures r == Failure(MultipleGridMappings) ==> IsNewFormat(ds[0]).Success?
    ensures r == Failure(MultipleGridMappings) ==>
              var nf := IsNewFormat(ds[0]).value;
              exists i, j :: 0 <= i < |ds| && 0 <= j < |ds| && GridMappingOf(ds[i], nf) != GridMappingOf(ds[j], nf)
  {
    var nf :- IsNewFormat(ds[0]);
    var values :- MapAll(ds, (d: Dataset) => GridMappingOf(d, nf));
    var common :- UniqueValue(values, MultipleGridMappings);
    Success(if nf then AStr(MAPPING) else common)
  }

  /** The autoRIFT parameter file the cube records: the first record's,
      provided every record names the same one. */
  function ParameterFile(ds: seq<Dataset>): (r: Result<AttrValue, Error>)
    requires |ds| > 0
    ensures r.Success? ==> forall i :: 0 <= i < |ds| ==> GlobalAttr(ds[i], AUTORIFT_PARAMETER_FILE) == Success(r.value)
    ensures r.Failure? && (forall i :: 0 <= i < |ds| ==> AUTORIFT_PARAMETER_FILE in ds[i].attrs) ==>
              r.error == MultipleParameterFiles
    ensures (forall i :: 0 <= i < |ds| ==>
               AUTORIFT_PARAMETER_FILE in ds[i].attrs
               && GlobalAttr(ds[i], AUTORIFT_PARAMETER_FILE) == GlobalAttr(ds[0], AUTORIFT_PARAMETER_FILE)) ==>
              r == GlobalAttr(ds[0], AUTORIFT_PARAMETER_FILE)
  {
    var values :- MapAll(ds, (d: Dataset) => GlobalAttr(d, AUTORIFT_PARAMETER_FILE));
    UniqueValue(values, MultipleParameterFiles)
  }

  /** The time standard of one image the cube records: the first record's,
      provided every record has the same one. */
  function TimeStandard(ds: seq<Dataset>, name: string): (r: Result<AttrValue, Error>)
    requires |ds| > 0
    ensures r.Success? ==> forall i :: 0 <= i < |ds| ==> VarAttr(ds[i], IMG_PAIR_INFO, name) == Success(r.value)
    ensures r.Failure? && (forall i :: 0 <= i < |ds| ==> HasAttr(ds[i], IMG_PAIR_INFO, name)) ==>
              r.error == MultipleTimeStandards(name)
    ensures (forall i :: 0 <= i < |ds| ==>
               HasAttr(ds[i], IMG_PAIR_INFO, name) && VarAttr(ds[i], IMG_PAIR_INFO, name) == VarAttr(ds[0], IMG_PAIR_INFO, name)) ==>
              r == VarAttr(ds[0], IMG_PAIR_INFO, name)
  {
    var values :- MapAll(ds, (d: Dataset) => VarAttr(d, IMG_PAIR_INFO, name));
    UniqueValue(values, MultipleTimeStandards(name))
  }

  // ---------------------------------------------------------------------------
  // chip size

  /** Every cell of the grid holds the "no value" code 65535: a grid with no
      cell at all qualifies. */
  predicate NoChipHeight(g: Grid) {
    forall r, c :: 0 <= r < |g| && 0 <= c < |g[r]| ==> g[r][c] == Some(CHIP_SIZE_HEIGHT_NO_VALUE)
  }

  /** The chip height a record contributes: its own `chip_size_height` unless
      every cell of it is the no-value code, then its `chip_size_width`. */
  function ChipHeightVar(d: Dataset): (r: Result<Variable, Error>)
    ensures r.Success? ==> CHIP_SIZE_HEIGHT in d.vars
    ensures CHIP_SIZE_HEIGHT in d.vars && !NoChipHeight(d.vars[CHIP_SIZE_HEIGHT].grid) ==>
              r == Success(d.vars[CHIP_SIZE_HEIGHT])
    ensures CHIP_SIZE_HEIGHT in d.vars && NoChipHeight(d.vars[CHIP_SIZE_HEIGHT].grid) ==>
              r == RequiredVar(d, CHIP_SIZE_WIDTH)
  {
    if CHIP_SIZE_HEIGHT !in d.vars then Failure(MissingVariable(CHIP_SIZE_HEIGHT))
    else if !NoChipHeight(d.vars[CHIP_SIZE_HEIGHT].grid) then Success(d.vars[CHIP_SIZE_HEIGHT])
    else RequiredVar(d, CHIP_SIZE_WIDTH)
  }

  /** The cube's `chip_size_height`, record by record. */
  function ChipHeightColumn(ds: seq<Dataset>): (r: Result<Column, Error>)
    ensures r.Success? <==> forall i :: 0 <= i < |ds| ==> ChipHeightVar(ds[i]).Success?
    ensures r.Success? ==> OnAxis(r.value, |ds|) && r.value.data.Spatial?
    ensures r.Success? ==> forall i :: 0 <= i < |ds| ==> r.value.data.grids[i] == ChipHeightVar(ds[i]).value.grid
  {
    var vs :- MapAll(ds, ChipHeightVar);
    Success(SpatialColumn(vs))
  }

  /** A height grid with a single usable cell (or a missing one) is kept. */
  lemma ChipHeightKept(d: Dataset, r: nat, c: nat)
    requires CHIP_SIZE_HEIGHT in d.vars
    requires r < |d.vars[CHIP_SIZE_HEIGHT].grid| && c < |d.vars[CHIP_SIZE_HEIGHT].grid[r]|
    requires d.vars[CHIP_SIZE_HEIGHT].grid[r][c] != Some(CHIP_SIZE_HEIGHT_NO_VALUE)
    ensures ChipHeightVar(d) == Success(d.vars[CHIP_SIZE_HEIGHT])
  {
  }

  // ---------------------------------------------------------------------------
  // grid_mapping attribute

  /** `set_grid_mapping_attr`: the attribute is written only when absent. */
  function WithGridMapping(c: Column, value: AttrValue): (r: Column)
    ensures r.data == c.data && GRID_MAPPING in r.attrs
    ensures GRID_MAPPING in c.attrs ==> r == c
    ensures GRID_MAPPING !in c.attrs ==> r.attrs == c.attrs[GRID_MAPPING := value]
  {
    if GRID_MAPPING in c.attrs then c else c.(attrs := c.attrs[GRID_MAPPING := value])
  }

  /** Setting the attribute twice keeps the first value. */
  lemma WithGridMappingIdempotent(c: Column, a: AttrValue, b: AttrValue)
    ensures WithGridMapping(WithGridMapping(c, a), b) == WithGridMapping(c, a)
  {
  }

  // ---------------------------------------------------------------------------
  // process_v_attributes: names

  const ERROR_PREFIXES: seq<string> := [ERROR, ERROR_MASK, ERROR_MODELED, ERROR_SLOW]
  const SHIFT_SUFFIXES: seq<string> := [STABLE_SHIFT, STABLE_SHIFT_SLOW, STABLE_SHIFT_MASK]

  /** `f'{var}_{suffix}'`. */
  function Derived(varName: string, suffix: string): string {
    varName + "_" + suffix
  }

  /** The four error variables derived from a velocity component. */
  function ErrorNames(varName: string): (r: seq<string>)
    ensures |r| == 4 && forall i :: 0 <= i < 4 ==> r[i] == Derived(varName, ERROR_PREFIXES[i])
  {
    seq(4, i requires 0 <= i < 4 => Derived(varName, ERROR_PREFIXES[i]))
  }

  /** The three shift variables derived from a velocity component. */
  function ShiftNames(varName: string): (r: seq<string>)
    ensures |r| == 3 && forall i :: 0 <= i < 3 ==> r[i] == Derived(varName, SHIFT_SUFFIXES[i])
  {
    seq(3, i requires 0 <= i < 3 => Derived(varName, SHIFT_SUFFIXES[i]))
  }

  /** The names `process_v_attributes` returns: errors first, then shifts. */
  function DerivedNames(varName: string): (r: seq<string>)
    ensures |r| == 7 && r[..4] == ErrorNames(varName) && r[4..] == ShiftNames(varName)
  {
    ErrorNames(varName) + ShiftNames(varName)
  }

  lemma DerivedInjective(varName: string, a: string, b: string)
    requires Derived(varName, a) == Derived(varName, b)
    ensures a == b
  {
    assert a == Derived(varName, a)[|varName| + 1..];
    assert b == Derived(varName, b)[|varName| + 1..];
  }

  /** The seven derived names of one component are pairwise different, so
      no derived variable overwrites another. */
  lemma DerivedNamesDistinct(varName: string)
    ensures forall i, j :: 0 <= i < j < 7 ==> DerivedNames(varName)[i] != DerivedNames(varName)[j]
  {
    var suffixes := ERROR_PREFIXES + SHIFT_SUFFIXES;
    forall i, j | 0 <= i < j < 7 ensures DerivedNames(varName)[i] != DerivedNames(varName)[j] {
      assert DerivedNames(varName)[i] == Derived(varName, suffixes[i]);
      assert DerivedNames(varName)[j] == Derived(varName, suffixes[j]);
      if Derived(varName, suffixes[i]) == Derived(varName, suffixes[j]) {
        DerivedInjective(varName, suffixes[i], suffixes[j]);
      }
    }
  }

  lemma DerivedShape(a: string, s: string)
    ensures |Derived(a, s)| == |a| + 1 + |s| && Derived(a, s)[|a|] == '_'
    ensures forall i :: 0 <= i < |a| ==> Derived(a, s)[i] == a[i]
  {
  }

  /** Components whose names contain no '_' derive disjoint names, so the
      components processed in turn never overwrite each other's variables. */
  lemma DerivedDisjoint(a: string, b: string, s: string, t: string)
    requires '_' !in a && '_' !in b
    requires Derived(a, s) == Derived(b, t)
    ensures a == b && s == t
  {
    var x := Derived(a, s);
    DerivedShape(a, s);
    DerivedShape(b, t);
    if |a| < |b| {
      assert false;
    } else if |b| < |a| {
      assert false;
    } else {
      assert a == x[..|a|] && b == Derived(b, t)[..|b|];
      DerivedInjective(a, s, t);
    }
  }

  // ---------------------------------------------------------------------------
  // process_v_attributes: values

  /** The built-in descriptions, by error kind or by error variable. */
  function BuiltInDescription(key: string): Option<string> {
    if key == "vx_error" then Some("error for velocity component in x direction")
    else if key == "vy_error" then Some("error for velocity component in y direction")
    else if key == "va_error" then Some("error for velocity in radar azimuth direction")
    else if key == "vr_error" then Some("error for velocity in radar range direction")
    else if key == "vxp_error" then
      Some("error for x-direction velocity determined by projecting radar range measurements onto an a priori flow vector")
    else if key == "vyp_error" then
      Some("error for y-direction velocity determined by projecting radar range measurements onto an a priori flow vector")
    else if key == ERROR_MASK then
      Some("RMSE over stable surfaces, stationary or slow-flowing surfaces with velocity < 15 m/yr identified from an external mask")
    else if key == ERROR_SLOW then Some("RMSE over slowest 25% of retrieved velocities")
    else if key == ERROR_MODELED then Some("1-sigma error calculated using a modeled error-dt relationship")
    else None
  }

  /** The description of an error variable: the first record's own
      `<error>_description` attribute, else the built-in one for the error
      kind, else the built-in one for the variable; none of them raises. */
  function ErrorDescription(d0: Dataset, varName: string, prefix: string): (r: Result<AttrValue, Error>)
    ensures HasAttr(d0, varName, Derived(Derived(varName, prefix), DESCRIPTION_ATTR)) ==>
              r == Success(d0.vars[varName].attrs[Derived(Derived(varName, prefix), DESCRIPTION_ATTR)])
    ensures r.Failure? <==>
              !HasAttr(d0, varName, Derived(Derived(varName, prefix), DESCRIPTION_ATTR))
              && BuiltInDescription(prefix).None? && BuiltInDescription(Derived(varName, prefix)).None?
    ensures r.Failure? ==> r.error == UnknownDescription(Derived(varName, prefix))
  {
    var name := Derived(varName, prefix);
    var descName := Derived(name, DESCRIPTION_ATTR);
    if varName in d0.vars && descName in d0.vars[varName].attrs then Success(d0.vars[varName].attrs[descName])
    else if BuiltInDescription(prefix).Some? then Success(AStr(BuiltInDescription(prefix).value))
    else if BuiltInDescription(name).Some? then Success(AStr(BuiltInDescription(name).value))
    else Failure(UnknownDescription(name))
  }

  /** For the six velocity components the cube processes, every error kind
      has a description. */
  lemma DescriptionsKnown(d0: Dataset, varName: string, prefix: string)
    requires varName in [VX, VY, VA, VR, VXP, VYP] && prefix in ERROR_PREFIXES
    ensures ErrorDescription(d0, varName, prefix).Success?
  {
    if prefix == ERROR {
      if varName == VX {
        assert Derived(varName, prefix) == "vx_error";
      } else if varName == VY {
        assert Derived(varName, prefix) == "vy_error";
      } else if varName == VA {
        assert Derived(varName, prefix) == "va_error";
      } else if varName == VR {
        assert Derived(varName, prefix) == "vr_error";
      } else if varName == VXP {
        assert Derived(varName, prefix) == "vxp_error";
      } else {
        assert Derived(varName, prefix) == "vyp_error";
      }
    }
  }

  /** One record's value of an error variable. For `vx` and `vy` the legacy
      attribute `stable_rmse` stands in for a missing `<var>_error`; a
      missing value is the fill value. */
  function ErrorValue(d: Dataset, url: string, varName: string, errorName: string): (r: Result<AttrValue, Error>)
    ensures r.Failure? <==> varName in STABLE_RMSE_VARS && varName !in d.vars
    ensures HasAttr(d, varName, errorName) ==> r == Success(Unwrap(d.vars[varName].attrs[errorName]))
    ensures !HasAttr(d, varName, errorName) && varName !in STABLE_RMSE_VARS ==> r == Success(MISSING_VALUE)
    ensures !HasAttr(d, varName, errorName) && varName in STABLE_RMSE_VARS && varName in d.vars ==>
              r == GetDataVarAttr(d, url, varName, STABLE_RMSE, Some(MISSING_VALUE), false)
  {
    if varName in STABLE_RMSE_VARS then
      if varName !in d.vars then Failure(MissingVariable(varName))
      else if errorName in d.vars[varName].attrs then GetDataVarAttr(d, url, varName, errorName, Some(MISSING_VALUE), false)
      else GetDataVarAttr(d, url, varName, STABLE_RMSE, Some(MISSING_VALUE), false)
    else GetDataVarAttr(d, url, varName, errorName, Some(MISSING_VALUE), false)
  }

  /** The values of an error variable, record by record. */
  function ErrorValues(ds: seq<Dataset>, urls: seq<string>, varName: string, errorName: string): (r: Result<seq<AttrValue>, Error>)
    requires |ds| == |urls|
    ensures r.Success? <==> forall i :: 0 <= i < |ds| ==> ErrorValue(ds[i], urls[i], varName, errorName).Success?
    ensures r.Success? ==> |r.value| == |ds|
    ensures r.Success? ==> forall i :: 0 <= i < |ds| ==> ErrorValue(ds[i], urls[i], varName, errorName) == Success(r.value[i])
    ensures r.Failure? ==> r.error == MissingVariable(varName)
  {
    MapAll(Zip(ds, urls), (p: (Dataset, string)) => ErrorValue(p.0, p.1, varName, errorName))
  }
}
