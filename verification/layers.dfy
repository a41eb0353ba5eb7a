/** `combine_layers` on one batch of accepted records, stage by stage, as
    functions from the cube's variables before a stage to the variables
    after it (or to the exception the stage raises): the header with the
    URLs, the projection variable of the first write, `v` with the grid
    mapping check, the gridded velocity variables with their derived
    variables, the chip sizes, the per-record `img_pair_info` values, the
    software version, the parameter file, the acquisition dates, the time
    standards and, on the first write, the `missing_value` marking. The class
    method that fills the cube in place is proved to end in the cube
    `Assemble` describes. */
module Layers {
  import opened Wrappers
  import opened Errors
  import opened Granules
  import opened Assembly
  import opened Combine

  // ---------------------------------------------------------------------------
  // the batch and the cube's header

  /** What `combine_layers` reads from the accumulator and the object: the
      records and their URLs, the target projection, two skip logs and the
      cube's grid. */
  datatype Batch = Batch(ds: seq<Dataset>, urls: seq<string>, projection: string,
                         skippedEmpty: seq<string>, skippedDouble: seq<string>,
                         gridX: seq<int>, gridY: seq<int>)

  /** A non-empty batch whose records and URLs pair up. */
  predicate Ready(b: Batch) {
    |b.ds| == |b.urls| > 0
  }

  const PROJECTION_ATTR := "projection"
  const SKIPPED_EMPTY_ATTR := "skipped_empty_data"
  const SKIPPED_DOUBLE_ATTR := "skipped_duplicate_middle_date"
  const MISSING_VALUE_ATTR := "missing_value"

  /** `json.dumps` of a list of URLs, kept as the list itself. */
  function Strings(xs: seq<string>): (r: AttrValue)
    ensures r.AList? && |r.items| == |xs|
    ensures forall i :: 0 <= i < |xs| ==> r.items[i] == AStr(xs[i])
  {
    AList(seq(|xs|, i requires 0 <= i < |xs| => AStr(xs[i])))
  }

  /** The cube's attributes that depend on the object: the projection and
      the logs of granules without data and of superseded granules. */
  function HeaderAttrs(b: Batch): Attrs {
    map[PROJECTION_ATTR := AStr(b.projection),
        SKIPPED_EMPTY_ATTR := Strings(b.skippedEmpty),
        SKIPPED_DOUBLE_ATTR := Strings(b.skippedDouble)]
  }

  /** The cube's attributes once the batch's parameter file and time
      standards are known. */
  function CubeAttrs(b: Batch, pf: AttrValue, ts1: AttrValue, ts2: AttrValue): (r: Attrs)
    ensures r.Keys == {PROJECTION_ATTR, SKIPPED_EMPTY_ATTR, SKIPPED_DOUBLE_ATTR,
                       AUTORIFT_PARAMETER_FILE, TIME_STANDARD_IMG1, TIME_STANDARD_IMG2}
    ensures r[PROJECTION_ATTR] == AStr(b.projection)
    ensures r[SKIPPED_EMPTY_ATTR] == Strings(b.skippedEmpty) && r[SKIPPED_DOUBLE_ATTR] == Strings(b.skippedDouble)
    ensures r[AUTORIFT_PARAMETER_FILE] == pf && r[TIME_STANDARD_IMG1] == ts1 && r[TIME_STANDARD_IMG2] == ts2
  {
    HeaderAttrs(b)[AUTORIFT_PARAMETER_FILE := pf][TIME_STANDARD_IMG1 := ts1][TIME_STANDARD_IMG2 := ts2]
  }

  /** The variables the cube starts with: the URL of every record. */
  function HeaderVars(b: Batch): (r: Vars)
    ensures r.Keys == {URL_VAR} && r[URL_VAR] == UrlColumn(b.urls)
    ensures AxisOk(r, |b.urls|)
  {
    map[URL_VAR := UrlColumn(b.urls)]
  }

  // ---------------------------------------------------------------------------
  // what a stage may change

  /** A variable the stages after the projection variable may write: any
      but the URL variable and the projection variable. */
  predicate Owned(x: string) {
    x != URL_VAR && x != MAPPING
  }

  /** Names starting with 'v' (the velocity variables and those derived
      from them) are owned. */
  lemma VNameOwned(x: string)
    requires |x| > 0 && x[0] == 'v'
    ensures Owned(x)
  {
  }

  /** How a stage changes the cube: it keeps every variable, neither adds
      nor changes the URL variable and the projection variable, and keeps
      every variable on the record axis of length `n`. */
  predicate Step(before: Vars, after: Vars, n: nat) {
    && before.Keys <= after.Keys
    && (URL_VAR in after ==> URL_VAR in before && after[URL_VAR] == before[URL_VAR])
    && (MAPPING in after ==> MAPPING in before && after[MAPPING] == before[MAPPING])
    && (AxisOk(before, n) ==> AxisOk(after, n))
  }

  lemma StepTrans(a: Vars, b: Vars, c: Vars, n: nat)
    requires Step(a, b, n) && Step(b, c, n)
    ensures Step(a, c, n)
  {
  }

  /** Writing an owned variable on the record axis is a stage. */
  lemma PutStep(vars: Vars, name: string, c: Column, n: nat)
    requires Owned(name) && OnAxis(c, n)
    ensures Step(vars, vars[name := c], n)
  {
  }

  // ---------------------------------------------------------------------------
  // the projection variable and `v`

  /** On the first write the scalar `mapping` variable takes the attributes
      of the first record's projection variable; a first record without one
      raises. Later writes leave the cube as it is. */
  function WithMapping(vars: Vars, b: Batch, isFirst: bool): (r: Result<Vars, Error>)
    requires Ready(b)
    ensures r.Failure? <==> isFirst && ProjectionVariable(b.ds[0]).None?
    ensures r.Failure? ==> r.error == MissingProjectionVariable(b.urls[0])
    ensures r.Success? ==> r.value.Keys == vars.Keys + (if isFirst then {MAPPING} else {})
    ensures r.Success? ==> forall k :: k in vars && k != MAPPING ==> r.value[k] == vars[k]
    ensures r.Success? && isFirst ==>
              r.value[MAPPING].data.Scalar? && r.value[MAPPING].attrs == b.ds[0].vars[ProjectionVariable(b.ds[0]).value].attrs
  {
    if isFirst then
      var c :- MappingColumn(b.ds[0], b.urls[0]);
      Success(vars[MAPPING := c])
    else Success(vars)
  }

  /** The scalar projection variable keeps every variable on the axis. */
  lemma WithMappingAxis(vars: Vars, b: Batch, isFirst: bool)
    requires Ready(b)
    ensures WithMapping(vars, b, isFirst).Success? && AxisOk(vars, |b.ds|) ==>
              AxisOk(WithMapping(vars, b, isFirst).value, |b.ds|)
  {
  }

  /** The per-record `map_scale_corrected` values of `v` (0 where absent). */
  function ScaleCorrectedColumn(b: Batch): (c: Column)
    requires Ready(b)
    ensures OnAxis(c, |b.ds|) && c.data.PerRecord? && c.attrs == map[]
    ensures forall i :: 0 <= i < |b.ds| ==>
              c.data.values[i] == if HasAttr(b.ds[i], V, MAP_SCALE_CORRECTED)
                                  then Unwrap(b.ds[i].vars[V].attrs[MAP_SCALE_CORRECTED]) else MISSING_BYTE
  {
    RecordColumn(Defaulted(b.ds, b.urls, V, MAP_SCALE_CORRECTED, MISSING_BYTE), map[])
  }

  /** After `v` is gathered: when the first record's `v` carries
      `map_scale_corrected`, that attribute becomes a variable of its own
      and leaves the cube's `v`. */
  function ScaleStage(vars: Vars, b: Batch): (r: Vars)
    requires Ready(b) && V in vars
    ensures Step(vars, r, |b.ds|) && V in r
    ensures MAP_SCALE_CORRECTED in r <==> MAP_SCALE_CORRECTED in vars || HasAttr(b.ds[0], V, MAP_SCALE_CORRECTED)
    ensures HasAttr(b.ds[0], V, MAP_SCALE_CORRECTED) ==>
              r[MAP_SCALE_CORRECTED] == ScaleCorrectedColumn(b)
              && r[V] == vars[V].(attrs := vars[V].attrs - {MAP_SCALE_CORRECTED})
    ensures !HasAttr(b.ds[0], V, MAP_SCALE_CORRECTED) ==> r == vars
  {
    if HasAttr(b.ds[0], V, MAP_SCALE_CORRECTED) then
      var v1 := vars[MAP_SCALE_CORRECTED := ScaleCorrectedColumn(b)];
      PutStep(vars, MAP_SCALE_CORRECTED, ScaleCorrectedColumn(b), |b.ds|);
      var v2 := DropAttrs(v1, V, {MAP_SCALE_CORRECTED});
      assert Step(v1, v2, |b.ds|) by {
        if AxisOk(v1, |b.ds|) {
          assert OnAxis(v1[V], |b.ds|);
        }
      }
      StepTrans(vars, v1, v2, |b.ds|);
      v2
    else
      vars
  }

  // ---------------------------------------------------------------------------
  // gridded variables

  /** `set_grid_mapping_attr(name, gm)` on the cube. */
  function Tag(vars: Vars, name: string, gm: AttrValue): (r: Vars)
    requires name in vars
    ensures r.Keys == vars.Keys && r[name] == WithGridMapping(vars[name], gm)
    ensures forall k :: k in vars && k != name ==> r[k] == vars[k]
  {
    vars[name := WithGridMapping(vars[name], gm)]
  }

  lemma TagStep(vars: Vars, name: string, gm: AttrValue, n: nat)
    requires name in vars && Owned(name)
    ensures Step(vars, Tag(vars, name, gm), n)
  {
    var r := Tag(vars, name, gm);
    if AxisOk(vars, n) {
      assert OnAxis(vars[name], n);
    }
  }

  /** Writing an owned variable on the record axis and tagging it is a
      stage. */
  lemma GriddedStep(vars: Vars, name: string, c: Column, gm: AttrValue, n: nat)
    requires Owned(name) && OnAxis(c, n)
    ensures Step(vars, Tag(vars[name := c], name, gm), n)
  {
    PutStep(vars, name, c, n);
    TagStep(vars[name := c], name, gm, n);
    StepTrans(vars, vars[name := c], Tag(vars[name := c], name, gm), n);
  }

  /** The velocity components and the seven variables derived from each. */
  function CompNames(c: string): seq<string> {
    [c] + DerivedNames(c)
  }

  /** Every name of `names` is a variable of `vars`. */
  predicate Has(vars: Vars, names: seq<string>) {
    forall x :: x in names ==> x in vars
  }

  lemma HasJoin(vars: Vars, a: seq<string>, b: seq<string>)
    requires Has(vars, a) && Has(vars, b)
    ensures Has(vars, a + b)
  {
  }

  lemma HasGrow(vars: Vars, after: Vars, a: seq<string>)
    requires Has(vars, a) && vars.Keys <= after.Keys
    ensures Has(after, a)
  {
  }

  /** The components and the names it derives start with 'v'. */
  lemma ComponentOwned(varName: string)
    requires varName in COMPONENTS
    ensures Owned(varName)
    ensures forall x :: x in CompNames(varName) ==> Owned(x)
  {
    assert varName[0] == 'v';
    forall x | x in CompNames(varName) ensures Owned(x) {
      if x != varName {
        var i :| 0 <= i < 7 && DerivedNames(varName)[i] == x;
        var suffix := if i < 4 then ERROR_PREFIXES[i] else SHIFT_SUFFIXES[i - 4];
        if i < 4 {
          assert DerivedNames(varName)[..4][i] == x;
        } else {
          assert DerivedNames(varName)[4..][i - 4] == x;
        }
        assert x == Derived(varName, suffix);
        assert x[0] == varName[0];
      }
    }
  }

  /** The variables created once per batch are owned. */
  lemma OnceCreatedOwned(vars: Vars, d0: Dataset, varName: string)
    ensures forall x :: x in OnceCreated(vars, d0, varName) ==> Owned(x)
  {
    forall x | x in OnceCreated(vars, d0, varName) ensures Owned(x) {
      if x != FLAG_STABLE_SHIFT {
        var k :| 0 <= k < |COUNT_NAMES| && x == COUNT_NAMES[k];
        assert x[0] == 's';
      }
    }
  }

  /** `process_v_attributes` is a stage that adds the derived variables. */
  lemma VAttributesStep(vars: Vars, b: Batch, varName: string)
    requires varName in COMPONENTS && varName in vars && Ready(b)
    ensures VAttributes(vars, b.ds, b.urls, varName).Success? ==>
              Step(vars, VAttributes(vars, b.ds, b.urls, varName).value, |b.ds|)
              && Has(VAttributes(vars, b.ds, b.urls, varName).value, CompNames(varName))
  {
    var res := VAttributes(vars, b.ds, b.urls, varName);
    if res.Success? {
      var r := res.value;
      var added := (set x | x in DerivedNames(varName)) + OnceCreated(vars, b.ds[0], varName);
      VAttributesUpdated(vars, b.ds, b.urls, varName);
      assert Updated(vars, r, varName, added, RemovedAttrs(varName), |b.ds|);
      ComponentOwned(varName);
      OnceCreatedOwned(vars, b.ds[0], varName);
      assert forall x :: x in added ==> Owned(x);
      UpdatedAxis(vars, r, varName, added, RemovedAttrs(varName), |b.ds|);
    }
  }

  /** A variable gathered with the all-missing placeholder for records that
      lack it (`v_error`, `vp`, `vp_error`), tagged with the grid mapping. */
  function PlaceholderStage(vars: Vars, b: Batch, name: string, gm: AttrValue): (r: Vars)
    requires Ready(b) && Owned(name)
    ensures Step(vars, r, |b.ds|) && name in r
    ensures r[name] == WithGridMapping(ConcatOrPlaceholder(b.ds, name, b.gridX, b.gridY), gm)
  {
    var c := ConcatOrPlaceholder(b.ds, name, b.gridX, b.gridY);
    GriddedStep(vars, name, c, gm, |b.ds|);
    Tag(vars[name := c], name, gm)
  }

  /** `vx` and `vy`: gathered from every record (all must hold it), then
      their attributes processed, then tagged. */
  function ComponentStage(vars: Vars, b: Batch, name: string, gm: AttrValue): (r: Result<Vars, Error>)
    requires Ready(b) && name in COMPONENTS
    ensures r.Success? ==> Step(vars, r.value, |b.ds|) && Has(r.value, CompNames(name))
  {
    var c :- Concat(b.ds, name);
    var v :- VAttributes(vars[name := c], b.ds, b.urls, name);
    ComponentOwned(name);
    PutStep(vars, name, c, |b.ds|);
    VAttributesStep(vars[name := c], b, name);
    TagStep(v, name, gm, |b.ds|);
    StepTrans(vars, vars[name := c], v, |b.ds|);
    StepTrans(vars, v, Tag(v, name, gm), |b.ds|);
    Success(Tag(v, name, gm))
  }

  /** `va`: gathered with placeholders, tagged, then its attributes
      processed. */
  function AzimuthStage(vars: Vars, b: Batch, gm: AttrValue): (r: Result<Vars, Error>)
    requires Ready(b)
    ensures r.Success? ==> Step(vars, r.value, |b.ds|) && Has(r.value, CompNames(VA))
  {
    var c := ConcatOrPlaceholder(b.ds, VA, b.gridX, b.gridY);
    var v1 := Tag(vars[VA := c], VA, gm);
    var v2 :- VAttributes(v1, b.ds, b.urls, VA);
    ComponentOwned(VA);
    PutStep(vars, VA, c, |b.ds|);
    TagStep(vars[VA := c], VA, gm, |b.ds|);
    StepTrans(vars, vars[VA := c], v1, |b.ds|);
    VAttributesStep(v1, b, VA);
    StepTrans(vars, v1, v2, |b.ds|);
    Success(v2)
  }

  /** `vr`, `vxp` and `vyp`: gathered with placeholders, their attributes
      processed, then tagged. */
  function RadarStage(vars: Vars, b: Batch, name: string, gm: AttrValue): (r: Result<Vars, Error>)
    requires Ready(b) && name in COMPONENTS
    ensures r.Success? ==> Step(vars, r.value, |b.ds|) && Has(r.value, CompNames(name))
  {
    var c := ConcatOrPlaceholder(b.ds, name, b.gridX, b.gridY);
    var v :- VAttributes(vars[name := c], b.ds, b.urls, name);
    ComponentOwned(name);
    PutStep(vars, name, c, |b.ds|);
    VAttributesStep(vars[name := c], b, name);
    TagStep(v, name, gm, |b.ds|);
    StepTrans(vars, vars[name := c], v, |b.ds|);
    StepTrans(vars, v, Tag(v, name, gm), |b.ds|);
    Success(Tag(v, name, gm))
  }

  /** `chip_size_height` (record by record, `chip_size_width` where the
      height has no value), `chip_size_width` and `interp_mask`, each
      gathered from every record and tagged. */
  function ChipStage(vars: Vars, b: Batch, gm: AttrValue): (r: Result<Vars, Error>)
    requires Ready(b)
    ensures r.Success? ==> Step(vars, r.value, |b.ds|)
    ensures r.Success? <==> ChipHeightColumn(b.ds).Success? && Concat(b.ds, CHIP_SIZE_WIDTH).Success?
                            && Concat(b.ds, INTERP_MASK).Success?
    ensures r.Success? ==>
              CHIP_SIZE_HEIGHT in r.value
              && r.value[CHIP_SIZE_HEIGHT] == WithGridMapping(ChipHeightColumn(b.ds).value, gm)
  {
    var h :- ChipHeightColumn(b.ds);
    var v1 := Tag(vars[CHIP_SIZE_HEIGHT := h], CHIP_SIZE_HEIGHT, gm);
    var w :- Concat(b.ds, CHIP_SIZE_WIDTH);
    var v2 := Tag(v1[CHIP_SIZE_WIDTH := w], CHIP_SIZE_WIDTH, gm);
    var m :- Concat(b.ds, INTERP_MASK);
    var v3 := Tag(v2[INTERP_MASK := m], INTERP_MASK, gm);
    GriddedStep(vars, CHIP_SIZE_HEIGHT, h, gm, |b.ds|);
    GriddedStep(v1, CHIP_SIZE_WIDTH, w, gm, |b.ds|);
    GriddedStep(v2, INTERP_MASK, m, gm, |b.ds|);
    StepTrans(vars, v1, v2, |b.ds|);
    StepTrans(vars, v2, v3, |b.ds|);
    Success(v3)
  }

  /** `v_error`, `vx`, `vy` and the names derived from the two components. */
  const COMPONENT_NAMES: seq<string> := [V_ERROR] + CompNames(VX) + CompNames(VY)

  /** `va`, `vr`, `vxp`, `vyp` and the names derived from each. */
  const RADAR_NAMES: seq<string> := CompNames(VA) + CompNames(VR) + CompNames(VXP) + CompNames(VYP)

  /** The gridded variables after `v` that get `missing_value` on the first
      write, in the order they are written. */
  const GRIDDED_NAMES: seq<string> := COMPONENT_NAMES + RADAR_NAMES + [VP, VP_ERROR]

  /** `new_v_vars`. */
  const NEW_V_VARS: seq<string> := [V] + GRIDDED_NAMES

  /** `v_error`, then `vx` and `vy` with their derived variables. */
  function ComponentStages(vars: Vars, b: Batch, gm: AttrValue): (r: Result<Vars, Error>)
    requires Ready(b)
  {
    var v1 := PlaceholderStage(vars, b, V_ERROR, gm);
    var v2 :- ComponentStage(v1, b, VX, gm);
    ComponentStage(v2, b, VY, gm)
  }

  /** The radar names, grouped as the two halves of the radar stages. */
  lemma RadarNamesHalves()
    ensures RADAR_NAMES == (CompNames(VA) + CompNames(VR)) + (CompNames(VXP) + CompNames(VYP))
  {
  }

  /** `va` and `vr` with their derived variables. */
  function AlongRadarStages(vars: Vars, b: Batch, gm: AttrValue): (r: Result<Vars, Error>)
    requires Ready(b)
  {
    var v1 :- AzimuthStage(vars, b, gm);
    RadarStage(v1, b, VR, gm)
  }

  /** `vxp` and `vyp` with their derived variables. */
  function ProjectedStages(vars: Vars, b: Batch, gm: AttrValue): (r: Result<Vars, Error>)
    requires Ready(b)
  {
    var v1 :- RadarStage(vars, b, VXP, gm);
    RadarStage(v1, b, VYP, gm)
  }

  /** `va`, `vr`, `vxp` and `vyp` with their derived variables. */
  function RadarStages(vars: Vars, b: Batch, gm: AttrValue): (r: Result<Vars, Error>)
    requires Ready(b)
  {
    var v2 :- AlongRadarStages(vars, b, gm);
    ProjectedStages(v2, b, gm)
  }

  /** The chip sizes and the mask, then `vp` and `vp_error`. */
  function SpeedStages(vars: Vars, b: Batch, gm: AttrValue): (r: Result<Vars, Error>)
    requires Ready(b)
  {
    var v1 :- ChipStage(vars, b, gm);
    var v2 := PlaceholderStage(v1, b, VP, gm);
    Success(PlaceholderStage(v2, b, VP_ERROR, gm))
  }

  /** Every gridded variable after `v`: the velocity variables, the chip
      sizes and the mask, `vp` and `vp_error`. */
  function GriddedStages(vars: Vars, b: Batch, gm: AttrValue): (r: Result<Vars, Error>)
    requires Ready(b)
  {
    var v1 :- ComponentStages(vars, b, gm);
    var v2 :- RadarStages(v1, b, gm);
    SpeedStages(v2, b, gm)
  }

  lemma ComponentStagesStep(vars: Vars, b: Batch, gm: AttrValue)
    requires Ready(b)
    ensures ComponentStages(vars, b, gm).Success? ==>
              Step(vars, ComponentStages(vars, b, gm).value, |b.ds|) && Has(ComponentStages(vars, b, gm).value, COMPONENT_NAMES)
  {
    if ComponentStages(vars, b, gm).Success? {
      var v1 := PlaceholderStage(vars, b, V_ERROR, gm);
      var v2 := ComponentStage(v1, b, VX, gm).value;
      var v3 := ComponentStage(v2, b, VY, gm).value;
      StepTrans(vars, v1, v2, |b.ds|);
      StepTrans(vars, v2, v3, |b.ds|);
      HasGrow(v2, v3, CompNames(VX));
      HasJoin(v3, [V_ERROR], CompNames(VX));
      HasJoin(v3, [V_ERROR] + CompNames(VX), CompNames(VY));
    }
  }

  lemma RadarStagesStep(vars: Vars, b: Batch, gm: AttrValue)
    requires Ready(b)
    ensures RadarStages(vars, b, gm).Success? ==>
              Step(vars, RadarStages(vars, b, gm).value, |b.ds|) && Has(RadarStages(vars, b, gm).value, RADAR_NAMES)
  {
    if RadarStages(vars, b, gm).Success? {
      var v1 := AzimuthStage(vars, b, gm).value;
      assert AlongRadarStages(vars, b, gm).Success?;
      var v2 := RadarStage(v1, b, VR, gm).value;
      var v3 := RadarStage(v2, b, VXP, gm).value;
      var v4 := RadarStage(v3, b, VYP, gm).value;
      StepTrans(vars, v1, v2, |b.ds|);
      StepTrans(vars, v2, v3, |b.ds|);
      StepTrans(vars, v3, v4, |b.ds|);
      HasGrow(v1, v4, CompNames(VA));
      HasGrow(v2, v4, CompNames(VR));
      HasGrow(v3, v4, CompNames(VXP));
      HasJoin(v4, CompNames(VA), CompNames(VR));
      HasJoin(v4, CompNames(VA) + CompNames(VR), CompNames(VXP));
      HasJoin(v4, CompNames(VA) + CompNames(VR) + CompNames(VXP), CompNames(VYP));
    }
  }

  /** The gridded stages keep the frame and leave every gridded variable
      and derived variable in the cube. */
  lemma GriddedStagesStep(vars: Vars, b: Batch, gm: AttrValue)
    requires Ready(b)
    ensures GriddedStages(vars, b, gm).Success? ==>
              Step(vars, GriddedStages(vars, b, gm).value, |b.ds|) && Has(GriddedStages(vars, b, gm).value, GRIDDED_NAMES)
  {
    if GriddedStages(vars, b, gm).Success? {
      var v1 := ComponentStages(vars, b, gm).value;
      ComponentStagesStep(vars, b, gm);
      var v2 := RadarStages(v1, b, gm).value;
      RadarStagesStep(v1, b, gm);
      assert SpeedStages(v2, b, gm).Success?;
      var v3 := ChipStage(v2, b, gm).value;
      var v4 := PlaceholderStage(v3, b, VP, gm);
      var v5 := PlaceholderStage(v4, b, VP_ERROR, gm);
      StepTrans(vars, v1, v2, |b.ds|);
      StepTrans(vars, v2, v3, |b.ds|);
      StepTrans(vars, v3, v4, |b.ds|);
      StepTrans(vars, v4, v5, |b.ds|);
      HasGrow(v1, v5, COMPONENT_NAMES);
      HasGrow(v2, v5, RADAR_NAMES);
      HasJoin(v5, COMPONENT_NAMES, RADAR_NAMES);
      HasJoin(v5, COMPONENT_NAMES + RADAR_NAMES, [VP, VP_ERROR]);
    }
  }

  // ---------------------------------------------------------------------------
  // one value per record

  /** The column of one `img_pair_info` attribute. */
  function PairInfoColumn(b: Batch, name: string): (r: Result<Column, Error>)
    requires Ready(b)
    ensures r.Success? ==> OnAxis(r.value, |b.ds|)
  {
    var vs :- CollectAttr(b.ds, b.urls, IMG_PAIR_INFO, name, None, ConvertToDate(name));
    Success(RecordColumn(vs, map[]))
  }

  /** `c` holds, record by record, the attribute `name` of the record's
      `img_pair_info` (a date for `date_center`). */
  predicate PairInfoColumnOf(c: Column, b: Batch, name: string)
    requires Ready(b)
  {
    && c.data.PerRecord? && |c.data.values| == |b.ds|
    && forall i :: 0 <= i < |b.ds| ==>
         GetDataVarAttr(b.ds[i], b.urls[i], IMG_PAIR_INFO, name, None, ConvertToDate(name)) == Success(c.data.values[i])
  }

  /** The column exists exactly when every record has the attribute, and
      then it holds every record's value. */
  lemma PairInfoColumnValues(b: Batch, name: string)
    requires Ready(b)
    ensures PairInfoColumn(b, name).Success? <==>
              forall i :: 0 <= i < |b.ds| ==> GetDataVarAttr(b.ds[i], b.urls[i], IMG_PAIR_INFO, name, None, ConvertToDate(name)).Success?
    ensures PairInfoColumn(b, name).Success? ==> PairInfoColumnOf(PairInfoColumn(b, name).value, b, name)
  {
  }

  /** The reader of `img_pair_info` columns for a batch. */
  function PairInfoReader(b: Batch): (read: string --> Result<Column, Error>)
    requires Ready(b)
    ensures Reads(read, |b.ds|)
    ensures forall name :: read.requires(name) && read(name).Success? ==> PairInfoColumnOf(read(name).value, b, name)
  {
    var read := (name: string) requires Ready(b) => PairInfoColumn(b, name);
    forall name | read(name).Success? ensures PairInfoColumnOf(read(name).value, b, name) {
      PairInfoColumnValues(b, name);
    }
    read
  }

  /** A reader of per-record columns: defined on every name, and every
      column it builds lies on the record axis. */
  ghost predicate Reads(read: string --> Result<Column, Error>, n: nat) {
    && (forall name :: read.requires(name))
    && forall name :: read.requires(name) && read(name).Success? ==> OnAxis(read(name).value, n)
  }

  /** The attributes `names[..j]`, each read into a variable of its own;
      the first one that cannot be read raises. */
  function AttrFold(vars: Vars, names: seq<string>, read: string --> Result<Column, Error>, j: nat): (r: Result<Vars, Error>)
    requires j <= |names| && forall name :: read.requires(name)
    decreases j
  {
    if j == 0 then Success(vars)
    else
      var v :- AttrFold(vars, names, read, j - 1);
      var c :- read(names[j - 1]);
      Success(v[names[j - 1] := c])
  }

  /** The fold is a stage. */
  lemma {:induction false} AttrFoldStep(vars: Vars, names: seq<string>, read: string --> Result<Column, Error>, n: nat, j: nat)
    requires j <= |names| && Reads(read, n)
    requires forall i :: 0 <= i < |names| ==> Owned(names[i])
    ensures AttrFold(vars, names, read, j).Success? ==> Step(vars, AttrFold(vars, names, read, j).value, n)
    decreases j
  {
    if j > 0 && AttrFold(vars, names, read, j).Success? {
      AttrFoldStep(vars, names, read, n, j - 1);
      var v := AttrFold(vars, names, read, j - 1).value;
      var c := read(names[j - 1]).value;
      PutStep(v, names[j - 1], c, n);
      StepTrans(vars, v, v[names[j - 1] := c], n);
    }
  }

  /** Each attribute's variable holds the column read for it; so the fold
      fails when one of the columns cannot be read. */
  lemma {:induction false} AttrFoldColumns(vars: Vars, names: seq<string>, read: string --> Result<Column, Error>, j: nat)
    requires j <= |names| && forall name :: read.requires(name)
    ensures AttrFold(vars, names, read, j).Success? ==>
              forall i :: 0 <= i < j ==>
                names[i] in AttrFold(vars, names, read, j).value
                && read(names[i]) == Success(AttrFold(vars, names, read, j).value[names[i]])
    decreases j
  {
    if j > 0 && AttrFold(vars, names, read, j).Success? {
      AttrFoldColumns(vars, names, read, j - 1);
    }
  }

  /** Every name read and every variable not among them is left as it
      was. */
  lemma {:induction false} AttrFoldKeeps(vars: Vars, names: seq<string>, read: string --> Result<Column, Error>, j: nat)
    requires j <= |names| && forall name :: read.requires(name)
    ensures AttrFold(vars, names, read, j).Success? ==>
              AttrFold(vars, names, read, j).value.Keys == vars.Keys + (set i | 0 <= i < j :: names[i])
              && forall k :: k in vars && k !in names[..j] ==> AttrFold(vars, names, read, j).value[k] == vars[k]
    decreases j
  {
    if j > 0 && AttrFold(vars, names, read, j).Success? {
      AttrFoldKeeps(vars, names, read, j - 1);
      assert names[..j] == names[..j - 1] + [names[j - 1]];
    }
  }

  /** The names of the `img_pair_info` attributes do not clash with the URL
      or projection variable. */
  lemma PairInfoOwned()
    ensures forall i :: 0 <= i < |IMG_PAIR_ATTRS| ==> Owned(IMG_PAIR_ATTRS[i])
  {
  }

  /** A failed read fails the rest of the fold with the same exception. */
  lemma {:induction false} AttrFoldStays(vars: Vars, names: seq<string>, read: string --> Result<Column, Error>, j: nat, m: nat)
    requires j <= m <= |names| && forall name :: read.requires(name)
    requires AttrFold(vars, names, read, j).Failure?
    ensures AttrFold(vars, names, read, m) == AttrFold(vars, names, read, j)
    decreases m - j
  {
    if j < m {
      AttrFoldStays(vars, names, read, j, m - 1);
    }
  }

  /** The reader reads the batch's `img_pair_info` columns. */
  lemma PairInfoReaderAt(b: Batch, name: string)
    requires Ready(b)
    ensures PairInfoReader(b)(name) == PairInfoColumn(b, name)
  {
  }

  /** Every record's `autoRIFT_software_version` global attribute. */
  function SoftwareVersions(b: Batch): Result<seq<AttrValue>, Error> {
    MapAll(b.ds, (d: Dataset) => GlobalAttr(d, AUTORIFT_SOFTWARE_VERSION))
  }

  /** `autoRIFT_software_version`: every record's global attribute (all
      must carry it). */
  function SoftwareStage(vars: Vars, b: Batch): (r: Result<Vars, Error>)
    requires Ready(b)
    ensures r.Success? <==> forall i :: 0 <= i < |b.ds| ==> AUTORIFT_SOFTWARE_VERSION in b.ds[i].attrs
    ensures r.Success? ==> Step(vars, r.value, |b.ds|) && r.value.Keys == vars.Keys + {AUTORIFT_SOFTWARE_VERSION}
    ensures r.Success? ==> forall k :: k in vars && k != AUTORIFT_SOFTWARE_VERSION ==> r.value[k] == vars[k]
    ensures r.Success? ==>
              var c := r.value[AUTORIFT_SOFTWARE_VERSION];
              c.data.PerRecord? && |c.data.values| == |b.ds|
              && forall i :: 0 <= i < |b.ds| ==> c.data.values[i] == b.ds[i].attrs[AUTORIFT_SOFTWARE_VERSION]
  {
    var vs :- SoftwareVersions(b);
    PutStep(vars, AUTORIFT_SOFTWARE_VERSION, RecordColumn(vs, map[]), |b.ds|);
    Success(vars[AUTORIFT_SOFTWARE_VERSION := RecordColumn(vs, map[])])
  }

  /** One record's acquisition date: the older attribute name when the
      record's `img_pair_info` carries it, else the newer one, converted to
      a date; a record without `img_pair_info` raises. */
  function AcquisitionValue(d: Dataset, url: string, oldName: string, newName: string): (r: Result<AttrValue, Error>)
    ensures IMG_PAIR_INFO !in d.vars ==> r == Failure(MissingVariable(IMG_PAIR_INFO))
    ensures HasAttr(d, IMG_PAIR_INFO, oldName) ==> r == GetDataVarAttr(d, url, IMG_PAIR_INFO, oldName, None, true)
    ensures IMG_PAIR_INFO in d.vars && !HasAttr(d, IMG_PAIR_INFO, oldName) ==>
              r == GetDataVarAttr(d, url, IMG_PAIR_INFO, newName, None, true)
  {
    if IMG_PAIR_INFO !in d.vars then Failure(MissingVariable(IMG_PAIR_INFO))
    else if oldName in d.vars[IMG_PAIR_INFO].attrs then GetDataVarAttr(d, url, IMG_PAIR_INFO, oldName, None, true)
    else GetDataVarAttr(d, url, IMG_PAIR_INFO, newName, None, true)
  }

  /** The acquisition dates of one image, record by record. */
  function AcquisitionDates(b: Batch, oldName: string, newName: string): Result<seq<AttrValue>, Error>
    requires Ready(b)
  {
    MapAll(Zip(b.ds, b.urls), (p: (Dataset, string)) => AcquisitionValue(p.0, p.1, oldName, newName))
  }

  /** `c` holds, record by record, the acquisition date of one image. */
  predicate AcquisitionColumn(c: Column, b: Batch, oldName: string, newName: string)
    requires Ready(b)
  {
    && c.data.PerRecord? && |c.data.values| == |b.ds|
    && forall i :: 0 <= i < |b.ds| ==> AcquisitionValue(b.ds[i], b.urls[i], oldName, newName) == Success(c.data.values[i])
  }

  /** The acquisition dates of one image, record by record, under the newer
      name. */
  function AcquisitionStage(vars: Vars, b: Batch, oldName: string, newName: string): (r: Result<Vars, Error>)
    requires Ready(b) && Owned(newName)
    ensures r.Success? <==> forall i :: 0 <= i < |b.ds| ==> AcquisitionValue(b.ds[i], b.urls[i], oldName, newName).Success?
    ensures r.Success? ==> Step(vars, r.value, |b.ds|) && r.value.Keys == vars.Keys + {newName}
    ensures r.Success? ==> forall k :: k in vars && k != newName ==> r.value[k] == vars[k]
    ensures r.Success? ==> AcquisitionColumn(r.value[newName], b, oldName, newName)
  {
    var vs :- AcquisitionDates(b, oldName, newName);
    PutStep(vars, newName, RecordColumn(vs, map[]), |b.ds|);
    Success(vars[newName := RecordColumn(vs, map[])])
  }

  // ---------------------------------------------------------------------------
  // missing_value on the first write

  /** `missing_value` is set on the variable unless it already has one. */
  function SetMissing(vars: Vars, name: string): (r: Vars)
    requires name in vars
  {
    if MISSING_VALUE_ATTR in vars[name].attrs then vars
    else vars[name := vars[name].(attrs := vars[name].attrs[MISSING_VALUE_ATTR := MISSING_VALUE])]
  }

  /** The loop over `new_v_vars`, for the names `names`. */
  function MarkMissing(vars: Vars, names: seq<string>): (r: Vars)
    requires forall x :: x in names ==> x in vars
    ensures r.Keys == vars.Keys
    decreases |names|
  {
    if names == [] then vars
    else
      var init := names[..|names| - 1];
      assert forall x :: x in init ==> x in names;
      SetMissing(MarkMissing(vars, init), names[|names| - 1])
  }

  /** Each listed variable ends with a `missing_value` (its own if it had
      one, the fill value otherwise) and keeps its data; every other
      variable is untouched. */
  lemma {:induction false} MarkMissingMarks(vars: Vars, names: seq<string>)
    requires forall x :: x in names ==> x in vars
    ensures forall k :: k in vars && k !in names ==> MarkMissing(vars, names)[k] == vars[k]
    ensures forall k :: k in names ==>
              MarkMissing(vars, names)[k] == vars[k].(attrs := if MISSING_VALUE_ATTR in vars[k].attrs then vars[k].attrs
                                                               else vars[k].attrs[MISSING_VALUE_ATTR := MISSING_VALUE])
    decreases |names|
  {
    if names != [] {
      var init := names[..|names| - 1];
      assert forall x :: x in init ==> x in names;
      MarkMissingMarks(vars, init);
      assert forall k :: k in names ==> k in init || k == names[|names| - 1] by {
        assert names == init + [names[|names| - 1]];
      }
    }
  }

  // ---------------------------------------------------------------------------
  // the whole batch

  /** The cube up to the gridded variables: the URLs, the projection
      variable on the first write, `v` (every record must hold it) with the
      grid mapping check, `map_scale_corrected`, and the gridded stages. */
  function GriddedVars(b: Batch, isFirst: bool): (r: Result<Vars, Error>)
    requires Ready(b)
  {
    var v0 :- WithMapping(HeaderVars(b), b, isFirst);
    var v :- Concat(b.ds, V);
    var gm :- GridMappingValue(b.ds);
    GriddedStages(ScaleStage(v0[V := v], b), b, gm)
  }

  /** What the gridded part leaves in the cube: every variable on the
      record axis, the URLs as given, the projection variable exactly on
      the first write, and every variable of `new_v_vars`. */
  lemma GriddedVarsShape(b: Batch, isFirst: bool)
    requires Ready(b)
    ensures GriddedVars(b, isFirst).Success? ==>
              var r := GriddedVars(b, isFirst).value;
              && AxisOk(r, |b.ds|)
              && URL_VAR in r && r[URL_VAR] == UrlColumn(b.urls)
              && (MAPPING in r <==> isFirst)
              && (isFirst ==> r[MAPPING] == WithMapping(HeaderVars(b), b, true).value[MAPPING])
              && Has(r, NEW_V_VARS)
  {
    if GriddedVars(b, isFirst).Success? {
      var v0 := WithMapping(HeaderVars(b), b, isFirst).value;
      var v := Concat(b.ds, V).value;
      var gm := GridMappingValue(b.ds).value;
      var v1 := v0[V := v];
      var v2 := ScaleStage(v1, b);
      var v3 := GriddedStages(v2, b, gm).value;
      WithMappingAxis(HeaderVars(b), b, isFirst);
      PutStep(v0, V, v, |b.ds|);
      GriddedStagesStep(v2, b, gm);
      StepTrans(v0, v1, v2, |b.ds|);
      StepTrans(v0, v2, v3, |b.ds|);
      HasJoin(v3, [V], GRIDDED_NAMES);
    }
  }

  /** The `img_pair_info` attributes, then the software version, one
      value per record. */
  function PairInfoVars(vars: Vars, b: Batch): (r: Result<Vars, Error>)
    requires Ready(b)
    ensures r.Success? ==> PairInfoFilled(r.value, b)
  {
    var read := PairInfoReader(b);
    var v :- AttrFold(vars, IMG_PAIR_ATTRS, read, |IMG_PAIR_ATTRS|);
    AttrFoldColumns(vars, IMG_PAIR_ATTRS, read, |IMG_PAIR_ATTRS|);
    SoftwareStage(v, b)
  }

  lemma PairInfoVarsStep(vars: Vars, b: Batch)
    requires Ready(b)
    ensures PairInfoVars(vars, b).Success? ==> Step(vars, PairInfoVars(vars, b).value, |b.ds|)
  {
    if PairInfoVars(vars, b).Success? {
      var read := PairInfoReader(b);
      PairInfoOwned();
      AttrFoldStep(vars, IMG_PAIR_ATTRS, read, |b.ds|, |IMG_PAIR_ATTRS|);
      var v := AttrFold(vars, IMG_PAIR_ATTRS, read, |IMG_PAIR_ATTRS|).value;
      StepTrans(vars, v, SoftwareStage(v, b).value, |b.ds|);
    }
  }

  /** The acquisition dates of both images, one value per record. */
  function AcquisitionVars(vars: Vars, b: Batch): (r: Result<Vars, Error>)
    requires Ready(b)
    ensures r.Success? ==> Step(vars, r.value, |b.ds|)
    ensures r.Success? ==>
              forall k :: k in vars && k != ACQUISITION_DATE_IMG1 && k != ACQUISITION_DATE_IMG2 ==> r.value[k] == vars[k]
    ensures r.Success? ==>
              && ACQUISITION_DATE_IMG1 in r.value && AcquisitionColumn(r.value[ACQUISITION_DATE_IMG1], b, ACQUISITION_IMG1, ACQUISITION_DATE_IMG1)
              && ACQUISITION_DATE_IMG2 in r.value && AcquisitionColumn(r.value[ACQUISITION_DATE_IMG2], b, ACQUISITION_IMG2, ACQUISITION_DATE_IMG2)
  {
    var v :- AcquisitionStage(vars, b, ACQUISITION_IMG1, ACQUISITION_DATE_IMG1);
    var r :- AcquisitionStage(v, b, ACQUISITION_IMG2, ACQUISITION_DATE_IMG2);
    StepTrans(vars, v, r, |b.ds|);
    Success(r)
  }

  /** The two time standards the cube records. */
  const TIME_STANDARDS: seq<string> := [TIME_STANDARD_IMG1, TIME_STANDARD_IMG2]

  /** The loop over the time standards `names`: each becomes a cube
      attribute, and the first one the records lack or disagree on
      raises. */
  function TimeStandards(attrs: Attrs, ds: seq<Dataset>, names: seq<string>): (r: Result<Attrs, Error>)
    requires |ds| > 0
    decreases |names|
  {
    if names == [] then Success(attrs)
    else
      var ts :- TimeStandard(ds, names[0]);
      TimeStandards(attrs[names[0] := ts], ds, names[1..])
  }

  /** The loop over both time standards checks the first image's, then the
      second image's, and records both. */
  lemma TimeStandardsBoth(attrs: Attrs, ds: seq<Dataset>)
    requires |ds| > 0
    ensures TimeStandards(attrs, ds, TIME_STANDARDS).Success? <==>
              TimeStandard(ds, TIME_STANDARD_IMG1).Success? && TimeStandard(ds, TIME_STANDARD_IMG2).Success?
    ensures TimeStandard(ds, TIME_STANDARD_IMG1).Failure? ==>
              TimeStandards(attrs, ds, TIME_STANDARDS) == Failure(TimeStandard(ds, TIME_STANDARD_IMG1).error)
    ensures TimeStandard(ds, TIME_STANDARD_IMG1).Success? && TimeStandard(ds, TIME_STANDARD_IMG2).Failure? ==>
              TimeStandards(attrs, ds, TIME_STANDARDS) == Failure(TimeStandard(ds, TIME_STANDARD_IMG2).error)
    ensures TimeStandards(attrs, ds, TIME_STANDARDS).Success? ==>
              TimeStandards(attrs, ds, TIME_STANDARDS).value ==
                attrs[TIME_STANDARD_IMG1 := TimeStandard(ds, TIME_STANDARD_IMG1).value]
                     [TIME_STANDARD_IMG2 := TimeStandard(ds, TIME_STANDARD_IMG2).value]
  {
    var t1 := TimeStandard(ds, TIME_STANDARD_IMG1);
    var t2 := TimeStandard(ds, TIME_STANDARD_IMG2);
    var second: seq<string> := [TIME_STANDARD_IMG2];
    assert TIME_STANDARDS[0] == TIME_STANDARD_IMG1 && TIME_STANDARDS[1..] == second;
    assert second[0] == TIME_STANDARD_IMG2 && second[1..] == [];
    if t1.Success? {
      var a1 := attrs[TIME_STANDARD_IMG1 := t1.value];
      assert TimeStandards(attrs, ds, TIME_STANDARDS) == TimeStandards(a1, ds, second);
      if t2.Success? {
        assert TimeStandards(a1, ds, second) == TimeStandards(a1[TIME_STANDARD_IMG2 := t2.value], ds, []);
      }
    }
  }

  /** The per-record variables and the cube's attributes, added to the
      gridded variables `vars`: the parameter file is checked after the
      software version and before the acquisition dates, the time standards
      last. */
  function RecordsAndAttrs(vars: Vars, b: Batch): (r: Result<Cube, Error>)
    requires Ready(b)
    ensures r.Success? ==> Step(vars, r.value.vars, |b.ds|)
    ensures r.Success? ==>
              && ParameterFile(b.ds).Success?
              && TimeStandard(b.ds, TIME_STANDARD_IMG1).Success? && TimeStandard(b.ds, TIME_STANDARD_IMG2).Success?
              && r.value.attrs == CubeAttrs(b, ParameterFile(b.ds).value, TimeStandard(b.ds, TIME_STANDARD_IMG1).value,
                                            TimeStandard(b.ds, TIME_STANDARD_IMG2).value)
    ensures r.Success? ==> RecordColumns(r.value.vars, b)
  {
    var v1 :- PairInfoVars(vars, b);
    var pf :- ParameterFile(b.ds);
    var v2 :- AcquisitionVars(v1, b);
    var ts1 :- TimeStandard(b.ds, TIME_STANDARD_IMG1);
    var ts2 :- TimeStandard(b.ds, TIME_STANDARD_IMG2);
    PairInfoVarsStep(vars, b);
    StepTrans(vars, v1, v2, |b.ds|);
    PairInfoFilledKept(v1, v2, b);
    Success(Cube(v2, CubeAttrs(b, pf, ts1, ts2)))
  }

  /** The cube `combine_layers` assembles from a non-empty batch before it
      is written, in the order the source builds it, so that the first
      exception raised is the one returned. */
  function Combined(b: Batch, isFirst: bool): (r: Result<Cube, Error>)
    requires Ready(b)
  {
    var v :- GriddedVars(b, isFirst);
    RecordsAndAttrs(v, b)
  }

  /** `combine_layers` with the first write's `missing_value` marking: the
      cube handed to the store. */
  function Assemble(b: Batch, isFirst: bool): (r: Result<Cube, Error>)
    requires Ready(b)
  {
    var c :- Combined(b, isFirst);
    GriddedVarsShape(b, isFirst);
    HasGrow(GriddedVars(b, isFirst).value, c.vars, NEW_V_VARS);
    Success(if isFirst then c.(vars := MarkMissing(c.vars, NEW_V_VARS)) else c)
  }

  // ---------------------------------------------------------------------------
  // what the assembled cube satisfies

  /** No variable of `new_v_vars` is the URL or the projection variable. */
  lemma NewVarsOwned()
    ensures forall x :: x in NEW_V_VARS ==> Owned(x)
  {
    ComponentOwned(VX);
    ComponentOwned(VY);
    ComponentOwned(VA);
    ComponentOwned(VR);
    ComponentOwned(VXP);
    ComponentOwned(VYP);
  }

  /** Marking keeps every variable on the record axis and leaves every
      variable outside `new_v_vars` as it was. */
  lemma MarkNewVars(vars: Vars, n: nat)
    requires Has(vars, NEW_V_VARS)
    ensures forall k :: k in vars ==> MarkMissing(vars, NEW_V_VARS)[k].data == vars[k].data
    ensures forall k :: k in vars && !Owned(k) ==> MarkMissing(vars, NEW_V_VARS)[k] == vars[k]
    ensures AxisOk(vars, n) ==> AxisOk(MarkMissing(vars, NEW_V_VARS), n)
  {
    MarkMissingMarks(vars, NEW_V_VARS);
    NewVarsOwned();
  }

  /** Before the marking, a batch cube lies on the record axis, keeps the
      URL of every record, and has the projection variable exactly on the
      first write; and it holds every variable of `new_v_vars`. */
  lemma CombinedShape(b: Batch, isFirst: bool)
    requires Ready(b)
    ensures Combined(b, isFirst).Success? ==>
              var vars := Combined(b, isFirst).value.vars;
              && AxisOk(vars, |b.ds|)
              && URL_VAR in vars && vars[URL_VAR] == UrlColumn(b.urls)
              && (MAPPING in vars <==> isFirst)
              && (isFirst ==> vars[MAPPING] == WithMapping(HeaderVars(b), b, true).value[MAPPING])
              && Has(vars, NEW_V_VARS)
  {
    if Combined(b, isFirst).Success? {
      var g := GriddedVars(b, isFirst).value;
      GriddedVarsShape(b, isFirst);
      HasGrow(g, Combined(b, isFirst).value.vars, NEW_V_VARS);
    }
  }

  /** A batch cube lies on the record axis, keeps the URL of every record,
      and has the projection variable exactly on the first write, with the
      attributes of the first record's projection variable. */
  lemma AssembleShape(b: Batch, isFirst: bool)
    requires Ready(b)
    ensures Assemble(b, isFirst).Success? ==>
              var vars := Assemble(b, isFirst).value.vars;
              && AxisOk(vars, |b.ds|)
              && URL_VAR in vars && vars[URL_VAR] == UrlColumn(b.urls)
              && (MAPPING in vars <==> isFirst)
              && (isFirst ==>
                    ProjectionVariable(b.ds[0]).Some?
                    && vars[MAPPING].data.Scalar?
                    && vars[MAPPING].attrs == b.ds[0].vars[ProjectionVariable(b.ds[0]).value].attrs)
  {
    if Assemble(b, isFirst).Success? {
      var c := Combined(b, isFirst).value;
      CombinedShape(b, isFirst);
      MarkNewVars(c.vars, |b.ds|);
    }
  }

  /** Every `new_v_vars` variable of a first write carries `missing_value`:
      its own if it had one, the fill value otherwise; nothing else changes,
      and later writes add nothing. */
  lemma AssembleMissingValue(b: Batch, isFirst: bool)
    requires Ready(b)
    ensures Assemble(b, isFirst).Success? <==> Combined(b, isFirst).Success?
    ensures Assemble(b, isFirst).Success? && !isFirst ==> Assemble(b, isFirst) == Combined(b, isFirst)
    ensures Assemble(b, isFirst).Success? && isFirst ==>
              var before := Combined(b, isFirst).value;
              var after := Assemble(b, isFirst).value;
              && after.attrs == before.attrs
              && after.vars.Keys == before.vars.Keys
              && (forall k :: k in before.vars && k !in NEW_V_VARS ==> after.vars[k] == before.vars[k])
              && forall k :: k in NEW_V_VARS ==>
                   k in before.vars
                   && after.vars[k].data == before.vars[k].data
                   && MISSING_VALUE_ATTR in after.vars[k].attrs
                   && (MISSING_VALUE_ATTR !in before.vars[k].attrs ==>
                         after.vars[k].attrs == before.vars[k].attrs[MISSING_VALUE_ATTR := MISSING_VALUE])
                   && (MISSING_VALUE_ATTR in before.vars[k].attrs ==> after.vars[k].attrs == before.vars[k].attrs)
  {
    if Assemble(b, isFirst).Success? && isFirst {
      CombinedShape(b, isFirst);
      MarkMissingMarks(Combined(b, isFirst).value.vars, NEW_V_VARS);
    }
  }

  /** A batch that gets past the gridded variables agrees on its grid
      mapping. */
  lemma GriddedVarsChecks(b: Batch, isFirst: bool)
    requires Ready(b)
    ensures GriddedVars(b, isFirst).Success? ==>
              && GridMappingValue(b.ds).Success?
              && IsNewFormat(b.ds[0]).Success?
              && forall i, j :: 0 <= i < |b.ds| && 0 <= j < |b.ds| ==>
                   GridMappingOf(b.ds[i], IsNewFormat(b.ds[0]).value) == GridMappingOf(b.ds[j], IsNewFormat(b.ds[0]).value)
  {
    if GriddedVars(b, isFirst).Success? {
      assert WithMapping(HeaderVars(b), b, isFirst).Success? && Concat(b.ds, V).Success?;
    }
  }

  /** The checks across the batch: the records agree on the grid mapping,
      and the cube's parameter file and time standards are those of every
      record; its projection and skip logs are the object's. */
  lemma AssembleAttrs(b: Batch, isFirst: bool)
    requires Ready(b)
    ensures Assemble(b, isFirst).Success? ==>
              var attrs := Assemble(b, isFirst).value.attrs;
              && GridMappingValue(b.ds).Success?
              && IsNewFormat(b.ds[0]).Success?
              && (forall i, j :: 0 <= i < |b.ds| && 0 <= j < |b.ds| ==>
                    GridMappingOf(b.ds[i], IsNewFormat(b.ds[0]).value) == GridMappingOf(b.ds[j], IsNewFormat(b.ds[0]).value))
              && attrs.Keys == {PROJECTION_ATTR, SKIPPED_EMPTY_ATTR, SKIPPED_DOUBLE_ATTR,
                                AUTORIFT_PARAMETER_FILE, TIME_STANDARD_IMG1, TIME_STANDARD_IMG2}
              && attrs[PROJECTION_ATTR] == AStr(b.projection)
              && attrs[SKIPPED_EMPTY_ATTR] == Strings(b.skippedEmpty)
              && attrs[SKIPPED_DOUBLE_ATTR] == Strings(b.skippedDouble)
              && (forall i :: 0 <= i < |b.ds| ==> GlobalAttr(b.ds[i], AUTORIFT_PARAMETER_FILE) == Success(attrs[AUTORIFT_PARAMETER_FILE]))
              && (forall i :: 0 <= i < |b.ds| ==> VarAttr(b.ds[i], IMG_PAIR_INFO, TIME_STANDARD_IMG1) == Success(attrs[TIME_STANDARD_IMG1]))
              && (forall i :: 0 <= i < |b.ds| ==> VarAttr(b.ds[i], IMG_PAIR_INFO, TIME_STANDARD_IMG2) == Success(attrs[TIME_STANDARD_IMG2]))
  {
    if Assemble(b, isFirst).Success? {
      AssembleMissingValue(b, isFirst);
      GriddedVarsChecks(b, isFirst);
      assert Assemble(b, isFirst).value.attrs == RecordsAndAttrs(GriddedVars(b, isFirst).value, b).value.attrs;
    }
  }

  /** The first exceptions of a batch: a first write whose first record
      has no projection variable, then a record without `v`, then the grid
      mapping check. */
  lemma GriddedVarsEarlyFailures(b: Batch, isFirst: bool)
    requires Ready(b)
    ensures isFirst && ProjectionVariable(b.ds[0]).None? ==>
              GriddedVars(b, isFirst) == Failure(MissingProjectionVariable(b.urls[0]))
    ensures (!isFirst || ProjectionVariable(b.ds[0]).Some?) && (exists i :: 0 <= i < |b.ds| && V !in b.ds[i].vars) ==>
              GriddedVars(b, isFirst) == Failure(MissingVariable(V))
    ensures (!isFirst || ProjectionVariable(b.ds[0]).Some?) && (forall i :: 0 <= i < |b.ds| ==> V in b.ds[i].vars)
            && GridMappingValue(b.ds).Failure? ==>
              GriddedVars(b, isFirst) == Failure(GridMappingValue(b.ds).error)
  {
  }

  /** An exception in the gridded part is the batch's exception. */
  lemma AssembleEarlyFailures(b: Batch, isFirst: bool)
    requires Ready(b)
    ensures GriddedVars(b, isFirst).Failure? ==> Assemble(b, isFirst) == Failure(GriddedVars(b, isFirst).error)
  {
  }

  /** The variables filled from `img_pair_info` and the global software
      version, by their data: each `img_pair_info` attribute but the
      software version holds its column, and the software version holds
      every record's global attribute. */
  ghost predicate PairInfoFilled(vars: Vars, b: Batch)
    requires Ready(b)
  {
    && (forall i :: 0 <= i < |IMG_PAIR_ATTRS| && IMG_PAIR_ATTRS[i] != AUTORIFT_SOFTWARE_VERSION ==>
          IMG_PAIR_ATTRS[i] in vars && PairInfoColumnOf(vars[IMG_PAIR_ATTRS[i]], b, IMG_PAIR_ATTRS[i]))
    && AUTORIFT_SOFTWARE_VERSION in vars
    && vars[AUTORIFT_SOFTWARE_VERSION].data.PerRecord? && |vars[AUTORIFT_SOFTWARE_VERSION].data.values| == |b.ds|
    && (forall i :: 0 <= i < |b.ds| ==>
          AUTORIFT_SOFTWARE_VERSION in b.ds[i].attrs
          && vars[AUTORIFT_SOFTWARE_VERSION].data.values[i] == b.ds[i].attrs[AUTORIFT_SOFTWARE_VERSION])
  }

  /** The per-record variables of a batch cube, by their data: those filled
      from `img_pair_info` and the software version, and the two acquisition
      dates holding each record's date of each image. */
  ghost predicate RecordColumns(vars: Vars, b: Batch)
    requires Ready(b)
  {
    && PairInfoFilled(vars, b)
    && ACQUISITION_DATE_IMG1 in vars && AcquisitionColumn(vars[ACQUISITION_DATE_IMG1], b, ACQUISITION_IMG1, ACQUISITION_DATE_IMG1)
    && ACQUISITION_DATE_IMG2 in vars && AcquisitionColumn(vars[ACQUISITION_DATE_IMG2], b, ACQUISITION_IMG2, ACQUISITION_DATE_IMG2)
  }

  /** Filling the acquisition dates keeps what was filled before. */
  lemma PairInfoFilledKept(vars: Vars, after: Vars, b: Batch)
    requires Ready(b) && PairInfoFilled(vars, b) && vars.Keys <= after.Keys
    requires forall k :: k in vars && k != ACQUISITION_DATE_IMG1 && k != ACQUISITION_DATE_IMG2 ==> after[k] == vars[k]
    ensures PairInfoFilled(after, b)
  {
    AcquisitionNotPairInfo();
    forall i | 0 <= i < |IMG_PAIR_ATTRS| && IMG_PAIR_ATTRS[i] != AUTORIFT_SOFTWARE_VERSION
      ensures IMG_PAIR_ATTRS[i] in after && PairInfoColumnOf(after[IMG_PAIR_ATTRS[i]], b, IMG_PAIR_ATTRS[i])
    {
      assert IMG_PAIR_ATTRS[i] in IMG_PAIR_ATTRS;
    }
  }

  /** The acquisition dates are not among the `img_pair_info` attributes
      read one by one. */
  lemma AcquisitionNotPairInfo()
    ensures ACQUISITION_DATE_IMG1 !in IMG_PAIR_ATTRS && ACQUISITION_DATE_IMG2 !in IMG_PAIR_ATTRS
  {
  }

  /** The per-record variables are judged by their data alone. */
  lemma RecordColumnsData(vars: Vars, after: Vars, b: Batch)
    requires Ready(b) && RecordColumns(vars, b)
    requires vars.Keys <= after.Keys && forall k :: k in vars ==> after[k].data == vars[k].data
    ensures RecordColumns(after, b)
  {
    forall i | 0 <= i < |IMG_PAIR_ATTRS| && IMG_PAIR_ATTRS[i] != AUTORIFT_SOFTWARE_VERSION
      ensures IMG_PAIR_ATTRS[i] in after && PairInfoColumnOf(after[IMG_PAIR_ATTRS[i]], b, IMG_PAIR_ATTRS[i])
    {
      var x := IMG_PAIR_ATTRS[i];
      assert after[x].data == vars[x].data;
    }
    assert PairInfoFilled(after, b);
  }

  /** The per-record variables of the cube handed to the store. */
  lemma AssembleColumns(b: Batch, isFirst: bool)
    requires Ready(b)
    ensures Assemble(b, isFirst).Success? ==> RecordColumns(Assemble(b, isFirst).value.vars, b)
  {
    if Assemble(b, isFirst).Success? {
      var g := GriddedVars(b, isFirst).value;
      var c := Combined(b, isFirst).value;
      assert c == RecordsAndAttrs(g, b).value;
      AssembleMissingValue(b, isFirst);
      RecordColumnsData(c.vars, Assemble(b, isFirst).value.vars, b);
    }
  }
}
