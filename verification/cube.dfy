/** The `ITSCube` object: the accumulator of accepted layers with its three
    skip logs, the duplicate-granule filter, the step-by-step assembly of a
    batch of layers into cube variables, and the two drivers that read the
    granules and flush batches of layers to the output store. */
module DataCube {
  import opened Wrappers
  import opened Errors
  import opened Granules
  import opened Assembly
  import opened Preprocess
  import opened Batching
  import opened Dedup
  import opened Filenames
  import opened Combine
  import opened Layers
  import opened Reading

  /** One write to the output store: how it reached the store, the records
      it holds (their URLs and middle dates) and the assembled variables. */
  datatype Write = Write(mode: WriteMode, urls: seq<string>, dates: seq<Option<int>>, cube: Cube)

  /** The output store, seen as the writes it received in order. */
  class ZarrStore {
    var writes: seq<Write>

    constructor()
      ensures writes == []
    {
      writes := [];
    }
  }

  /** `self.layers`: the dataset of one batch, filled variable by variable
      in place and handed to the store. */
  class CubeLayers {
    var vars: Vars
    var attrs: Attrs

    constructor(vars: Vars, attrs: Attrs)
      ensures this.vars == vars && this.attrs == attrs
    {
      this.vars := vars;
      this.attrs := attrs;
    }

    /** The loop of `process_v_attributes` over the error kinds, given the
        error variable each kind yields (or the exception reading it
        raises): each adds its error variable and strips the component of
        the attributes it replaces. It returns the names of the error
        variables. */
    method AddErrorVariables(varName: string, cols: seq<Result<Column, Error>>) returns (r: Result<seq<string>, Error>)
      requires varName in vars && |cols| == |ERROR_PREFIXES|
      modifies this
      ensures attrs == old(attrs)
      ensures r.Success? <==> ErrorFold(old(vars), varName, cols, |ERROR_PREFIXES|).Success?
      ensures r.Failure? ==> r.error == ErrorFold(old(vars), varName, cols, |ERROR_PREFIXES|).error
      ensures r.Success? ==> vars == ErrorFold(old(vars), varName, cols, |ERROR_PREFIXES|).value && r.value == ErrorNames(varName)
    {
      var names: seq<string> := [];
      for i := 0 to |ERROR_PREFIXES|
        invariant attrs == old(attrs)
        invariant ErrorFold(old(vars), varName, cols, i) == Success(vars)
        invariant names == ErrorNames(varName)[..i]
      {
        if cols[i].Failure? {
          ErrorFoldFails(old(vars), varName, cols, i + 1, |ERROR_PREFIXES|);
          return Failure(cols[i].error);
        }
        var name := AddErrorVariable(varName, ERROR_PREFIXES[i], cols[i].value);
        PrefixSnoc(ErrorNames(varName), i);
        names := names + [name];
      }
      return Success(names);
    }

    /** One turn of the error loop: the error variable joins the cube and
        the attributes it replaces leave the component. */
    method AddErrorVariable(varName: string, prefix: string, col: Column) returns (name: string)
      requires varName in vars
      modifies this
      ensures attrs == old(attrs) && name == Derived(varName, prefix)
      ensures vars == ErrorStep(old(vars), varName, prefix, col)
    {
      name := Derived(varName, prefix);
      if varName in STABLE_RMSE_VARS {
        vars := DropAttrs(vars, varName, {STABLE_RMSE});
      }
      vars := vars[name := col];
      vars := DropAttrs(vars, varName, {name, Derived(name, DESCRIPTION_ATTR)});
    }

    /** The `stable_count*` part of `process_v_attributes`, given for each
        name whether the first record's component carries the attribute and
        its values on all records: a variable the cube lacks is created when
        the first record carries it, and the attribute leaves the
        component. */
    method AddCountVariables(varName: string, present: seq<bool>, values: seq<Result<seq<AttrValue>, Error>>)
      returns (r: Outcome<Error>)
      requires varName in vars && |present| == |values| == |COUNT_NAMES|
      modifies this
      ensures attrs == old(attrs)
      ensures r.Pass? <==> CountFold(old(vars), varName, COUNT_NAMES, present, values, |COUNT_NAMES|).Success?
      ensures r.Fail? ==> r.error == CountFold(old(vars), varName, COUNT_NAMES, present, values, |COUNT_NAMES|).error
      ensures r.Pass? ==> vars == CountFold(old(vars), varName, COUNT_NAMES, present, values, |COUNT_NAMES|).value
    {
      for k := 0 to |COUNT_NAMES|
        invariant attrs == old(attrs)
        invariant CountFold(old(vars), varName, COUNT_NAMES, present, values, k) == Success(vars)
      {
        var name := COUNT_NAMES[k];
        if name !in vars && present[k] {
          if values[k].Failure? {
            CountFoldStays(old(vars), varName, COUNT_NAMES, present, values, k + 1, |COUNT_NAMES|);
            return Fail(values[k].error);
          }
          vars := vars[name := RecordColumn(values[k].value, map[])];
        }
        vars := DropAttrs(vars, varName, {name});
      }
      return Pass;
    }

    /** The flag part of `process_v_attributes`: `flag_stable_shift` is
        created once, when the first record holds the component, and its
        attributes leave the component. */
    method AddFlagVariable(varName: string, present: bool, flags: seq<AttrValue>)
      requires varName in vars
      modifies this
      ensures attrs == old(attrs)
      ensures vars == FlagStep(old(vars), varName, present, flags)
    {
      if FLAG_STABLE_SHIFT !in vars && present {
        vars := vars[FLAG_STABLE_SHIFT := RecordColumn(flags, map[])];
      }
      vars := DropAttrs(vars, varName, FLAG_ATTRS);
    }

    /** The loop over the shift variables, given their columns: each is
        (re)created and its attribute leaves the component. It returns
        their names. */
    method AddShiftVariables(varName: string, cols: seq<Column>) returns (names: seq<string>)
      requires varName in vars && |cols| == |SHIFT_SUFFIXES|
      modifies this
      ensures attrs == old(attrs)
      ensures vars == ShiftFold(old(vars), varName, SHIFT_SUFFIXES, cols, |SHIFT_SUFFIXES|)
      ensures names == ShiftNames(varName)
    {
      names := [];
      for k := 0 to |SHIFT_SUFFIXES|
        invariant attrs == old(attrs)
        invariant vars == ShiftFold(old(vars), varName, SHIFT_SUFFIXES, cols, k)
        invariant names == ShiftNames(varName)[..k]
      {
        var name := Derived(varName, SHIFT_SUFFIXES[k]);
        PrefixSnoc(ShiftNames(varName), k);
        vars := vars[name := cols[k]];
        vars := DropAttrs(vars, varName, {SHIFT_SUFFIXES[k]});
        names := names + [name];
      }
    }

    /** A loop that adds one variable per name, each read by `read` (the
        per-record list of one attribute); the first name that cannot be
        read raises. */
    method AddRecordVariables(names: seq<string>, read: string --> Result<Column, Error>) returns (r: Outcome<Error>)
      requires forall name :: read.requires(name)
      modifies this
      ensures attrs == old(attrs)
      ensures r.Pass? <==> AttrFold(old(vars), names, read, |names|).Success?
      ensures r.Fail? ==> r.error == AttrFold(old(vars), names, read, |names|).error
      ensures r.Pass? ==> vars == AttrFold(old(vars), names, read, |names|).value
    {
      for i := 0 to |names|
        invariant attrs == old(attrs)
        invariant AttrFold(old(vars), names, read, i) == Success(vars)
      {
        var c := read(names[i]);
        if c.Failure? {
          AttrFoldStays(old(vars), names, read, i + 1, |names|);
          return Fail(c.error);
        }
        vars := vars[names[i] := c.value];
      }
      return Pass;
    }

    /** The first write's loop over `new_v_vars`: each variable without a
        `missing_value` gets the fill value. */
    method MarkMissingValues(names: seq<string>)
      requires forall x :: x in names ==> x in vars
      modifies this
      ensures attrs == old(attrs)
      ensures vars == MarkMissing(old(vars), names)
    {
      for i := 0 to |names|
        invariant attrs == old(attrs)
        invariant vars.Keys == old(vars).Keys
        invariant vars == MarkMissing(old(vars), names[..i])
      {
        assert names[..i + 1][..i] == names[..i];
        var name := names[i];
        if MISSING_VALUE_ATTR !in vars[name].attrs {
          vars := vars[name := vars[name].(attrs := vars[name].attrs[MISSING_VALUE_ATTR := MISSING_VALUE])];
        }
      }
      assert names[..|names|] == names;
    }
  }

  // ---------------------------------------------------------------------------
  // the inner loops of the duplicate filter

  /** Whether a kept URL of the group has processing dates `q`; the scan stops
      at the first one. The URLs of a kept group were tokenized when they
      joined it, so re-tokenizing them succeeds. */
  method FindEqual(group: seq<string>, q: ProcPair) returns (r: bool)
    requires Entries(group).Success?
    ensures r == HasProc(Entries(group).value, q)
  {
    ghost var es := Entries(group).value;
    var j := 0;
    while j < |group|
      invariant 0 <= j <= |group| == |es|
      invariant !HasProc(es[..j], q)
    {
      EntriesAt(group, j);
      var g := EntryOf(group[j]).value;
      HasProcSnoc(es, j, q);
      if g.proc == q {
        HasProcAt(es, j);
        return true;
      }
      j := j + 1;
    }
    Whole(es);
    return false;
  }

  /** The kept URLs of the group that a newcomer with processing dates `q`
      replaces: its first date is strictly newer, or neither date is older. */
  method CollectReplaced(group: seq<string>, q: ProcPair) returns (remove: seq<string>)
    requires Entries(group).Success?
    ensures remove == Replaced(Entries(group).value, q)
  {
    ghost var es := Entries(group).value;
    remove := [];
    var j := 0;
    while j < |group|
      invariant 0 <= j <= |group| == |es|
      invariant remove == Replaced(es[..j], q)
    {
      ReplacedStep(group, es, j, q, remove);
      var g := EntryOf(group[j]).value;
      if Replaces(q, g.proc) {
        remove := remove + [group[j]];
      }
      j := j + 1;
    }
    Whole(es);
  }

  /** One turn of the filter loop: the granule joins the group of its
      pair, replaces the older granules of its pair, or is logged as a
      duplicate. */
  method FilterGranule(ghost done: seq<string>, ghost seen: seq<Granule>, g: Granule,
                       keys: seq<PairKey>, keep: map<PairKey, seq<string>>, skipped: seq<string>)
    returns (keys': seq<PairKey>, keep': map<PairKey, seq<string>>, skipped': seq<string>)
    requires Entries(done) == Success(seen) && Tallied(done, seen, keys, keep, skipped)
    ensures Tallied(done + [g.url], seen + [g], keys', keep', skipped')
  {
    var u := g.url;
    keys', keep', skipped' := keys, keep, skipped;
    if g.key in keep {
      assert Entries(keep[g.key]) == Success(Kept(seen, g.key)) by {
        EntriesMembers(done, seen);
        GroupEntries(seen, g.key, keep[g.key]);
      }
      var same := FindEqual(keep[g.key], g.proc);
      if same {
        StepJoin(done, u, seen, g, keys, keep, skipped);
        keep' := keep[g.key := keep[g.key] + [u]];
      } else {
        var remove := CollectReplaced(keep[g.key], g.proc);
        if |remove| > 0 {
          StepReplace(done, u, seen, g, keys, keep, skipped, remove);
          skipped' := skipped + remove;
          keep' := keep[g.key := Without(keep[g.key], remove) + [u]];
        } else {
          StepDrop(done, u, seen, g, keys, keep, skipped);
          skipped' := skipped + [u];
        }
      }
    } else {
      StepNew(done, u, seen, g, keys, keep, skipped);
      keys' := keys + [g.key];
      keep' := keep[g.key := [u]];
    }
  }

  /** The kept lists concatenated in the dictionary's insertion order. */
  method ConcatGroups(keys: seq<PairKey>, keep: map<PairKey, seq<string>>) returns (granules: seq<string>)
    requires forall k :: k in keys ==> k in keep
    ensures granules == Flat(keys, keep)
  {
    granules := [];
    var j := 0;
    while j < |keys|
      invariant 0 <= j <= |keys|
      invariant granules == Flat(keys[..j], keep)
    {
      FlatPrefix(keys, j, keep);
      granules := granules + keep[keys[j]];
      j := j + 1;
    }
    Whole(keys);
  }

  /** Python's `s[:n]`, where a negative `n` counts from the end. */
  function PrefixOf(s: seq<string>, n: int): (r: seq<string>)
    ensures r <= s
    ensures n >= 0 ==> |r| == (if n <= |s| then n else |s|)
    ensures n < 0 ==> |r| == (if |s| + n >= 0 then |s| + n else 0)
  {
    if n >= 0 then s[..if n <= |s| then n else |s|]
    else s[..if |s| + n >= 0 then |s| + n else 0]
  }

  /** `found_urls[:num_granules]` when `num_granules` is given and not
      zero; the whole list otherwise. */
  function Truncated(found: seq<string>, numGranules: Option<int>): (r: seq<string>)
    ensures numGranules.Some? && numGranules.value > 0 ==>
              |r| == (if numGranules.value <= |found| then numGranules.value else |found|)
    ensures numGranules.Some? && numGranules.value < 0 ==>
              |r| == (if |found| + numGranules.value >= 0 then |found| + numGranules.value else 0)
    ensures (numGranules.None? || numGranules.value == 0) ==> r == found
    ensures r <= found
  {
    if numGranules.Some? && numGranules.value != 0 then PrefixOf(found, numGranules.value) else found
  }

  /** `request_granules` given the URLs the search API answered with: an
      empty answer as it is, otherwise the examined URLs without their
      superseded duplicates. */
  function Requested(apiUrls: seq<string>, numGranules: Option<int>): (r: Result<seq<string>, Error>)
  {
    if apiUrls == [] then Success([])
    else
      var gs :- Entries(Truncated(apiUrls, numGranules));
      Success(Urls(Expected(gs)))
  }

  /** The URLs of each write, in order. */
  function WrittenUrls(ws: seq<Write>): seq<seq<string>>
  {
    seq(|ws|, k requires 0 <= k < |ws| => ws[k].urls)
  }

  /** The mode of each write, in order. */
  function WrittenModes(ws: seq<Write>): seq<WriteMode>
  {
    seq(|ws|, k requires 0 <= k < |ws| => ws[k].mode)
  }

  /** A store that received one more write after `w0 + ws`. */
  lemma Appended(w0: seq<Write>, ws: seq<Write>, t: seq<Write>)
    requires |t| == |w0| + |ws| + 1 && t[..|w0| + |ws|] == w0 + ws
    ensures t == w0 + (ws + [t[|w0| + |ws|]])
  {
    assert t == t[..|w0| + |ws|] + [t[|w0| + |ws|]];
  }

  lemma WrittenSnoc(ws: seq<Write>, w: Write)
    ensures WrittenUrls(ws + [w]) == WrittenUrls(ws) + [w.urls]
    ensures WrittenModes(ws + [w]) == WrittenModes(ws) + [w.mode]
    ensures Flatten(WrittenUrls(ws + [w])) == Flatten(WrittenUrls(ws)) + w.urls
  {
    assert WrittenUrls(ws + [w]) == WrittenUrls(ws) + [w.urls];
    FlattenAppend(WrittenUrls(ws), [w.urls]);
    assert [w.urls][1..] == [];
  }

  /** The writes made so far are full slices of NUM_GRANULES_TO_WRITE
      URLs, in store order; together with the pending URLs, which do not
      fill a slice, they are the URLs kept so far. */
  ghost predicate Batched(ws: seq<Write>, pending: seq<string>, kept: seq<string>)
  {
    && Flatten(WrittenUrls(ws)) + pending == kept
    && (forall k :: 0 <= k < |ws| ==> |ws[k].urls| == NUM_GRANULES_TO_WRITE)
    && |pending| < NUM_GRANULES_TO_WRITE
    && StoreModes(WrittenModes(ws))
  }

  /** What `create_parallel` has written after the slices whose read
      results are `rss`: one write per slice that produced layers, holding
      those layers' URLs, in the mode the loop gave that slice. */
  ghost predicate SlicesWritten(ws: seq<Write>, rss: seq<seq<LayerResult>>)
  {
    WrittenModes(ws) == ParallelModes(KeptCounts(rss), true) && WrittenUrls(ws) == NonEmpty(KeptLists(rss))
  }

  class ITSCube {
    /** The target projection (EPSG code as text), the bounding box and the
        cube's grid, fixed at construction. */
    const projection: string
    const box: Box
    const gridX: seq<int>
    const gridY: seq<int>

    /** The accepted layers not yet written: their data, middle dates and URLs. */
    var ds: seq<Dataset>
    var dates: seq<Option<int>>
    var urls: seq<string>

    /** Number of URLs handed to the duplicate filter. */
    var numUrlsFromApi: Option<nat>

    /** Granules set aside: per foreign projection, without data in the box,
        and superseded by a newer processing of the same pair. */
    var skippedProj: map<int, seq<string>>
    var skippedEmpty: seq<string>
    var skippedDouble: seq<string>

    /** The cube being assembled from the accumulated layers, if any. */
    var layers: CubeLayers?

    /** The three accumulator lists grow and shrink together. */
    predicate Valid()
      reads this
    {
      |ds| == |dates| == |urls|
    }

    constructor(projection: string, box: Box, gridX: seq<int>, gridY: seq<int>)
      ensures this.projection == projection && this.box == box && this.gridX == gridX && this.gridY == gridY
      ensures ds == [] && dates == [] && urls == [] && numUrlsFromApi == None
      ensures skippedProj == map[] && skippedEmpty == [] && skippedDouble == [] && layers == null
      ensures Valid()
    {
      this.projection := projection;
      this.box := box;
      this.gridX := gridX;
      this.gridY := gridY;
      ds := [];
      dates := [];
      urls := [];
      numUrlsFromApi := None;
      skippedProj := map[];
      skippedEmpty := [];
      skippedDouble := [];
      layers := null;
    }

    /** `clear_vars`: forget the accumulated layers and the assembled cube. */
    method ClearVars()
      modifies this
      ensures ds == [] && dates == [] && urls == [] && layers == null && Valid()
      ensures numUrlsFromApi == old(numUrlsFromApi) && skippedProj == old(skippedProj)
      ensures skippedEmpty == old(skippedEmpty) && skippedDouble == old(skippedDouble)
    {
      ds := [];
      layers := null;
      dates := [];
      urls := [];
    }

    /** `clear`: back to the state of a freshly built object. */
    method Clear()
      modifies this
      ensures ds == [] && dates == [] && urls == [] && layers == null && Valid()
      ensures numUrlsFromApi == None && skippedProj == map[] && skippedEmpty == [] && skippedDouble == []
    {
      ClearVars();
      numUrlsFromApi := None;
      skippedProj := map[];
      skippedEmpty := [];
      skippedDouble := [];
    }

    /** `add_layer`: a result with data joins the accumulator; otherwise its
        URL goes to the empty log or to the log of its projection. */
    method AddLayer(res: LayerResult)
      requires Valid()
      modifies this
      ensures Valid()
      ensures res.data.Some? ==>
                ds == old(ds) + [res.data.value] && dates == old(dates) + [res.midDate] && urls == old(urls) + [res.url]
                && skippedEmpty == old(skippedEmpty) && skippedProj == old(skippedProj)
      ensures res.data.None? ==> ds == old(ds) && dates == old(dates) && urls == old(urls)
      ensures res.data.None? && res.isEmpty ==>
                skippedEmpty == old(skippedEmpty) + [res.url] && skippedProj == old(skippedProj)
      ensures res.data.None? && !res.isEmpty ==>
                skippedEmpty == old(skippedEmpty)
                && skippedProj == old(skippedProj)[res.projection :=
                     (if res.projection in old(skippedProj) then old(skippedProj)[res.projection] else []) + [res.url]]
      ensures numUrlsFromApi == old(numUrlsFromApi) && skippedDouble == old(skippedDouble) && layers == old(layers)
    {
      if res.data.Some? {
        dates := dates + [res.midDate];
        ds := ds + [res.data.value];
        urls := urls + [res.url];
      } else if res.isEmpty {
        skippedEmpty := skippedEmpty + [res.url];
      } else {
        var logged := if res.projection in skippedProj then skippedProj[res.projection] else [];
        skippedProj := skippedProj[res.projection := logged + [res.url]];
      }
    }

    /** `skip_duplicate_granules`: keep, per pair key, the granules with the
        newest processing dates, groups in first-seen order, and log every
        other URL as a duplicate. */
    method SkipDuplicateGranules(found: seq<string>) returns (r: Result<seq<string>, Error>)
      modifies this
      ensures numUrlsFromApi == Some(|found|)
      ensures r.Success? <==> Entries(found).Success?
      ensures r.Failure? ==> r.error == Entries(found).error
      ensures r.Success? ==> r.value == Urls(Expected(Entries(found).value))
      ensures r.Success? ==> multiset(r.value) + multiset(skippedDouble) == multiset(found)
      ensures ds == old(ds) && dates == old(dates) && urls == old(urls) && layers == old(layers)
      ensures skippedProj == old(skippedProj) && skippedEmpty == old(skippedEmpty)
    {
      numUrlsFromApi := Some(|found|);
      var keep: map<PairKey, seq<string>> := map[];
      var keys: seq<PairKey> := [];
      skippedDouble := [];
      ghost var seen: seq<Granule> := [];
      TalliedStart();
      var i := 0;
      while i < |found|
        invariant 0 <= i <= |found|
        invariant numUrlsFromApi == Some(|found|)
        invariant ds == old(ds) && dates == old(dates) && urls == old(urls) && layers == old(layers)
        invariant skippedProj == old(skippedProj) && skippedEmpty == old(skippedEmpty)
        invariant Entries(found[..i]) == Success(seen)
        invariant Tallied(found[..i], seen, keys, keep, skippedDouble)
      {
        var u := found[i];
        var e := EntryOf(u);
        if e.Failure? {
          ParseFail(found, i, seen);
          return Failure(e.error);
        }
        var g := e.value;
        ParseOk(found, i, seen, g);
        keys, keep, skippedDouble := FilterGranule(found[..i], seen, g, keys, keep, skippedDouble);
        seen := seen + [g];
        i := i + 1;
      }
      assert found[..i] == found by { Whole(found); }
      var granules := ConcatGroups(keys, keep);
      AgreesExpected(seen, keys, keep);
      return Success(granules);
    }

    // -------------------------------------------------------------------------
    // filling the cube of one batch

    /** The batch `combine_layers` works on. */
    function CurrentBatch(): Batch
      reads this
    {
      Batch(ds, urls, projection, skippedEmpty, skippedDouble, gridX, gridY)
    }

    /** `set_grid_mapping_attr`: the variable gets the batch's grid mapping
        unless it already names one. */
    method SetGridMappingAttr(name: string, gm: AttrValue)
      requires layers != null && name in layers.vars
      modifies layers
      ensures layers.vars == Tag(old(layers.vars), name, gm) && layers.attrs == old(layers.attrs)
    {
      if GRID_MAPPING in layers.vars[name].attrs {
        return;
      }
      var c := layers.vars[name];
      layers.vars := layers.vars[name := c.(attrs := c.attrs[GRID_MAPPING := gm])];
    }

    /** `process_v_attributes`: the legacy attributes leave the component,
        then the error variables, the `stable_count*` variables, the flag
        and the shift variables are added, in place. It returns the names
        of the variables it derived. */
    method ProcessVAttributes(varName: string) returns (r: Result<seq<string>, Error>)
      requires Valid() && |ds| > 0 && layers != null && varName in layers.vars
      modifies layers
      ensures layers.attrs == old(layers.attrs)
      ensures r.Success? <==> VAttributes(old(layers.vars), ds, urls, varName).Success?
      ensures r.Failure? ==> r.error == VAttributes(old(layers.vars), ds, urls, varName).error
      ensures r.Success? ==> layers.vars == VAttributes(old(layers.vars), ds, urls, varName).value
      ensures r.Success? ==> r.value == DerivedNames(varName)
    {
      var inp := ComponentData(ds, urls, varName);
      layers.vars := DropAttrs(layers.vars, varName, LEGACY_ATTRS);
      var errors := layers.AddErrorVariables(varName, inp.errors);
      if errors.Failure? {
        return Failure(errors.error);
      }
      var counts := layers.AddCountVariables(varName, inp.countPresent, inp.counts);
      if counts.Fail? {
        return Failure(counts.error);
      }
      layers.AddFlagVariable(varName, inp.flagPresent, inp.flag);
      var shifts := layers.AddShiftVariables(varName, inp.shifts);
      return Success(errors.value + shifts);
    }

    /** `v_error`, `vp` and `vp_error`: gathered from the records, with the
        all-missing placeholder for records that lack the variable, then
        tagged with the grid mapping. */
    method AddPlaceholderVariable(name: string, gm: AttrValue)
      requires Valid() && |ds| > 0 && layers != null && Owned(name)
      modifies layers
      ensures layers.attrs == old(layers.attrs)
      ensures layers.vars == PlaceholderStage(old(layers.vars), CurrentBatch(), name, gm)
    {
      layers.vars := layers.vars[name := ConcatOrPlaceholder(ds, name, gridX, gridY)];
      SetGridMappingAttr(name, gm);
    }

    /** `vx` and `vy`: gathered from every record, their attributes
        processed, then tagged. It returns the component and its derived
        names. */
    method AddComponent(name: string, gm: AttrValue) returns (r: Result<seq<string>, Error>)
      requires Valid() && |ds| > 0 && layers != null && name in COMPONENTS
      modifies layers
      ensures layers.attrs == old(layers.attrs)
      ensures r.Success? <==> ComponentStage(old(layers.vars), CurrentBatch(), name, gm).Success?
      ensures r.Failure? ==> r.error == ComponentStage(old(layers.vars), CurrentBatch(), name, gm).error
      ensures r.Success? ==> layers.vars == ComponentStage(old(layers.vars), CurrentBatch(), name, gm).value
      ensures r.Success? ==> r.value == CompNames(name)
    {
      var c := Concat(ds, name);
      if c.Failure? {
        return Failure(c.error);
      }
      layers.vars := layers.vars[name := c.value];
      VAttributesStep(layers.vars, CurrentBatch(), name);
      var derived := ProcessVAttributes(name);
      if derived.Failure? {
        return Failure(derived.error);
      }
      SetGridMappingAttr(name, gm);
      return Success([name] + derived.value);
    }

    /** `va`: gathered with placeholders, tagged, then its attributes
        processed. */
    method AddAzimuth(gm: AttrValue) returns (r: Result<seq<string>, Error>)
      requires Valid() && |ds| > 0 && layers != null
      modifies layers
      ensures layers.attrs == old(layers.attrs)
      ensures r.Success? <==> AzimuthStage(old(layers.vars), CurrentBatch(), gm).Success?
      ensures r.Failure? ==> r.error == AzimuthStage(old(layers.vars), CurrentBatch(), gm).error
      ensures r.Success? ==> layers.vars == AzimuthStage(old(layers.vars), CurrentBatch(), gm).value
      ensures r.Success? ==> r.value == CompNames(VA)
    {
      layers.vars := layers.vars[VA := ConcatOrPlaceholder(ds, VA, gridX, gridY)];
      SetGridMappingAttr(VA, gm);
      var derived := ProcessVAttributes(VA);
      if derived.Failure? {
        return Failure(derived.error);
      }
      return Success([VA] + derived.value);
    }

    /** `vr`, `vxp` and `vyp`: gathered with placeholders, their attributes
        processed, then tagged. */
    method AddRadarComponent(name: string, gm: AttrValue) returns (r: Result<seq<string>, Error>)
      requires Valid() && |ds| > 0 && layers != null && name in COMPONENTS
      modifies layers
      ensures layers.attrs == old(layers.attrs)
      ensures r.Success? <==> RadarStage(old(layers.vars), CurrentBatch(), name, gm).Success?
      ensures r.Failure? ==> r.error == RadarStage(old(layers.vars), CurrentBatch(), name, gm).error
      ensures r.Success? ==> layers.vars == RadarStage(old(layers.vars), CurrentBatch(), name, gm).value
      ensures r.Success? ==> r.value == CompNames(name)
    {
      layers.vars := layers.vars[name := ConcatOrPlaceholder(ds, name, gridX, gridY)];
      VAttributesStep(layers.vars, CurrentBatch(), name);
      var derived := ProcessVAttributes(name);
      if derived.Failure? {
        return Failure(derived.error);
      }
      SetGridMappingAttr(name, gm);
      return Success([name] + derived.value);
    }

    /** `chip_size_height`, `chip_size_width` and `interp_mask`, each
        gathered from every record and tagged. */
    method AddChipSizes(gm: AttrValue) returns (r: Outcome<Error>)
      requires Valid() && |ds| > 0 && layers != null
      modifies layers
      ensures layers.attrs == old(layers.attrs)
      ensures r.Pass? <==> ChipStage(old(layers.vars), CurrentBatch(), gm).Success?
      ensures r.Fail? ==> r.error == ChipStage(old(layers.vars), CurrentBatch(), gm).error
      ensures r.Pass? ==> layers.vars == ChipStage(old(layers.vars), CurrentBatch(), gm).value
    {
      var h := ChipHeightColumn(ds);
      if h.Failure? {
        return Fail(h.error);
      }
      layers.vars := layers.vars[CHIP_SIZE_HEIGHT := h.value];
      SetGridMappingAttr(CHIP_SIZE_HEIGHT, gm);
      var w := Concat(ds, CHIP_SIZE_WIDTH);
      if w.Failure? {
        return Fail(w.error);
      }
      layers.vars := layers.vars[CHIP_SIZE_WIDTH := w.value];
      SetGridMappingAttr(CHIP_SIZE_WIDTH, gm);
      var m := Concat(ds, INTERP_MASK);
      if m.Failure? {
        return Fail(m.error);
      }
      layers.vars := layers.vars[INTERP_MASK := m.value];
      SetGridMappingAttr(INTERP_MASK, gm);
      return Pass;
    }

    /** `v_error`, then `vx` and `vy` with their derived variables. */
    method AddComponents(gm: AttrValue) returns (r: Result<seq<string>, Error>)
      requires Valid() && |ds| > 0 && layers != null
      modifies layers
      ensures layers.attrs == old(layers.attrs)
      ensures r.Success? <==> ComponentStages(old(layers.vars), CurrentBatch(), gm).Success?
      ensures r.Failure? ==> r.error == ComponentStages(old(layers.vars), CurrentBatch(), gm).error
      ensures r.Success? ==> layers.vars == ComponentStages(old(layers.vars), CurrentBatch(), gm).value
      ensures r.Success? ==> r.value == COMPONENT_NAMES
    {
      AddPlaceholderVariable(V_ERROR, gm);
      var x := AddComponent(VX, gm);
      if x.Failure? {
        return Failure(x.error);
      }
      var y := AddComponent(VY, gm);
      if y.Failure? {
        return Failure(y.error);
      }
      return Success([V_ERROR] + x.value + y.value);
    }

    /** `va` and `vr` with their derived variables. */
    method AddAlongRadarComponents(gm: AttrValue) returns (r: Result<seq<string>, Error>)
      requires Valid() && |ds| > 0 && layers != null
      modifies layers
      ensures layers.attrs == old(layers.attrs)
      ensures r.Success? <==> AlongRadarStages(old(layers.vars), CurrentBatch(), gm).Success?
      ensures r.Failure? ==> r.error == AlongRadarStages(old(layers.vars), CurrentBatch(), gm).error
      ensures r.Success? ==> layers.vars == AlongRadarStages(old(layers.vars), CurrentBatch(), gm).value
      ensures r.Success? ==> r.value == CompNames(VA) + CompNames(VR)
    {
      var a := AddAzimuth(gm);
      if a.Failure? {
        return Failure(a.error);
      }
      var s := AddRadarComponent(VR, gm);
      if s.Failure? {
        return Failure(s.error);
      }
      return Success(a.value + s.value);
    }

    /** `vxp` and `vyp` with their derived variables. */
    method AddProjectedComponents(gm: AttrValue) returns (r: Result<seq<string>, Error>)
      requires Valid() && |ds| > 0 && layers != null
      modifies layers
      ensures layers.attrs == old(layers.attrs)
      ensures r.Success? <==> ProjectedStages(old(layers.vars), CurrentBatch(), gm).Success?
      ensures r.Failure? ==> r.error == ProjectedStages(old(layers.vars), CurrentBatch(), gm).error
      ensures r.Success? ==> layers.vars == ProjectedStages(old(layers.vars), CurrentBatch(), gm).value
      ensures r.Success? ==> r.value == CompNames(VXP) + CompNames(VYP)
    {
      var x := AddRadarComponent(VXP, gm);
      if x.Failure? {
        return Failure(x.error);
      }
      var y := AddRadarComponent(VYP, gm);
      if y.Failure? {
        return Failure(y.error);
      }
      return Success(x.value + y.value);
    }

    /** `va`, `vr`, `vxp` and `vyp` with their derived variables. */
    method AddRadarComponents(gm: AttrValue) returns (r: Result<seq<string>, Error>)
      requires Valid() && |ds| > 0 && layers != null
      modifies layers
      ensures layers.attrs == old(layers.attrs)
      ensures r.Success? <==> RadarStages(old(layers.vars), CurrentBatch(), gm).Success?
      ensures r.Failure? ==> r.error == RadarStages(old(layers.vars), CurrentBatch(), gm).error
      ensures r.Success? ==> layers.vars == RadarStages(old(layers.vars), CurrentBatch(), gm).value
      ensures r.Success? ==> r.value == RADAR_NAMES
    {
      var a := AddAlongRadarComponents(gm);
      if a.Failure? {
        return Failure(a.error);
      }
      var p := AddProjectedComponents(gm);
      if p.Failure? {
        return Failure(p.error);
      }
      RadarNamesHalves();
      return Success(a.value + p.value);
    }

    /** The chip sizes and the mask, then `vp` and `vp_error`. */
    method AddSpeedVariables(gm: AttrValue) returns (r: Outcome<Error>)
      requires Valid() && |ds| > 0 && layers != null
      modifies layers
      ensures layers.attrs == old(layers.attrs)
      ensures r.Pass? <==> SpeedStages(old(layers.vars), CurrentBatch(), gm).Success?
      ensures r.Fail? ==> r.error == SpeedStages(old(layers.vars), CurrentBatch(), gm).error
      ensures r.Pass? ==> layers.vars == SpeedStages(old(layers.vars), CurrentBatch(), gm).value
    {
      r := AddChipSizes(gm);
      if r.Fail? {
        return;
      }
      AddPlaceholderVariable(VP, gm);
      AddPlaceholderVariable(VP_ERROR, gm);
    }

    /** Every gridded variable after `v`, tagged with the grid mapping `gm`.
        It returns their names in the order they were written. */
    method AddGriddedVariables(gm: AttrValue) returns (r: Result<seq<string>, Error>)
      requires Valid() && |ds| > 0 && layers != null
      modifies layers
      ensures layers.attrs == old(layers.attrs)
      ensures r.Success? <==> GriddedStages(old(layers.vars), CurrentBatch(), gm).Success?
      ensures r.Failure? ==> r.error == GriddedStages(old(layers.vars), CurrentBatch(), gm).error
      ensures r.Success? ==> layers.vars == GriddedStages(old(layers.vars), CurrentBatch(), gm).value
      ensures r.Success? ==> r.value == GRIDDED_NAMES
    {
      var c := AddComponents(gm);
      if c.Failure? {
        return Failure(c.error);
      }
      var a := AddRadarComponents(gm);
      if a.Failure? {
        return Failure(a.error);
      }
      var speeds := AddSpeedVariables(gm);
      if speeds.Fail? {
        return Failure(speeds.error);
      }
      return Success(c.value + a.value + [VP, VP_ERROR]);
    }

    /** On the first write, the scalar `mapping` variable with the
        attributes of the first record's projection variable. */
    method AddMapping(isFirst: bool) returns (r: Outcome<Error>)
      requires Valid() && |ds| > 0 && layers != null
      modifies layers
      ensures layers.attrs == old(layers.attrs)
      ensures r.Pass? <==> WithMapping(old(layers.vars), CurrentBatch(), isFirst).Success?
      ensures r.Fail? ==> r.error == WithMapping(old(layers.vars), CurrentBatch(), isFirst).error
      ensures r.Pass? ==> layers.vars == WithMapping(old(layers.vars), CurrentBatch(), isFirst).value
    {
      if isFirst {
        var c := MappingColumn(ds[0], urls[0]);
        if c.Failure? {
          return Fail(c.error);
        }
        layers.vars := layers.vars[MAPPING := c.value];
      }
      return Pass;
    }

    /** `v` from every record, the grid mapping every record agrees on, and
        `map_scale_corrected` moved from `v`'s attributes to a variable of
        its own. It returns the grid mapping. */
    method AddVelocity() returns (r: Result<AttrValue, Error>)
      requires Valid() && |ds| > 0 && layers != null
      modifies layers
      ensures layers.attrs == old(layers.attrs)
      ensures r.Success? <==> Concat(ds, V).Success? && GridMappingValue(ds).Success?
      ensures r.Failure? ==>
                r.error == if Concat(ds, V).Failure? then Concat(ds, V).error else GridMappingValue(ds).error
      ensures r.Success? ==>
                && r.value == GridMappingValue(ds).value
                && layers.vars == ScaleStage(old(layers.vars)[V := Concat(ds, V).value], CurrentBatch())
    {
      var v := Concat(ds, V);
      if v.Failure? {
        return Failure(v.error);
      }
      layers.vars := layers.vars[V := v.value];
      var gm := GridMappingValue(ds);
      if gm.Failure? {
        return Failure(gm.error);
      }
      if HasAttr(ds[0], V, MAP_SCALE_CORRECTED) {
        layers.vars := layers.vars[MAP_SCALE_CORRECTED := ScaleCorrectedColumn(CurrentBatch())];
        layers.vars := DropAttrs(layers.vars, V, {MAP_SCALE_CORRECTED});
      }
      return Success(gm.value);
    }

    /** The cube up to its gridded variables, filled in place from the
        header: the projection variable, `v`, and every gridded variable
        after it. It returns `new_v_vars`. */
    method AddGriddedLayers(isFirst: bool) returns (r: Result<seq<string>, Error>)
      requires Valid() && |ds| > 0 && layers != null && layers.vars == HeaderVars(CurrentBatch())
      modifies layers
      ensures layers.attrs == old(layers.attrs)
      ensures r.Success? <==> GriddedVars(CurrentBatch(), isFirst).Success?
      ensures r.Failure? ==> r.error == GriddedVars(CurrentBatch(), isFirst).error
      ensures r.Success? ==> layers.vars == GriddedVars(CurrentBatch(), isFirst).value && r.value == NEW_V_VARS
    {
      var m := AddMapping(isFirst);
      if m.Fail? {
        return Failure(m.error);
      }
      var gm := AddVelocity();
      if gm.Failure? {
        return Failure(gm.error);
      }
      var names := AddGriddedVariables(gm.value);
      if names.Failure? {
        return Failure(names.error);
      }
      return Success([V] + names.value);
    }

    /** The loop over `img_pair_info`'s attributes, then the software
        version, one value per record. */
    method AddPairInfo() returns (r: Outcome<Error>)
      requires Valid() && |ds| > 0 && layers != null
      modifies layers
      ensures layers.attrs == old(layers.attrs)
      ensures r.Pass? <==> PairInfoVars(old(layers.vars), CurrentBatch()).Success?
      ensures r.Fail? ==> r.error == PairInfoVars(old(layers.vars), CurrentBatch()).error
      ensures r.Pass? ==> layers.vars == PairInfoVars(old(layers.vars), CurrentBatch()).value
    {
      r := layers.AddRecordVariables(IMG_PAIR_ATTRS, PairInfoReader(CurrentBatch()));
      if r.Fail? {
        return;
      }
      var versions := SoftwareVersions(CurrentBatch());
      if versions.Failure? {
        return Fail(versions.error);
      }
      layers.vars := layers.vars[AUTORIFT_SOFTWARE_VERSION := RecordColumn(versions.value, map[])];
    }

    /** The acquisition dates of both images, one value per record. */
    method AddAcquisitionDates() returns (r: Outcome<Error>)
      requires Valid() && |ds| > 0 && layers != null
      modifies layers
      ensures layers.attrs == old(layers.attrs)
      ensures r.Pass? <==> AcquisitionVars(old(layers.vars), CurrentBatch()).Success?
      ensures r.Fail? ==> r.error == AcquisitionVars(old(layers.vars), CurrentBatch()).error
      ensures r.Pass? ==> layers.vars == AcquisitionVars(old(layers.vars), CurrentBatch()).value
    {
      var first := AcquisitionDates(CurrentBatch(), ACQUISITION_IMG1, ACQUISITION_DATE_IMG1);
      if first.Failure? {
        return Fail(first.error);
      }
      layers.vars := layers.vars[ACQUISITION_DATE_IMG1 := RecordColumn(first.value, map[])];
      var second := AcquisitionDates(CurrentBatch(), ACQUISITION_IMG2, ACQUISITION_DATE_IMG2);
      if second.Failure? {
        return Fail(second.error);
      }
      layers.vars := layers.vars[ACQUISITION_DATE_IMG2 := RecordColumn(second.value, map[])];
      return Pass;
    }

    /** The loop over the two time standards: each becomes a cube attribute
        taken from the first record, and one the records lack or disagree
        on raises. */
    method AddTimeStandards() returns (r: Outcome<Error>)
      requires |ds| > 0 && layers != null
      modifies layers
      ensures layers.vars == old(layers.vars)
      ensures r.Pass? <==> TimeStandard(ds, TIME_STANDARD_IMG1).Success? && TimeStandard(ds, TIME_STANDARD_IMG2).Success?
      ensures r.Fail? ==>
                r.error == if TimeStandard(ds, TIME_STANDARD_IMG1).Failure? then TimeStandard(ds, TIME_STANDARD_IMG1).error
                           else TimeStandard(ds, TIME_STANDARD_IMG2).error
      ensures r.Pass? ==>
                layers.attrs == old(layers.attrs)[TIME_STANDARD_IMG1 := TimeStandard(ds, TIME_STANDARD_IMG1).value]
                                                 [TIME_STANDARD_IMG2 := TimeStandard(ds, TIME_STANDARD_IMG2).value]
    {
      TimeStandardsBoth(layers.attrs, ds);
      for k := 0 to |TIME_STANDARDS|
        invariant layers.vars == old(layers.vars)
        invariant TimeStandards(layers.attrs, ds, TIME_STANDARDS[k..]) == TimeStandards(old(layers.attrs), ds, TIME_STANDARDS)
      {
        var name := TIME_STANDARDS[k];
        var ts := TimeStandard(ds, name);
        if ts.Failure? {
          return Fail(ts.error);
        }
        assert TIME_STANDARDS[k..][1..] == TIME_STANDARDS[k + 1..];
        layers.attrs := layers.attrs[name := ts.value];
      }
      return Pass;
    }

    /** The per-record variables and the cube's attributes after the
        gridded variables: `img_pair_info`, the software version, the
        parameter file, the acquisition dates and the time standards. */
    method AddRecordsAndAttrs() returns (r: Outcome<Error>)
      requires Valid() && |ds| > 0 && layers != null && layers.attrs == HeaderAttrs(CurrentBatch())
      modifies layers
      ensures r.Pass? <==> RecordsAndAttrs(old(layers.vars), CurrentBatch()).Success?
      ensures r.Fail? ==> r.error == RecordsAndAttrs(old(layers.vars), CurrentBatch()).error
      ensures r.Pass? ==> Cube(layers.vars, layers.attrs) == RecordsAndAttrs(old(layers.vars), CurrentBatch()).value
    {
      r := AddPairInfo();
      if r.Fail? {
        return;
      }
      var pf := ParameterFile(ds);
      if pf.Failure? {
        return Fail(pf.error);
      }
      layers.attrs := layers.attrs[AUTORIFT_PARAMETER_FILE := pf.value];
      r := AddAcquisitionDates();
      if r.Fail? {
        return;
      }
      r := AddTimeStandards();
    }

    /** The batch's cube assembled in place from its header, up to the
        first write's marking. It returns `new_v_vars`, all of them in the
        cube. */
    method FillCube(isFirst: bool) returns (r: Result<seq<string>, Error>)
      requires Valid() && |ds| > 0 && layers != null
      requires layers.vars == HeaderVars(CurrentBatch()) && layers.attrs == HeaderAttrs(CurrentBatch())
      modifies layers
      ensures r.Success? <==> Combined(CurrentBatch(), isFirst).Success?
      ensures r.Failure? ==> r.error == Combined(CurrentBatch(), isFirst).error
      ensures r.Success? ==>
                && Cube(layers.vars, layers.attrs) == Combined(CurrentBatch(), isFirst).value
                && r.value == NEW_V_VARS && Has(layers.vars, NEW_V_VARS)
    {
      r := AddGriddedLayers(isFirst);
      if r.Failure? {
        return;
      }
      ghost var gridded := layers.vars;
      GriddedVarsShape(CurrentBatch(), isFirst);
      var o := AddRecordsAndAttrs();
      if o.Fail? {
        return Failure(o.error);
      }
      HasGrow(gridded, layers.vars, NEW_V_VARS);
    }

    /** The batch's cube as it is handed to the store: on the first write
        every variable of `new_v_vars` gets its `missing_value`. */
    method AssembleLayers(isFirst: bool) returns (r: Outcome<Error>)
      requires Valid() && |ds| > 0 && layers != null
      requires layers.vars == HeaderVars(CurrentBatch()) && layers.attrs == HeaderAttrs(CurrentBatch())
      modifies layers
      ensures r.Pass? <==> Assemble(CurrentBatch(), isFirst).Success?
      ensures r.Fail? ==> r.error == Assemble(CurrentBatch(), isFirst).error
      ensures r.Pass? ==> Cube(layers.vars, layers.attrs) == Assemble(CurrentBatch(), isFirst).value
    {
      var names := FillCube(isFirst);
      if names.Failure? {
        return Fail(names.error);
      }
      if isFirst {
        layers.MarkMissingValues(names.value);
      }
      return Pass;
    }

    /** `combine_layers`: an empty accumulator leaves an empty cube and
        writes nothing. Otherwise the batch's cube is assembled in place
        from the header; on the first write every variable of `new_v_vars`
        gets its `missing_value`; the cube creates the store on the first
        write and is appended to it afterwards; and the accumulator is
        cleared. The first exception raised stops it, with nothing
        written. */
    method CombineLayers(store: ZarrStore, isFirst: bool) returns (r: Outcome<Error>)
      requires Valid()
      modifies this, store
      ensures old(|ds|) == 0 ==>
                && r.Pass? && store.writes == old(store.writes)
                && ds == old(ds) && dates == old(dates) && urls == old(urls)
                && layers != null && layers.vars == map[] && layers.attrs == map[]
      ensures old(|ds|) > 0 ==> (r.Pass? <==> Assemble(old(CurrentBatch()), isFirst).Success?)
      ensures old(|ds|) > 0 && r.Fail? ==>
                r.error == Assemble(old(CurrentBatch()), isFirst).error && store.writes == old(store.writes)
      ensures old(|ds|) > 0 && r.Pass? ==>
                && store.writes == old(store.writes) + [Write(if isFirst then CreateStore else AppendRecords, old(urls), old(dates),
                                                              Assemble(old(CurrentBatch()), isFirst).value)]
                && ds == [] && dates == [] && urls == [] && layers == null
      ensures Valid()
      ensures skippedProj == old(skippedProj) && skippedEmpty == old(skippedEmpty) && skippedDouble == old(skippedDouble)
      ensures numUrlsFromApi == old(numUrlsFromApi)
    {
      ghost var b := CurrentBatch();
      layers := new CubeLayers(map[], map[]);
      if |ds| == 0 {
        return Pass;
      }
      layers := new CubeLayers(HeaderVars(CurrentBatch()), HeaderAttrs(CurrentBatch()));
      assert CurrentBatch() == b;
      r := AssembleLayers(isFirst);
      assert CurrentBatch() == b;
      if r.Fail? {
        return;
      }
      var mode := if isFirst then CreateStore else AppendRecords;
      var cube := Cube(layers.vars, layers.attrs);
      assert cube == Assemble(b, isFirst).value;
      store.writes := store.writes + [Write(mode, urls, dates, cube)];
      ClearVars();
    }
  
    // -------------------------------------------------------------------------
    // the drivers

    /** `combine_layers` as the drivers see it: an empty accumulator
        writes nothing; otherwise a successful write holds the accumulated
        URLs and dates, in the mode the driver asks for, and empties the
        accumulator. */
    method Flush(store: ZarrStore, isFirst: bool) returns (r: Outcome<Error>)
      requires Valid()
      modifies this, store
      ensures Valid()
      ensures r.Fail? ==> store.writes == old(store.writes)
      ensures old(|ds|) == 0 ==> r.Pass? && store.writes == old(store.writes) && urls == old(urls) && ds == old(ds)
      ensures old(|ds|) > 0 && r.Pass? ==>
                && |store.writes| == |old(store.writes)| + 1 && store.writes[..|old(store.writes)|] == old(store.writes)
                && store.writes[|old(store.writes)|].urls == old(urls)
                && store.writes[|old(store.writes)|].dates == old(dates)
                && store.writes[|old(store.writes)|].mode == (if isFirst then CreateStore else AppendRecords)
                && ds == [] && dates == [] && urls == []
      ensures skippedProj == old(skippedProj) && skippedEmpty == old(skippedEmpty) && skippedDouble == old(skippedDouble)
      ensures numUrlsFromApi == old(numUrlsFromApi)
    {
      r := CombineLayers(store, isFirst);
    }


    /** `request_granules` once the search API has answered with `apiUrls`:
        an empty answer is returned as it is; otherwise the first
        `num_granules` URLs, when given, go through the duplicate filter. */
    method RequestGranules(apiUrls: seq<string>, numGranules: Option<int>) returns (r: Result<seq<string>, Error>)
      modifies this
      ensures r.Success? <==> Requested(apiUrls, numGranules).Success?
      ensures r.Failure? ==> r.error == Requested(apiUrls, numGranules).error
      ensures r.Success? ==> r.value == Requested(apiUrls, numGranules).value
      ensures apiUrls == [] ==> r.Success? && r.value == [] && numUrlsFromApi == old(numUrlsFromApi) && skippedDouble == old(skippedDouble)
      ensures apiUrls != [] ==> numUrlsFromApi == Some(|Truncated(apiUrls, numGranules)|)
      ensures apiUrls != [] && r.Success? ==>
                multiset(r.value) + multiset(skippedDouble) == multiset(Truncated(apiUrls, numGranules))
      ensures ds == old(ds) && dates == old(dates) && urls == old(urls) && layers == old(layers)
      ensures skippedProj == old(skippedProj) && skippedEmpty == old(skippedEmpty)
    {
      if |apiUrls| == 0 {
        return Success(apiUrls);
      }
      var examined := apiUrls;
      if numGranules.Some? && numGranules.value != 0 {
        examined := PrefixOf(apiUrls, numGranules.value);
      }
      r := SkipDuplicateGranules(examined);
    }

    /** `add_layer` for every result of a slice, in order: the URLs with
        data join the accumulator and the empty ones the empty log. */
    method AddLayers(rs: seq<LayerResult>)
      requires Valid()
      modifies this
      ensures Valid()
      ensures urls == old(urls) + KeptUrls(rs) && skippedEmpty == old(skippedEmpty) + EmptyUrls(rs)
      ensures numUrlsFromApi == old(numUrlsFromApi) && skippedDouble == old(skippedDouble) && layers == old(layers)
    {
      for k := 0 to |rs|
        invariant Valid()
        invariant urls == old(urls) + KeptUrls(rs[..k]) && skippedEmpty == old(skippedEmpty) + EmptyUrls(rs[..k])
        invariant numUrlsFromApi == old(numUrlsFromApi) && skippedDouble == old(skippedDouble) && layers == old(layers)
      {
        KeptPrefix(rs, k);
        AddLayer(rs[k]);
      }
      Whole(rs);
    }

    /** One read result taken by `create`: `add_layer`, then a write when
        the accumulator is full. The writes made so far are full slices of
        the URLs kept so far, followed by the accumulator. */
    method Accumulate(store: ZarrStore, res: LayerResult, isFirst: bool,
                      ghost w0: seq<Write>, ghost ws: seq<Write>, ghost rs: seq<LayerResult>)
      returns (r: Outcome<Error>, wrote: bool, ghost ws1: seq<Write>)
      requires Valid() && store.writes == w0 + ws && Batched(ws, urls, KeptUrls(rs))
      requires (isFirst <==> ws == []) && skippedEmpty == EmptyUrls(rs)
      modifies this, store
      ensures Valid()
      ensures r.Pass? ==>
                && store.writes == w0 + ws1 && Batched(ws1, urls, KeptUrls(rs + [res]))
                && (isFirst && !wrote <==> ws1 == []) && skippedEmpty == EmptyUrls(rs + [res])
    {
      KeptSnoc(rs, res);
      AddLayer(res);
      wrote := false;
      ws1 := ws;
      r := Pass;
      if |urls| == NUM_GRANULES_TO_WRITE {
        r := Flush(store, isFirst);
        if r.Fail? {
          return;
        }
        ghost var w := store.writes[|w0| + |ws|];
        WrittenSnoc(ws, w);
        ws1 := ws + [w];
        wrote := true;
        assert store.writes == w0 + ws1;
      }
    }

    /** The end of `create`: what remains in the accumulator is written
        last, so that the writes are the slices of all the URLs kept. */
    method FlushRest(store: ZarrStore, isFirst: bool, ghost w0: seq<Write>, ghost ws: seq<Write>, ghost kept: seq<string>)
      returns (r: Outcome<Error>)
      requires Valid() && store.writes == w0 + ws && Batched(ws, urls, kept) && (isFirst <==> ws == [])
      modifies this, store
      ensures Valid()
      ensures skippedEmpty == old(skippedEmpty)
      ensures r.Pass? ==>
                && |w0| <= |store.writes| && store.writes[..|w0|] == w0
                && WrittenUrls(store.writes[|w0|..]) == Chunks(kept, NUM_GRANULES_TO_WRITE)
                && StoreModes(WrittenModes(store.writes[|w0|..]))
                && urls == [] && ds == [] && dates == []
    {
      r := Pass;
      ghost var all := ws;
      if |urls| > 0 {
        ghost var rest := urls;
        r := Flush(store, isFirst);
        if r.Fail? {
          return;
        }
        ghost var w := store.writes[|w0| + |ws|];
        WrittenSnoc(ws, w);
        all := ws + [w];
        ChunksOfFull(WrittenUrls(ws), rest, NUM_GRANULES_TO_WRITE);
      } else {
        ChunksOfFull(WrittenUrls(ws), [], NUM_GRANULES_TO_WRITE);
      }
      assert store.writes == w0 + all;
      assert store.writes[..|w0|] == w0 && store.writes[|w0|..] == all;
    }

    /** The loop of `create` over the granules found: each is read and
        taken in turn, and what remains is written at the end. The writes
        are the consecutive slices of NUM_GRANULES_TO_WRITE of the URLs
        that carry data, the first creating the store and the others
        appending to it; the granules found empty are logged. */
    method ReadAndWrite(store: ZarrStore, found: seq<string>, storage: Storage) returns (r: Outcome<Error>)
      requires Valid() && urls == [] && skippedEmpty == []
      modifies this, store
      ensures Valid()
      ensures r.Pass? ==> ReadAll(storage, found, projection, box).Success?
      ensures r.Pass? ==>
                && |old(store.writes)| <= |store.writes| && store.writes[..|old(store.writes)|] == old(store.writes)
                && WrittenUrls(store.writes[|old(store.writes)|..])
                   == Chunks(KeptUrls(ReadAll(storage, found, projection, box).value), NUM_GRANULES_TO_WRITE)
                && StoreModes(WrittenModes(store.writes[|old(store.writes)|..]))
                && skippedEmpty == EmptyUrls(ReadAll(storage, found, projection, box).value)
                && urls == [] && ds == [] && dates == []
    {
      ghost var w0 := store.writes;
      ghost var ws: seq<Write> := [];
      ghost var rs: seq<LayerResult> := [];
      var isFirst := true;
      for i := 0 to |found|
        invariant Valid()
        invariant ReadAll(storage, found[..i], projection, box) == Success(rs)
        invariant store.writes == w0 + ws && Batched(ws, urls, KeptUrls(rs))
        invariant (isFirst <==> ws == []) && skippedEmpty == EmptyUrls(rs)
      {
        var res := ReadLayer(storage, found[i], projection, box);
        ReadAllSnoc(storage, found, i, projection, box);
        if res.Failure? {
          return Fail(res.error);
        }
        var wrote;
        ghost var ws1;
        r, wrote, ws1 := Accumulate(store, res.value, isFirst, w0, ws, rs);
        if r.Fail? {
          return;
        }
        ws := ws1;
        rs := rs + [res.value];
        isFirst := isFirst && !wrote;
      }
      Whole(found);
      r := FlushRest(store, isFirst, w0, ws, KeptUrls(rs));
    }

    /** `create`: the granule list is requested and filtered, then read and
        written batch by batch; the list is returned. */
    method Create(store: ZarrStore, apiUrls: seq<string>, numGranules: Option<int>, storage: Storage)
      returns (r: Result<seq<string>, Error>)
      modifies this, store
      ensures Valid()
      ensures Requested(apiUrls, numGranules).Failure? ==> r == Failure(Requested(apiUrls, numGranules).error)
      ensures r.Success? ==> r == Requested(apiUrls, numGranules) && ReadAll(storage, r.value, projection, box).Success?
      ensures r.Success? ==>
                && |old(store.writes)| <= |store.writes| && store.writes[..|old(store.writes)|] == old(store.writes)
                && WrittenUrls(store.writes[|old(store.writes)|..])
                   == Chunks(KeptUrls(ReadAll(storage, r.value, projection, box).value), NUM_GRANULES_TO_WRITE)
                && StoreModes(WrittenModes(store.writes[|old(store.writes)|..]))
                && skippedEmpty == EmptyUrls(ReadAll(storage, r.value, projection, box).value)
                && urls == [] && ds == [] && dates == []
    {
      Clear();
      r := RequestGranules(apiUrls, numGranules);
      if r.Failure? || |r.value| == 0 {
        assert store.writes[..|old(store.writes)|] == old(store.writes) && store.writes[|old(store.writes)|..] == [];
        return;
      }
      var o := ReadAndWrite(store, r.value, storage);
      if o.Fail? {
        return Failure(o.error);
      }
    }

    /** One slice of `create_parallel` once its granules are read: every
        result is added and `combine_layers` writes the layers the slice
        produced, if any. */
    method TakeSlice(store: ZarrStore, results: seq<LayerResult>, isFirst: bool,
                     ghost w0: seq<Write>, ghost ws: seq<Write>, ghost rss: seq<seq<LayerResult>>)
      returns (r: Outcome<Error>, ghost ws1: seq<Write>)
      requires Valid() && urls == [] && store.writes == w0 + ws && (isFirst <==> rss == [])
      requires SlicesWritten(ws, rss)
      modifies this, store
      ensures Valid()
      ensures r.Pass? ==>
                && urls == [] && store.writes == w0 + ws1
                && SlicesWritten(ws1, rss + [results])
    {
      ws1 := ws;
      AddLayers(results);
      assert urls == KeptUrls(results);
      r := Flush(store, isFirst);
      if r.Fail? {
        return;
      }
      KeptListsSnoc(rss, results);
      NonEmptySnoc(KeptLists(rss), KeptUrls(results));
      ParallelModesSnoc(KeptCounts(rss), |KeptUrls(results)|, true);
      if |KeptUrls(results)| > 0 {
        Appended(w0, ws, store.writes);
        ghost var w := store.writes[|w0| + |ws|];
        WrittenSnoc(ws, w);
        ws1 := ws + [w];
      } else {
        assert KeptUrls(results) == [];
      }
    }

    /** One slice of `create_parallel`: all its granules are read, the
        first exception stopping the driver, then taken. */
    method ReadSlice(store: ZarrStore, slice: seq<string>, storage: Storage, isFirst: bool,
                     ghost w0: seq<Write>, ghost ws: seq<Write>, ghost done: seq<seq<string>>, ghost rss: seq<seq<LayerResult>>)
      returns (r: Outcome<Error>, ghost ws1: seq<Write>, ghost rss1: seq<seq<LayerResult>>)
      requires Valid() && urls == [] && store.writes == w0 + ws && (isFirst <==> rss == [])
      requires ReadSlices(storage, done, projection, box) == Success(rss)
      requires SlicesWritten(ws, rss)
      modifies this, store
      ensures Valid()
      ensures r.Pass? ==>
                && ReadSlices(storage, done + [slice], projection, box) == Success(rss1)
                && urls == [] && store.writes == w0 + ws1
                && SlicesWritten(ws1, rss1)
    {
      ReadSlicesSnoc(storage, done, slice, projection, box);
      rss1 := rss;
      var results := ReadAll(storage, slice, projection, box);
      if results.Failure? {
        return Fail(results.error), ws, rss;
      }
      r, ws1 := TakeSlice(store, results.value, isFirst, w0, ws, rss);
      rss1 := rss + [results.value];
    }

    /** The loop of `create_parallel`: the granules found are cut into
        consecutive slices of at most NUM_GRANULES_TO_WRITE, and each is
        read, added and written in turn; `is_first_write` is cleared after
        the first slice, whether or not that slice wrote anything. */
    method SliceAndWrite(store: ZarrStore, found: seq<string>, storage: Storage)
      returns (r: Outcome<Error>, ghost ws: seq<Write>, ghost rss: seq<seq<LayerResult>>)
      requires Valid() && urls == []
      modifies this, store
      ensures Valid()
      ensures r.Pass? ==>
                && ReadSlices(storage, Slices(found, 0, NUM_GRANULES_TO_WRITE), projection, box) == Success(rss)
                && store.writes == old(store.writes) + ws && SlicesWritten(ws, rss)
    {
      ghost var w0 := store.writes;
      ws := [];
      rss := [];
      ghost var done: seq<seq<string>> := [];
      var isFirst := true;
      var start := 0;
      var numToProcess := |found|;
      while numToProcess > 0
        invariant start <= |found| && numToProcess == |found| - start
        invariant Slices(found, 0, NUM_GRANULES_TO_WRITE) == done + Slices(found, start, NUM_GRANULES_TO_WRITE)
        invariant ReadSlices(storage, done, projection, box) == Success(rss)
        invariant (start == 0 <==> done == []) && (isFirst <==> start == 0)
        invariant Valid() && urls == [] && store.writes == w0 + ws
        invariant SlicesWritten(ws, rss)
        decreases numToProcess
      {
        var numTasks := if numToProcess > NUM_GRANULES_TO_WRITE then NUM_GRANULES_TO_WRITE else numToProcess;
        var slice := found[start..start + numTasks];
        SlicesStep(found, start, NUM_GRANULES_TO_WRITE, numTasks, done);
        ghost var ws1, rss1;
        r, ws1, rss1 := ReadSlice(store, slice, storage, isFirst, w0, ws, done, rss);
        if r.Fail? {
          return;
        }
        ws := ws1;
        rss := rss1;
        done := done + [slice];
        if start == 0 {
          isFirst := false;
        }
        numToProcess := numToProcess - numTasks;
        start := start + numTasks;
      }
      assert Slices(found, 0, NUM_GRANULES_TO_WRITE) == done by {
        assert Slices(found, start, NUM_GRANULES_TO_WRITE) == [];
        assert done + [] == done;
      }
      r := Pass;
    }

    /** `create_parallel`: the granule list is requested and filtered, then
        read and written slice by slice; the list is returned. */
    method CreateParallel(store: ZarrStore, apiUrls: seq<string>, numGranules: Option<int>, storage: Storage)
      returns (r: Result<seq<string>, Error>)
      modifies this, store
      ensures Valid()
      ensures Requested(apiUrls, numGranules).Failure? ==> r == Failure(Requested(apiUrls, numGranules).error)
      ensures r.Success? ==>
                r == Requested(apiUrls, numGranules)
                && ReadSlices(storage, Slices(r.value, 0, NUM_GRANULES_TO_WRITE), projection, box).Success?
      ensures r.Success? ==>
                && |old(store.writes)| <= |store.writes| && store.writes[..|old(store.writes)|] == old(store.writes)
                && WrittenModes(store.writes[|old(store.writes)|..])
                   == ParallelModes(KeptCounts(ReadSlices(storage, Slices(r.value, 0, NUM_GRANULES_TO_WRITE), projection, box).value), true)
                && WrittenUrls(store.writes[|old(store.writes)|..])
                   == NonEmpty(KeptLists(ReadSlices(storage, Slices(r.value, 0, NUM_GRANULES_TO_WRITE), projection, box).value))
    {
      Clear();
      r := RequestGranules(apiUrls, numGranules);
      if r.Failure? || |r.value| == 0 {
        assert store.writes[..|old(store.writes)|] == old(store.writes) && store.writes[|old(store.writes)|..] == [];
        return;
      }
      var o;
      ghost var ws, rss;
      o, ws, rss := SliceAndWrite(store, r.value, storage);
      if o.Fail? {
        return Failure(o.error);
      }
      assert store.writes[..|old(store.writes)|] == old(store.writes) && store.writes[|old(store.writes)|..] == ws;
    }
  }
}
