/** The order in which `combine_layers` and `process_v_attributes` fill the
    cube of one batch, written as functions from the variables before a step
    to the variables after it (or to the exception the step raises), and
    what the whole sequence guarantees: every variable lies on the record
    axis, the `stable_count*` variables are created once, the checks that
    raise, the projection variable of the first write, the derived
    variables and the attributes removed from each velocity component. The
    class methods that update the cube in place are proved to end in the
    state these functions describe. */
module Combine {
  import opened Wrappers
  import opened Errors
  import opened Granules
  import opened Assembly

  type Vars = map<string, Column>

  // ---------------------------------------------------------------------------
  // elementary updates

  /** `del vars[v].attrs[name]` for every listed name that is present. */
  function DropAttrs(vars: Vars, v: string, names: set<string>): (r: Vars)
    requires v in vars
    ensures r.Keys == vars.Keys
    ensures r[v] == vars[v].(attrs := vars[v].attrs - names)
    ensures forall k :: k in vars && k != v ==> r[k] == vars[k]
  {
    vars[v := vars[v].(attrs := vars[v].attrs - names)]
  }

  /** How one step of `process_v_attributes` changes the cube: it adds the
      variables `added` (each on the record axis of length `n`), removes the
      attributes `dropped` from the component `varName`, and leaves every
      other variable as it was. */
  predicate Updated(before: Vars, after: Vars, varName: string, added: set<string>, dropped: set<string>, n: nat) {
    && varName in before && varName in after
    && after.Keys == before.Keys + added
    && after[varName] == before[varName].(attrs := before[varName].attrs - dropped)
    && (forall k :: k in before && k != varName && k !in added ==> after[k] == before[k])
    && (forall k :: k in added && k != varName ==> OnAxis(after[k], n))
  }

  lemma MapMinus(m: Attrs, a: set<string>, b: set<string>)
    ensures (m - a) - b == m - (a + b)
  {
  }

  /** Two updates in a row are one update. */
  lemma UpdatedTrans(a: Vars, b: Vars, c: Vars, varName: string, added1: set<string>, dropped1: set<string>,
                     added2: set<string>, dropped2: set<string>, n: nat)
    requires Updated(a, b, varName, added1, dropped1, n)
    requires Updated(b, c, varName, added2, dropped2, n)
    ensures Updated(a, c, varName, added1 + added2, dropped1 + dropped2, n)
  {
    MapMinus(a[varName].attrs, dropped1, dropped2);
    forall k | k in added1 + added2 && k != varName ensures OnAxis(c[k], n) {
      if k !in added2 {
        assert k in b && k != varName && k !in added2;
      }
    }
  }

  /** An update keeps every variable on the record axis. */
  lemma UpdatedAxis(a: Vars, b: Vars, varName: string, added: set<string>, dropped: set<string>, n: nat)
    requires Updated(a, b, varName, added, dropped, n)
    ensures AxisOk(a, n) ==> AxisOk(b, n)
  {
    if AxisOk(a, n) {
      forall k | k in b ensures OnAxis(b[k], n) {
        if k == varName {
          assert OnAxis(a[k], n);
        } else if k !in added {
          assert OnAxis(a[k], n);
        }
      }
    }
  }

  lemma DropAttrsUpdated(vars: Vars, v: string, names: set<string>, n: nat)
    requires v in vars
    ensures Updated(vars, DropAttrs(vars, v, names), v, {}, names, n)
  {
  }

  /** `[get_data_var_attr(ds, url, var, attr, missing) for ds, url in zip(...)]`
      for an attribute that has a default and is not converted: it never
      raises. */
  function Defaulted(ds: seq<Dataset>, urls: seq<string>, varName: string, attrName: string,
                     missing: AttrValue): (vs: seq<AttrValue>)
    requires |ds| == |urls|
    ensures |vs| == |ds|
    ensures forall i :: 0 <= i < |ds| ==>
              GetDataVarAttr(ds[i], urls[i], varName, attrName, Some(missing), false) == Success(vs[i])
    ensures forall i :: 0 <= i < |ds| ==>
              vs[i] == if HasAttr(ds[i], varName, attrName) then Unwrap(ds[i].vars[varName].attrs[attrName]) else missing
  {
    seq(|ds|, i requires 0 <= i < |ds| => GetDataVarAttr(ds[i], urls[i], varName, attrName, Some(missing), false).value)
  }

  // ---------------------------------------------------------------------------
  // process_v_attributes, step by step

  /** The velocity components whose attributes are processed. */
  const COMPONENTS: seq<string> := [VX, VY, VA, VR, VXP, VYP]

  /** The attributes dropped from the component before the error loop. */
  const LEGACY_ATTRS: set<string> := {STABLE_APPLY_DATE, MAP_SCALE_CORRECTED, STABLE_SHIFT_APPLIED}

  /** An error variable: one value per record and the description found
      for it. */
  function ErrorColumn(ds: seq<Dataset>, urls: seq<string>, varName: string, prefix: string): (r: Result<Column, Error>)
    requires |ds| == |urls| > 0
    ensures r.Success? <==> ErrorValues(ds, urls, varName, Derived(varName, prefix)).Success?
                            && ErrorDescription(ds[0], varName, prefix).Success?
    ensures r.Success? ==> OnAxis(r.value, |ds|) && r.value.data.PerRecord?
    ensures r.Success? ==> forall i :: 0 <= i < |ds| ==>
              ErrorValue(ds[i], urls[i], varName, Derived(varName, prefix)) == Success(r.value.data.values[i])
    ensures r.Success? ==> r.value.attrs == map[DESCRIPTION_ATTR := ErrorDescription(ds[0], varName, prefix).value]
    ensures r.Failure? ==> r.error == (if ErrorValues(ds, urls, varName, Derived(varName, prefix)).Failure?
                                       then ErrorValues(ds, urls, varName, Derived(varName, prefix)).error
                                       else ErrorDescription(ds[0], varName, prefix).error)
  {
    var values :- ErrorValues(ds, urls, varName, Derived(varName, prefix));
    var desc :- ErrorDescription(ds[0], varName, prefix);
    Success(Column(PerRecord(values), map[DESCRIPTION_ATTR := desc]))
  }

  /** The error variables of the component, in the order of the loop. They
      depend on the records only, not on the cube being filled. */
  function ErrorColumns(ds: seq<Dataset>, urls: seq<string>, varName: string): (cols: seq<Result<Column, Error>>)
    requires |ds| == |urls| > 0
    ensures |cols| == |ERROR_PREFIXES|
  {
    seq(|ERROR_PREFIXES|, i requires 0 <= i < |ERROR_PREFIXES| => ErrorColumn(ds, urls, varName, ERROR_PREFIXES[i]))
  }

  lemma ErrorColumnsAt(ds: seq<Dataset>, urls: seq<string>, varName: string, i: nat)
    requires |ds| == |urls| > 0 && i < |ERROR_PREFIXES|
    ensures ErrorColumns(ds, urls, varName)[i] == ErrorColumn(ds, urls, varName, ERROR_PREFIXES[i])
  {
  }

  /** The attributes one turn of the error loop removes from the component. */
  function ErrorDropped(varName: string, prefix: string): set<string> {
    (if varName in STABLE_RMSE_VARS then {STABLE_RMSE} else {})
    + {Derived(varName, prefix), Derived(Derived(varName, prefix), DESCRIPTION_ATTR)}
  }

  /** One turn of the loop over the error kinds, once its column is known:
      the legacy `stable_rmse` attribute of `vx`/`vy` is dropped, the error
      variable is added and the component loses the attribute of that name
      and its description. */
  function ErrorStep(vars: Vars, varName: string, prefix: string, col: Column): (r: Vars)
    requires varName in vars
    ensures varName in r
  {
    var name := Derived(varName, prefix);
    var v1 := if varName in STABLE_RMSE_VARS then DropAttrs(vars, varName, {STABLE_RMSE}) else vars;
    DropAttrs(v1[name := col], varName, {name, Derived(name, DESCRIPTION_ATTR)})
  }

  /** A derived name is longer than the component it derives from. */
  lemma DerivedLonger(varName: string, suffix: string)
    ensures |Derived(varName, suffix)| > |varName|
    ensures Derived(varName, suffix) != varName
  {
  }

  lemma ErrorStepKeeps(vars: Vars, varName: string, prefix: string, col: Column)
    requires varName in vars
    ensures Derived(varName, prefix) in ErrorStep(vars, varName, prefix, col)
    ensures ErrorStep(vars, varName, prefix, col)[Derived(varName, prefix)] == col
    ensures forall k :: k in vars && k != varName && k != Derived(varName, prefix) ==>
              k in ErrorStep(vars, varName, prefix, col) && ErrorStep(vars, varName, prefix, col)[k] == vars[k]
  {
    DerivedLonger(varName, prefix);
  }

  lemma ErrorStepUpdated(vars: Vars, varName: string, prefix: string, col: Column, n: nat)
    requires varName in vars && OnAxis(col, n)
    ensures Updated(vars, ErrorStep(vars, varName, prefix, col), varName, {Derived(varName, prefix)}, ErrorDropped(varName, prefix), n)
    ensures ErrorStep(vars, varName, prefix, col)[Derived(varName, prefix)] == col
  {
    var name := Derived(varName, prefix);
    DerivedLonger(varName, prefix);
    MapMinus(vars[varName].attrs, if varName in STABLE_RMSE_VARS then {STABLE_RMSE} else {},
             {name, Derived(name, DESCRIPTION_ATTR)});
  }

  /** The component attributes removed by the first `j` turns. */
  function ErrorFoldDropped(varName: string, j: nat): set<string>
    requires j <= |ERROR_PREFIXES|
  {
    if j == 0 then {} else ErrorFoldDropped(varName, j - 1) + ErrorDropped(varName, ERROR_PREFIXES[j - 1])
  }

  /** The first `j` turns of the loop over the error kinds: a turn whose
      column raises ends the loop with that exception. */
  function ErrorFold(vars: Vars, varName: string, cols: seq<Result<Column, Error>>, j: nat): (r: Result<Vars, Error>)
    requires varName in vars && j <= |cols| == |ERROR_PREFIXES|
    ensures r.Success? ==> varName in r.value
    decreases j
  {
    if j == 0 then Success(vars)
    else
      var v :- ErrorFold(vars, varName, cols, j - 1);
      var col :- cols[j - 1];
      Success(ErrorStep(v, varName, ERROR_PREFIXES[j - 1], col))
  }

  /** A failed turn fails the whole loop with its exception. */
  lemma {:induction false} ErrorFoldFails(vars: Vars, varName: string, cols: seq<Result<Column, Error>>, j: nat, m: nat)
    requires varName in vars && j <= m <= |cols| == |ERROR_PREFIXES|
    requires ErrorFold(vars, varName, cols, j).Failure?
    ensures ErrorFold(vars, varName, cols, m) == ErrorFold(vars, varName, cols, j)
    decreases m - j
  {
    if j < m {
      ErrorFoldFails(vars, varName, cols, j, m - 1);
    }
  }

  /** The loop fails exactly when one of the first `j` columns does, with
      the exception of the first such column. */
  lemma {:induction false} ErrorFoldOutcome(vars: Vars, varName: string, cols: seq<Result<Column, Error>>, j: nat)
    requires varName in vars && j <= |cols| == |ERROR_PREFIXES|
    ensures ErrorFold(vars, varName, cols, j).Success? <==> forall i :: 0 <= i < j ==> cols[i].Success?
    ensures ErrorFold(vars, varName, cols, j).Failure? ==>
              exists i :: 0 <= i < j && cols[i].Failure? && ErrorFold(vars, varName, cols, j).error == cols[i].error
                          && (forall i' :: 0 <= i' < i ==> cols[i'].Success?)
    decreases j
  {
    if j > 0 {
      ErrorFoldOutcome(vars, varName, cols, j - 1);
    }
  }

  /** Otherwise it adds the error variables and removes the
      attributes `ErrorFoldDropped` from the component. */
  lemma {:induction false} ErrorFoldUpdated(vars: Vars, varName: string, cols: seq<Result<Column, Error>>, j: nat, n: nat)
    requires varName in vars && j <= |cols| == |ERROR_PREFIXES|
    requires forall i :: 0 <= i < |cols| && cols[i].Success? ==> OnAxis(cols[i].value, n)
    ensures ErrorFold(vars, varName, cols, j).Success? ==>
              Updated(vars, ErrorFold(vars, varName, cols, j).value, varName, DerivedFirsts(varName, ERROR_PREFIXES, j), ErrorFoldDropped(varName, j), n)
    decreases j
  {
    if j > 0 {
      ErrorFoldUpdated(vars, varName, cols, j - 1, n);
      var prev := ErrorFold(vars, varName, cols, j - 1);
      if prev.Success? && cols[j - 1].Success? {
        var p := ERROR_PREFIXES[j - 1];
        ErrorStepUpdated(prev.value, varName, p, cols[j - 1].value, n);
        UpdatedTrans(vars, prev.value, ErrorStep(prev.value, varName, p, cols[j - 1].value), varName,
                     DerivedFirsts(varName, ERROR_PREFIXES, j - 1), ErrorFoldDropped(varName, j - 1), {Derived(varName, p)}, ErrorDropped(varName, p), n);
      }
    }
  }

  /** ... and each added variable holds its column. */
  lemma {:induction false} ErrorFoldColumns(vars: Vars, varName: string, cols: seq<Result<Column, Error>>, j: nat)
    requires varName in vars && j <= |cols| == |ERROR_PREFIXES|
    ensures ErrorFold(vars, varName, cols, j).Success? ==>
              forall i :: 0 <= i < j ==>
                (cols[i].Success? && Derived(varName, ERROR_PREFIXES[i]) in ErrorFold(vars, varName, cols, j).value
                 && ErrorFold(vars, varName, cols, j).value[Derived(varName, ERROR_PREFIXES[i])] == cols[i].value)
    decreases j
  {
    if j > 0 {
      ErrorFoldColumns(vars, varName, cols, j - 1);
      ErrorFoldOutcome(vars, varName, cols, j);
      var prev := ErrorFold(vars, varName, cols, j - 1);
      if prev.Success? && cols[j - 1].Success? {
        var p := ERROR_PREFIXES[j - 1];
        ErrorStepKeeps(prev.value, varName, p, cols[j - 1].value);
        var r := ErrorStep(prev.value, varName, p, cols[j - 1].value);
        forall i | 0 <= i < j - 1
          ensures Derived(varName, ERROR_PREFIXES[i]) in r && r[Derived(varName, ERROR_PREFIXES[i])] == cols[i].value
        {
          DerivedLonger(varName, ERROR_PREFIXES[i]);
          if Derived(varName, ERROR_PREFIXES[i]) == Derived(varName, p) {
            DerivedInjective(varName, ERROR_PREFIXES[i], p);
          }
        }
      }
    }
  }

  // ---------------------------------------------------------------------------
  // the variables created once per batch

  /** The `stable_count*` variables, each created by the first component
      whose first record carries the attribute. */
  const COUNT_NAMES: seq<string> := [STABLE_COUNT, STABLE_COUNT_SLOW, STABLE_COUNT_MASK]

  lemma CountNamesDistinct()
    ensures Distinct(COUNT_NAMES)
  {
    assert COUNT_NAMES[1][13] != COUNT_NAMES[2][13];
  }

  /** A `stable_count*` step, once the attribute's presence on the first
      record and its values on all records are known: the variable is
      created only if the cube has none yet and the first record carries
      the attribute, and the attribute is then removed from the component. */
  function CountStep(vars: Vars, varName: string, name: string, present: bool,
                     values: Result<seq<AttrValue>, Error>): (r: Result<Vars, Error>)
    requires varName in vars
    ensures r.Success? ==> varName in r.value
  {
    var v1 :- if name !in vars && present then
                var vs :- values;
                Success(vars[name := RecordColumn(vs, map[])])
              else Success(vars);
    Success(DropAttrs(v1, varName, {name}))
  }

  /** The step fails only when it creates the variable and a record lacks
      the attribute; otherwise it adds the variable or nothing. */
  lemma CountStepUpdated(vars: Vars, varName: string, name: string, present: bool,
                         values: Result<seq<AttrValue>, Error>, n: nat)
    requires varName in vars
    requires values.Success? ==> |values.value| == n
    ensures CountStep(vars, varName, name, present, values).Success? ==>
              Updated(vars, CountStep(vars, varName, name, present, values).value, varName,
                      if name !in vars && present then {name} else {}, {name}, n)
  {
  }

  lemma CountStepKeeps(vars: Vars, varName: string, name: string, present: bool, values: Result<seq<AttrValue>, Error>)
    requires varName in vars
    ensures CountStep(vars, varName, name, present, values).Failure? <==> name !in vars && present && values.Failure?
    ensures CountStep(vars, varName, name, present, values).Failure? ==>
              CountStep(vars, varName, name, present, values).error == values.error
    ensures CountStep(vars, varName, name, present, values).Success? ==>
              var r := CountStep(vars, varName, name, present, values).value;
              r.Keys == vars.Keys + (if name !in vars && present then {name} else {})
              && (name !in vars && present ==> r[name] == RecordColumn(values.value, map[]))
              && forall k :: k in vars && k != varName ==> r[k] == vars[k]
  {
  }

  /** Names no two of which are equal. */
  predicate Distinct(names: seq<string>) {
    forall i, j :: 0 <= i < j < |names| ==> names[i] != names[j]
  }

  /** The elements of `names[..j]`. */
  function Firsts(names: seq<string>, j: nat): (s: set<string>)
    requires j <= |names|
    ensures forall x :: x in s <==> x in names[..j]
  {
    if j == 0 then {} else Firsts(names, j - 1) + {names[j - 1]}
  }

  /** The variables among `names[..j]` that the first `j` count steps
      create: those the cube lacks and whose attribute the first record
      carries. */
  function CountAdded(vars: Vars, names: seq<string>, present: seq<bool>, j: nat): (s: set<string>)
    requires j <= |present| == |names|
    ensures forall x :: x in s ==> x in names[..j]
  {
    if j == 0 then {}
    else CountAdded(vars, names, present, j - 1) + (if names[j - 1] !in vars && present[j - 1] then {names[j - 1]} else {})
  }

  /** The first `j` count steps over `names`, given for each name whether
      the first record's component carries the attribute and the values
      collected from all records. */
  function CountFold(vars: Vars, varName: string, names: seq<string>, present: seq<bool>,
                     values: seq<Result<seq<AttrValue>, Error>>, j: nat): (r: Result<Vars, Error>)
    requires varName in vars && j <= |names| == |present| == |values|
    ensures r.Success? ==> varName in r.value
    decreases j
  {
    if j == 0 then Success(vars)
    else
      var v :- CountFold(vars, varName, names, present, values, j - 1);
      CountStep(v, varName, names[j - 1], present[j - 1], values[j - 1])
  }

  /** The count steps fail exactly when one of them creates its variable
      from values that raised. */
  lemma {:induction false} CountFoldOutcome(vars: Vars, varName: string, names: seq<string>, present: seq<bool>,
                                            values: seq<Result<seq<AttrValue>, Error>>, j: nat)
    requires varName in vars && j <= |names| == |present| == |values| && Distinct(names)
    ensures CountFold(vars, varName, names, present, values, j).Success? <==>
              forall i :: 0 <= i < j && names[i] !in vars && present[i] ==> values[i].Success?
    ensures CountFold(vars, varName, names, present, values, j).Success? ==>
              CountFold(vars, varName, names, present, values, j).value.Keys == vars.Keys + CountAdded(vars, names, present, j)
    decreases j
  {
    if j > 0 {
      CountFoldOutcome(vars, varName, names, present, values, j - 1);
      var prev := CountFold(vars, varName, names, present, values, j - 1);
      if prev.Success? {
        var name := names[j - 1];
        assert CountFold(vars, varName, names, present, values, j)
               == CountStep(prev.value, varName, name, present[j - 1], values[j - 1]);
        CountStepKeeps(prev.value, varName, name, present[j - 1], values[j - 1]);
        assert name !in names[..j - 1];
        assert name !in prev.value <==> name !in vars;
      } else {
        var i :| 0 <= i < j - 1 && names[i] !in vars && present[i] && !values[i].Success?;
      }
    }
  }

  /** Each created variable holds the values of its attribute, and every
      other variable but the component is untouched. */
  lemma {:induction false} CountFoldColumns(vars: Vars, varName: string, names: seq<string>, present: seq<bool>,
                                            values: seq<Result<seq<AttrValue>, Error>>, j: nat)
    requires varName in vars && j <= |names| == |present| == |values| && Distinct(names)
    ensures CountFold(vars, varName, names, present, values, j).Success? ==>
              var r := CountFold(vars, varName, names, present, values, j).value;
              (forall k :: k in vars && k != varName ==> k in r && r[k] == vars[k])
              && forall i :: 0 <= i < j && names[i] !in vars && present[i] ==>
                   values[i].Success? && names[i] in r && r[names[i]] == RecordColumn(values[i].value, map[])
    decreases j
  {
    if j > 0 {
      CountFoldColumns(vars, varName, names, present, values, j - 1);
      var prev := CountFold(vars, varName, names, present, values, j - 1);
      if prev.Success? {
        var name := names[j - 1];
        CountStepKeeps(prev.value, varName, name, present[j - 1], values[j - 1]);
        assert name !in names[..j - 1];
        CountFoldOutcome(vars, varName, names, present, values, j - 1);
        assert name !in prev.value <==> name !in vars;
      }
    }
  }

  lemma {:induction false} CountFoldUpdated(vars: Vars, varName: string, names: seq<string>, present: seq<bool>,
                                            values: seq<Result<seq<AttrValue>, Error>>, j: nat, n: nat)
    requires varName in vars && j <= |names| == |present| == |values| && Distinct(names)
    requires forall i :: 0 <= i < |values| && values[i].Success? ==> |values[i].value| == n
    ensures CountFold(vars, varName, names, present, values, j).Success? ==>
              Updated(vars, CountFold(vars, varName, names, present, values, j).value, varName,
                      CountAdded(vars, names, present, j), Firsts(names, j), n)
    decreases j
  {
    if j > 0 {
      CountFoldUpdated(vars, varName, names, present, values, j - 1, n);
      var prev := CountFold(vars, varName, names, present, values, j - 1);
      if prev.Success? {
        var name := names[j - 1];
        var r := CountStep(prev.value, varName, name, present[j - 1], values[j - 1]);
        if r.Success? {
          CountStepUpdated(prev.value, varName, name, present[j - 1], values[j - 1], n);
          assert name !in names[..j - 1];
          assert name !in prev.value <==> name !in vars;
          UpdatedTrans(vars, prev.value, r.value, varName, CountAdded(vars, names, present, j - 1), Firsts(names, j - 1),
                       if name !in prev.value && present[j - 1] then {name} else {}, {name}, n);
        }
      }
    }
  }

  // ---------------------------------------------------------------------------
  // the flag and the shift variables

  /** The attributes the flag step removes from the component. */
  const FLAG_ATTRS: set<string> := {FLAG_STABLE_SHIFT, FLAG_STABLE_SHIFT_DESCRIPTION}

  /** The flag variable the flag step creates: only if the cube has none
      yet and the first record holds the component. */
  function FlagAdded(vars: Vars, present: bool): set<string> {
    if FLAG_STABLE_SHIFT !in vars && present then {FLAG_STABLE_SHIFT} else {}
  }

  /** The `flag_stable_shift` step, once it is known whether the first
      record holds the component and what each record's flag is (0 where
      absent): it never raises. */
  function FlagStep(vars: Vars, varName: string, present: bool, values: seq<AttrValue>): (r: Vars)
    requires varName in vars
    ensures varName in r
  {
    var v1 := if FLAG_STABLE_SHIFT !in vars && present then vars[FLAG_STABLE_SHIFT := RecordColumn(values, map[])] else vars;
    DropAttrs(v1, varName, FLAG_ATTRS)
  }

  lemma FlagStepUpdated(vars: Vars, varName: string, present: bool, values: seq<AttrValue>)
    requires varName in vars
    ensures Updated(vars, FlagStep(vars, varName, present, values), varName, FlagAdded(vars, present), FLAG_ATTRS, |values|)
    ensures FLAG_STABLE_SHIFT in FlagAdded(vars, present) ==>
              FlagStep(vars, varName, present, values)[FLAG_STABLE_SHIFT] == RecordColumn(values, map[])
  {
  }

  /** A name of the form `<varName>...`. */
  predicate Extends(x: string, varName: string) {
    |varName| < |x| && x[..|varName|] == varName
  }

  lemma DerivedExtends(varName: string, suffix: string)
    ensures Extends(Derived(varName, suffix), varName)
  {
    assert (varName + "_" + suffix)[..|varName|] == varName;
  }

  /** The variables `<varName>_<suffix>` for the first `j` suffixes. */
  function DerivedFirsts(varName: string, suffixes: seq<string>, j: nat): (s: set<string>)
    requires j <= |suffixes|
    ensures forall x :: x in s ==> Extends(x, varName)
  {
    if j == 0 then {}
    else
      DerivedExtends(varName, suffixes[j - 1]);
      DerivedFirsts(varName, suffixes, j - 1) + {Derived(varName, suffixes[j - 1])}
  }

  /** A shift variable of the component: one value per record, the fill
      value where a record lacks the attribute; it never raises. */
  function ShiftColumn(ds: seq<Dataset>, urls: seq<string>, varName: string, suffix: string): (c: Column)
    requires |ds| == |urls|
    ensures OnAxis(c, |ds|) && c.data.PerRecord?
    ensures forall i :: 0 <= i < |ds| ==>
              c.data.values[i] == if HasAttr(ds[i], varName, suffix) then Unwrap(ds[i].vars[varName].attrs[suffix]) else MISSING_VALUE
  {
    RecordColumn(Defaulted(ds, urls, varName, suffix, MISSING_VALUE), map[])
  }

  /** One shift step: the variable `<varName>_<suffix>` is (re)created and
      the attribute `<suffix>` leaves the component. */
  function ShiftStep(vars: Vars, varName: string, suffix: string, col: Column): (r: Vars)
    requires varName in vars
    ensures varName in r
  {
    DropAttrs(vars[Derived(varName, suffix) := col], varName, {suffix})
  }

  /** The first `j` shift steps. */
  function ShiftFold(vars: Vars, varName: string, suffixes: seq<string>, cols: seq<Column>, j: nat): (r: Vars)
    requires varName in vars && j <= |suffixes| == |cols|
    ensures varName in r
    decreases j
  {
    if j == 0 then vars
    else ShiftStep(ShiftFold(vars, varName, suffixes, cols, j - 1), varName, suffixes[j - 1], cols[j - 1])
  }

  lemma {:induction false} ShiftFoldUpdated(vars: Vars, varName: string, suffixes: seq<string>, cols: seq<Column>, j: nat, n: nat)
    requires varName in vars && j <= |suffixes| == |cols|
    requires forall i :: 0 <= i < |cols| ==> OnAxis(cols[i], n)
    ensures Updated(vars, ShiftFold(vars, varName, suffixes, cols, j), varName,
                    DerivedFirsts(varName, suffixes, j), Firsts(suffixes, j), n)
    decreases j
  {
    if j > 0 {
      ShiftFoldUpdated(vars, varName, suffixes, cols, j - 1, n);
      var prev := ShiftFold(vars, varName, suffixes, cols, j - 1);
      DerivedLonger(varName, suffixes[j - 1]);
      assert Updated(prev, ShiftStep(prev, varName, suffixes[j - 1], cols[j - 1]), varName,
                     {Derived(varName, suffixes[j - 1])}, {suffixes[j - 1]}, n);
      UpdatedTrans(vars, prev, ShiftStep(prev, varName, suffixes[j - 1], cols[j - 1]), varName,
                   DerivedFirsts(varName, suffixes, j - 1), Firsts(suffixes, j - 1),
                   {Derived(varName, suffixes[j - 1])}, {suffixes[j - 1]}, n);
    }
  }

  /** Each shift variable holds its column. */
  lemma {:induction false} ShiftFoldColumns(vars: Vars, varName: string, suffixes: seq<string>, cols: seq<Column>, j: nat)
    requires varName in vars && j <= |suffixes| == |cols| && Distinct(suffixes)
    ensures forall i :: 0 <= i < j ==>
              Derived(varName, suffixes[i]) in ShiftFold(vars, varName, suffixes, cols, j)
              && ShiftFold(vars, varName, suffixes, cols, j)[Derived(varName, suffixes[i])] == cols[i]
    decreases j
  {
    if j > 0 {
      ShiftFoldColumns(vars, varName, suffixes, cols, j - 1);
      var prev := ShiftFold(vars, varName, suffixes, cols, j - 1);
      forall i | 0 <= i < j - 1
        ensures Derived(varName, suffixes[i]) != Derived(varName, suffixes[j - 1])
        ensures Derived(varName, suffixes[i]) != varName
      {
        DerivedLonger(varName, suffixes[i]);
        if Derived(varName, suffixes[i]) == Derived(varName, suffixes[j - 1]) {
          DerivedInjective(varName, suffixes[i], suffixes[j - 1]);
        }
      }
      DerivedLonger(varName, suffixes[j - 1]);
    }
  }

  // ---------------------------------------------------------------------------
  // process_v_attributes as a whole

  /** What `process_v_attributes` reads from the records, computed before
      the cube is touched: the four error columns, for each `stable_count*`
      name whether the first record's component carries it and its values on
      all records, whether the first record holds the component and each
      record's flag, and the three shift columns. */
  datatype ComponentInputs = ComponentInputs(
    errors: seq<Result<Column, Error>>,
    countPresent: seq<bool>, counts: seq<Result<seq<AttrValue>, Error>>,
    flagPresent: bool, flag: seq<AttrValue>,
    shifts: seq<Column>)

  predicate Shaped(inp: ComponentInputs) {
    |inp.errors| == |ERROR_PREFIXES| && |inp.countPresent| == |inp.counts| == |COUNT_NAMES| && |inp.shifts| == |SHIFT_SUFFIXES|
  }

  /** Every column the inputs can add has one entry per record. */
  predicate InputsOnAxis(inp: ComponentInputs, n: nat) {
    && (forall i :: 0 <= i < |inp.errors| && inp.errors[i].Success? ==> OnAxis(inp.errors[i].value, n))
    && (forall i :: 0 <= i < |inp.counts| && inp.counts[i].Success? ==> |inp.counts[i].value| == n)
    && |inp.flag| == n
    && (forall i :: 0 <= i < |inp.shifts| ==> OnAxis(inp.shifts[i], n))
  }

  /** The legacy attributes go, then the loop over the error kinds runs. */
  function ErrorPart(vars: Vars, varName: string, inp: ComponentInputs): (r: Result<Vars, Error>)
    requires varName in vars && Shaped(inp)
    ensures r.Success? ==> varName in r.value
  {
    ErrorFold(DropAttrs(vars, varName, LEGACY_ATTRS), varName, inp.errors, |ERROR_PREFIXES|)
  }

  /** The flag step, then the three shift steps. */
  function ShiftPart(vars: Vars, varName: string, inp: ComponentInputs): (r: Vars)
    requires varName in vars && Shaped(inp)
    ensures varName in r
  {
    ShiftFold(FlagStep(vars, varName, inp.flagPresent, inp.flag), varName, SHIFT_SUFFIXES, inp.shifts, |SHIFT_SUFFIXES|)
  }

  /** `process_v_attributes(varName)` on the cube `vars`, given what it
      reads from the records. */
  function ProcessComponent(vars: Vars, varName: string, inp: ComponentInputs): (r: Result<Vars, Error>)
    requires varName in vars && Shaped(inp)
    ensures r.Success? ==> varName in r.value
  {
    var v1 :- ErrorPart(vars, varName, inp);
    var v2 :- CountFold(v1, varName, COUNT_NAMES, inp.countPresent, inp.counts, |COUNT_NAMES|);
    Success(ShiftPart(v2, varName, inp))
  }

  /** The `stable_count*` and flag variables a component creates. */
  function Created(vars: Vars, inp: ComponentInputs): set<string>
    requires Shaped(inp)
  {
    CountAdded(vars, COUNT_NAMES, inp.countPresent, |COUNT_NAMES|) + FlagAdded(vars, inp.flagPresent)
  }

  /** The names created once per batch do not start with a component's
      name, so no derived variable is one of them. */
  lemma OnceNamesNotDerived(varName: string)
    requires varName in COMPONENTS
    ensures forall i :: 0 <= i < |COUNT_NAMES| ==> !Extends(COUNT_NAMES[i], varName)
    ensures !Extends(FLAG_STABLE_SHIFT, varName)
    ensures FLAG_STABLE_SHIFT !in COUNT_NAMES
  {
    assert varName[0] == 'v';
    forall x | x in COUNT_NAMES + [FLAG_STABLE_SHIFT] ensures !Extends(x, varName) {
      assert x[0] != 'v';
    }
    assert FLAG_STABLE_SHIFT[0] != COUNT_NAMES[0][0];
  }

  lemma CountAddedSame(a: Vars, b: Vars, names: seq<string>, present: seq<bool>, j: nat)
    requires j <= |present| == |names|
    requires forall i :: 0 <= i < j ==> (names[i] in a <==> names[i] in b)
    ensures CountAdded(a, names, present, j) == CountAdded(b, names, present, j)
    decreases j
  {
    if j > 0 {
      CountAddedSame(a, b, names, present, j - 1);
    }
  }

  lemma ErrorPartUpdated(vars: Vars, varName: string, inp: ComponentInputs, n: nat)
    requires varName in vars && Shaped(inp) && InputsOnAxis(inp, n)
    ensures ErrorPart(vars, varName, inp).Success? ==>
              Updated(vars, ErrorPart(vars, varName, inp).value, varName, DerivedFirsts(varName, ERROR_PREFIXES, 4),
                      LEGACY_ATTRS + ErrorFoldDropped(varName, 4), n)
  {
    var v0 := DropAttrs(vars, varName, LEGACY_ATTRS);
    DropAttrsUpdated(vars, varName, LEGACY_ATTRS, n);
    ErrorFoldUpdated(v0, varName, inp.errors, 4, n);
    if ErrorPart(vars, varName, inp).Success? {
      UpdatedTrans(vars, v0, ErrorPart(vars, varName, inp).value, varName, {}, LEGACY_ATTRS,
                   DerivedFirsts(varName, ERROR_PREFIXES, 4), ErrorFoldDropped(varName, 4), n);
      assert {} + DerivedFirsts(varName, ERROR_PREFIXES, 4) == DerivedFirsts(varName, ERROR_PREFIXES, 4);
    }
  }

  lemma ShiftPartUpdated(vars: Vars, varName: string, inp: ComponentInputs, n: nat)
    requires varName in vars && Shaped(inp) && InputsOnAxis(inp, n)
    ensures Updated(vars, ShiftPart(vars, varName, inp), varName,
                    FlagAdded(vars, inp.flagPresent) + DerivedFirsts(varName, SHIFT_SUFFIXES, 3),
                    FLAG_ATTRS + Firsts(SHIFT_SUFFIXES, 3), n)
  {
    var v := FlagStep(vars, varName, inp.flagPresent, inp.flag);
    FlagStepUpdated(vars, varName, inp.flagPresent, inp.flag);
    ShiftFoldUpdated(v, varName, SHIFT_SUFFIXES, inp.shifts, 3, n);
    UpdatedTrans(vars, v, ShiftPart(vars, varName, inp), varName, FlagAdded(vars, inp.flagPresent), FLAG_ATTRS,
                 DerivedFirsts(varName, SHIFT_SUFFIXES, 3), Firsts(SHIFT_SUFFIXES, 3), n);
  }

  lemma {:induction false} DerivedFirstsHas(varName: string, suffixes: seq<string>, j: nat, x: string)
    requires j <= |suffixes| && x in DerivedFirsts(varName, suffixes, j)
    ensures exists i :: 0 <= i < j && x == Derived(varName, suffixes[i])
    decreases j
  {
    if x != Derived(varName, suffixes[j - 1]) {
      DerivedFirstsHas(varName, suffixes, j - 1, x);
    }
  }

  /** No error kind is a shift kind, so error and shift variables differ. */
  lemma ErrorNotShift(varName: string, i: nat, j: nat)
    requires i < |ERROR_PREFIXES| && j < |SHIFT_SUFFIXES|
    ensures Derived(varName, ERROR_PREFIXES[i]) != Derived(varName, SHIFT_SUFFIXES[j])
  {
    assert ERROR_PREFIXES[i][0] != SHIFT_SUFFIXES[j][0];
    if Derived(varName, ERROR_PREFIXES[i]) == Derived(varName, SHIFT_SUFFIXES[j]) {
      DerivedInjective(varName, ERROR_PREFIXES[i], SHIFT_SUFFIXES[j]);
    }
  }

  /** The variables the component adds: its four error and three shift
      variables and the once-per-batch variables it creates. */
  function AddedBy(vars: Vars, varName: string, inp: ComponentInputs): set<string>
    requires Shaped(inp)
  {
    DerivedFirsts(varName, ERROR_PREFIXES, |ERROR_PREFIXES|) + CountAdded(vars, COUNT_NAMES, inp.countPresent, |COUNT_NAMES|)
    + FlagAdded(vars, inp.flagPresent) + DerivedFirsts(varName, SHIFT_SUFFIXES, |SHIFT_SUFFIXES|)
  }

  /** The attributes the component loses. */
  function RemovedAttrs(varName: string): set<string> {
    LEGACY_ATTRS + ErrorFoldDropped(varName, |ERROR_PREFIXES|) + Firsts(COUNT_NAMES, |COUNT_NAMES|)
    + FLAG_ATTRS + Firsts(SHIFT_SUFFIXES, |SHIFT_SUFFIXES|)
  }

  /** The cube after the error loop and after the count steps, with their
      keys: the component's derived names never collide with the
      once-per-batch names, so whether those exist is decided by the cube
      as it was before the component. */
  lemma MiddleKeys(vars: Vars, varName: string, inp: ComponentInputs, n: nat)
    requires varName in COMPONENTS && varName in vars && Shaped(inp) && InputsOnAxis(inp, n)
    requires ErrorPart(vars, varName, inp).Success?
    ensures var v1 := ErrorPart(vars, varName, inp).value;
            (forall i :: 0 <= i < |COUNT_NAMES| ==> (COUNT_NAMES[i] in v1 <==> COUNT_NAMES[i] in vars))
            && CountAdded(v1, COUNT_NAMES, inp.countPresent, 3) == CountAdded(vars, COUNT_NAMES, inp.countPresent, 3)
            && (FLAG_STABLE_SHIFT in v1 <==> FLAG_STABLE_SHIFT in vars)
  {
    var v1 := ErrorPart(vars, varName, inp).value;
    ErrorPartUpdated(vars, varName, inp, n);
    OnceNamesNotDerived(varName);
    CountAddedSame(v1, vars, COUNT_NAMES, inp.countPresent, 3);
  }

  lemma FlagKeys(vars: Vars, varName: string, inp: ComponentInputs, n: nat)
    requires varName in COMPONENTS && varName in vars && Shaped(inp) && InputsOnAxis(inp, n)
    requires ErrorPart(vars, varName, inp).Success?
    requires CountFold(ErrorPart(vars, varName, inp).value, varName, COUNT_NAMES, inp.countPresent, inp.counts, 3).Success?
    ensures FLAG_STABLE_SHIFT in CountFold(ErrorPart(vars, varName, inp).value, varName, COUNT_NAMES, inp.countPresent, inp.counts, 3).value
            <==> FLAG_STABLE_SHIFT in vars
  {
    var v1 := ErrorPart(vars, varName, inp).value;
    MiddleKeys(vars, varName, inp, n);
    CountNamesDistinct();
    CountFoldOutcome(v1, varName, COUNT_NAMES, inp.countPresent, inp.counts, 3);
    OnceNamesNotDerived(varName);
  }

  /** Four updates in a row are one update. */
  lemma UpdatedChain(a: Vars, b: Vars, c: Vars, d: Vars, e: Vars, varName: string,
                     a1: set<string>, d1: set<string>, a2: set<string>, d2: set<string>,
                     a3: set<string>, d3: set<string>, a4: set<string>, d4: set<string>, n: nat)
    requires Updated(a, b, varName, a1, d1, n) && Updated(b, c, varName, a2, d2, n)
    requires Updated(c, d, varName, a3, d3, n) && Updated(d, e, varName, a4, d4, n)
    ensures Updated(a, e, varName, a1 + a2 + a3 + a4, d1 + d2 + d3 + d4, n)
  {
    UpdatedTrans(a, b, c, varName, a1, d1, a2, d2, n);
    UpdatedTrans(a, c, d, varName, a1 + a2, d1 + d2, a3, d3, n);
    UpdatedTrans(a, d, e, varName, a1 + a2 + a3, d1 + d2 + d3, a4, d4, n);
  }

  /** `process_v_attributes` adds exactly `AddedBy`, each on the record
      axis, removes `DroppedBy` from the component and leaves every other
      variable alone. */
  lemma ProcessComponentUpdated(vars: Vars, varName: string, inp: ComponentInputs, n: nat)
    requires varName in COMPONENTS && varName in vars && Shaped(inp) && InputsOnAxis(inp, n)
    ensures ProcessComponent(vars, varName, inp).Success? ==>
              Updated(vars, ProcessComponent(vars, varName, inp).value, varName, AddedBy(vars, varName, inp), RemovedAttrs(varName), n)
  {
    if ProcessComponent(vars, varName, inp).Success? {
      var v1 := ErrorPart(vars, varName, inp).value;
      var v2 := CountFold(v1, varName, COUNT_NAMES, inp.countPresent, inp.counts, 3).value;
      var v3 := FlagStep(v2, varName, inp.flagPresent, inp.flag);
      var r := ShiftFold(v3, varName, SHIFT_SUFFIXES, inp.shifts, 3);
      assert ProcessComponent(vars, varName, inp).value == r;
      var ca := CountAdded(vars, COUNT_NAMES, inp.countPresent, 3);
      var fa := FlagAdded(vars, inp.flagPresent);
      assert Updated(vars, v1, varName, DerivedFirsts(varName, ERROR_PREFIXES, 4), LEGACY_ATTRS + ErrorFoldDropped(varName, 4), n) by {
        ErrorPartUpdated(vars, varName, inp, n);
      }
      assert Updated(v1, v2, varName, ca, Firsts(COUNT_NAMES, 3), n) by {
        CountNamesDistinct();
        CountFoldUpdated(v1, varName, COUNT_NAMES, inp.countPresent, inp.counts, 3, n);
        MiddleKeys(vars, varName, inp, n);
      }
      assert Updated(v2, v3, varName, fa, FLAG_ATTRS, n) by {
        FlagKeys(vars, varName, inp, n);
        FlagStepUpdated(v2, varName, inp.flagPresent, inp.flag);
      }
      assert Updated(v3, r, varName, DerivedFirsts(varName, SHIFT_SUFFIXES, 3), Firsts(SHIFT_SUFFIXES, 3), n) by {
        ShiftFoldUpdated(v3, varName, SHIFT_SUFFIXES, inp.shifts, 3, n);
      }
      UpdatedChain(vars, v1, v2, v3, r, varName,
                   DerivedFirsts(varName, ERROR_PREFIXES, 4), LEGACY_ATTRS + ErrorFoldDropped(varName, 4),
                   ca, Firsts(COUNT_NAMES, 3), fa, FLAG_ATTRS,
                   DerivedFirsts(varName, SHIFT_SUFFIXES, 3), Firsts(SHIFT_SUFFIXES, 3), n);
    }
  }

  /** A failing count step fails with the exception of the first name it
      creates from values that raised. */
  lemma {:induction false} CountFoldFails(vars: Vars, varName: string, names: seq<string>, present: seq<bool>,
                                          values: seq<Result<seq<AttrValue>, Error>>, j: nat)
    requires varName in vars && j <= |names| == |present| == |values| && Distinct(names)
    requires CountFold(vars, varName, names, present, values, j).Failure?
    ensures exists i :: 0 <= i < j && names[i] !in vars && present[i] && values[i].Failure?
                        && CountFold(vars, varName, names, present, values, j).error == values[i].error
                        && forall i' :: 0 <= i' < i && names[i'] !in vars && present[i'] ==> values[i'].Success?
    decreases j
  {
    var prev := CountFold(vars, varName, names, present, values, j - 1);
    if prev.Failure? {
      CountFoldFails(vars, varName, names, present, values, j - 1);
    } else {
      var name := names[j - 1];
      CountFoldOutcome(vars, varName, names, present, values, j - 1);
      CountStepKeeps(prev.value, varName, name, present[j - 1], values[j - 1]);
      assert name !in names[..j - 1];
      assert name !in prev.value <==> name !in vars;
    }
  }

  /** Once a count step has failed, the later ones keep the exception. */
  lemma {:induction false} CountFoldStays(vars: Vars, varName: string, names: seq<string>, present: seq<bool>,
                                          values: seq<Result<seq<AttrValue>, Error>>, j: nat, m: nat)
    requires varName in vars && j <= m <= |names| == |present| == |values|
    requires CountFold(vars, varName, names, present, values, j).Failure?
    ensures CountFold(vars, varName, names, present, values, m) == CountFold(vars, varName, names, present, values, j)
    decreases m - j
  {
    if j < m {
      CountFoldStays(vars, varName, names, present, values, j, m - 1);
      assert CountFold(vars, varName, names, present, values, m - 1).Failure?;
    }
  }

  /** After the error loop the count steps see the same once-per-batch
      names as the cube had before the component. */
  lemma CountsAfterErrors(vars: Vars, varName: string, inp: ComponentInputs, n: nat)
    requires varName in COMPONENTS && varName in vars && Shaped(inp) && InputsOnAxis(inp, n)
    requires ErrorPart(vars, varName, inp).Success?
    ensures var c := CountFold(ErrorPart(vars, varName, inp).value, varName, COUNT_NAMES, inp.countPresent, inp.counts, 3);
            (c.Success? <==> forall i :: 0 <= i < 3 && COUNT_NAMES[i] !in vars && inp.countPresent[i] ==> inp.counts[i].Success?)
            && (c.Failure? ==>
                  exists i :: 0 <= i < 3 && COUNT_NAMES[i] !in vars && inp.countPresent[i] && inp.counts[i].Failure?
                              && c.error == inp.counts[i].error
                              && forall i' :: 0 <= i' < i && COUNT_NAMES[i'] !in vars && inp.countPresent[i'] ==> inp.counts[i'].Success?)
  {
    var v1 := ErrorPart(vars, varName, inp).value;
    var c := CountFold(v1, varName, COUNT_NAMES, inp.countPresent, inp.counts, 3);
    MiddleKeys(vars, varName, inp, n);
    CountNamesDistinct();
    CountFoldOutcome(v1, varName, COUNT_NAMES, inp.countPresent, inp.counts, 3);
    if c.Failure? {
      CountFoldFails(v1, varName, COUNT_NAMES, inp.countPresent, inp.counts, 3);
    }
  }

  /** `process_v_attributes` raises exactly when an error column raises or
      a `stable_count*` variable it creates lacks values. */
  lemma ProcessComponentOutcome(vars: Vars, varName: string, inp: ComponentInputs, n: nat)
    requires varName in COMPONENTS && varName in vars && Shaped(inp) && InputsOnAxis(inp, n)
    ensures ProcessComponent(vars, varName, inp).Success? <==>
              (forall i :: 0 <= i < 4 ==> inp.errors[i].Success?)
              && forall i :: 0 <= i < 3 && COUNT_NAMES[i] !in vars && inp.countPresent[i] ==> inp.counts[i].Success?
  {
    ErrorFoldOutcome(DropAttrs(vars, varName, LEGACY_ATTRS), varName, inp.errors, 4);
    if ErrorPart(vars, varName, inp).Success? {
      CountsAfterErrors(vars, varName, inp, n);
    }
  }

  /** The exception is the first raising error column's ... */
  lemma ProcessComponentErrorFails(vars: Vars, varName: string, inp: ComponentInputs)
    requires varName in vars && Shaped(inp)
    requires exists i :: 0 <= i < 4 && inp.errors[i].Failure?
    ensures ProcessComponent(vars, varName, inp).Failure?
    ensures exists i :: 0 <= i < 4 && inp.errors[i].Failure?
                        && ProcessComponent(vars, varName, inp).error == inp.errors[i].error
                        && forall i' :: 0 <= i' < i ==> inp.errors[i'].Success?
  {
    ErrorFoldOutcome(DropAttrs(vars, varName, LEGACY_ATTRS), varName, inp.errors, 4);
  }

  /** ... else the first raising count's. */
  lemma ProcessComponentCountFails(vars: Vars, varName: string, inp: ComponentInputs, n: nat)
    requires varName in COMPONENTS && varName in vars && Shaped(inp) && InputsOnAxis(inp, n)
    requires forall i :: 0 <= i < 4 ==> inp.errors[i].Success?
    requires ProcessComponent(vars, varName, inp).Failure?
    ensures exists i :: 0 <= i < 3 && COUNT_NAMES[i] !in vars && inp.countPresent[i] && inp.counts[i].Failure?
                        && ProcessComponent(vars, varName, inp).error == inp.counts[i].error
                        && forall i' :: 0 <= i' < i && COUNT_NAMES[i'] !in vars && inp.countPresent[i'] ==> inp.counts[i'].Success?
  {
    ErrorFoldOutcome(DropAttrs(vars, varName, LEGACY_ATTRS), varName, inp.errors, 4);
    CountsAfterErrors(vars, varName, inp, n);
  }

  lemma ShiftSuffixesDistinct()
    ensures Distinct(SHIFT_SUFFIXES)
  {
    assert SHIFT_SUFFIXES[1][13] != SHIFT_SUFFIXES[2][13];
  }

  /** Each shift variable holds its column. */
  lemma ProcessComponentShifts(vars: Vars, varName: string, inp: ComponentInputs)
    requires varName in vars && Shaped(inp)
    ensures ProcessComponent(vars, varName, inp).Success? ==>
              forall i :: 0 <= i < |SHIFT_SUFFIXES| ==>
                Derived(varName, SHIFT_SUFFIXES[i]) in ProcessComponent(vars, varName, inp).value
                && ProcessComponent(vars, varName, inp).value[Derived(varName, SHIFT_SUFFIXES[i])] == inp.shifts[i]
  {
    if ProcessComponent(vars, varName, inp).Success? {
      var v1 := ErrorPart(vars, varName, inp).value;
      var v2 := CountFold(v1, varName, COUNT_NAMES, inp.countPresent, inp.counts, 3).value;
      var v3 := FlagStep(v2, varName, inp.flagPresent, inp.flag);
      ShiftSuffixesDistinct();
      ShiftFoldColumns(v3, varName, SHIFT_SUFFIXES, inp.shifts, 3);
    }
  }

  /** Each error variable holds its column: the later steps never
      overwrite it. */
  lemma ProcessComponentErrors(vars: Vars, varName: string, inp: ComponentInputs, n: nat)
    requires varName in COMPONENTS && varName in vars && Shaped(inp) && InputsOnAxis(inp, n)
    ensures ProcessComponent(vars, varName, inp).Success? ==>
              forall i :: 0 <= i < 4 ==>
                inp.errors[i].Success? && Derived(varName, ERROR_PREFIXES[i]) in ProcessComponent(vars, varName, inp).value
                && ProcessComponent(vars, varName, inp).value[Derived(varName, ERROR_PREFIXES[i])] == inp.errors[i].value
  {
    if ProcessComponent(vars, varName, inp).Success? {
      var v0 := DropAttrs(vars, varName, LEGACY_ATTRS);
      var v1 := ErrorPart(vars, varName, inp).value;
      var v2 := CountFold(v1, varName, COUNT_NAMES, inp.countPresent, inp.counts, 3).value;
      var r := ShiftPart(v2, varName, inp);
      assert ProcessComponent(vars, varName, inp).value == r;
      forall i | 0 <= i < 4
        ensures inp.errors[i].Success? && Derived(varName, ERROR_PREFIXES[i]) in r && r[Derived(varName, ERROR_PREFIXES[i])] == inp.errors[i].value
      {
        var x := Derived(varName, ERROR_PREFIXES[i]);
        assert inp.errors[i].Success? && x in v1 && v1[x] == inp.errors[i].value by {
          ErrorFoldColumns(v0, varName, inp.errors, 4);
        }
        assert x in v2 && v2[x] == v1[x] by {
          DerivedLonger(varName, ERROR_PREFIXES[i]);
          CountNamesDistinct();
          CountFoldColumns(v1, varName, COUNT_NAMES, inp.countPresent, inp.counts, 3);
        }
        assert x in r && r[x] == v2[x] by {
          DerivedLonger(varName, ERROR_PREFIXES[i]);
          DerivedExtends(varName, ERROR_PREFIXES[i]);
          OnceNamesNotDerived(varName);
          if x in DerivedFirsts(varName, SHIFT_SUFFIXES, 3) {
            DerivedFirstsHas(varName, SHIFT_SUFFIXES, 3, x);
            var j :| 0 <= j < 3 && x == Derived(varName, SHIFT_SUFFIXES[j]);
            ErrorNotShift(varName, i, j);
          }
          ShiftPartUpdated(v2, varName, inp, n);
        }
      }
    }
  }

  /** Each `stable_count*` variable the component creates holds the values
      of its attribute. */
  lemma ProcessComponentCounts(vars: Vars, varName: string, inp: ComponentInputs, n: nat)
    requires varName in COMPONENTS && varName in vars && Shaped(inp) && InputsOnAxis(inp, n)
    ensures ProcessComponent(vars, varName, inp).Success? ==>
              forall i :: 0 <= i < 3 && COUNT_NAMES[i] !in vars && inp.countPresent[i] ==>
                inp.counts[i].Success? && COUNT_NAMES[i] in ProcessComponent(vars, varName, inp).value
                && ProcessComponent(vars, varName, inp).value[COUNT_NAMES[i]] == RecordColumn(inp.counts[i].value, map[])
  {
    if ProcessComponent(vars, varName, inp).Success? {
      var v1 := ErrorPart(vars, varName, inp).value;
      var v2 := CountFold(v1, varName, COUNT_NAMES, inp.countPresent, inp.counts, 3).value;
      var r := ShiftPart(v2, varName, inp);
      assert ProcessComponent(vars, varName, inp).value == r;
      forall i | 0 <= i < 3 && COUNT_NAMES[i] !in vars && inp.countPresent[i]
        ensures inp.counts[i].Success? && COUNT_NAMES[i] in r && r[COUNT_NAMES[i]] == RecordColumn(inp.counts[i].value, map[])
      {
        var x := COUNT_NAMES[i];
        assert inp.counts[i].Success? && x in v2 && v2[x] == RecordColumn(inp.counts[i].value, map[]) by {
          MiddleKeys(vars, varName, inp, n);
          CountNamesDistinct();
          CountFoldColumns(v1, varName, COUNT_NAMES, inp.countPresent, inp.counts, 3);
        }
        assert x in r && r[x] == v2[x] by {
          OnceNamesNotDerived(varName);
          assert x != varName;
          ShiftPartUpdated(v2, varName, inp, n);
        }
      }
    }
  }

  /** The flag variable, when the component creates it, holds each
      record's flag. */
  lemma ProcessComponentFlag(vars: Vars, varName: string, inp: ComponentInputs, n: nat)
    requires varName in COMPONENTS && varName in vars && Shaped(inp) && InputsOnAxis(inp, n)
    ensures ProcessComponent(vars, varName, inp).Success? && FLAG_STABLE_SHIFT !in vars && inp.flagPresent ==>
              FLAG_STABLE_SHIFT in ProcessComponent(vars, varName, inp).value
              && ProcessComponent(vars, varName, inp).value[FLAG_STABLE_SHIFT] == RecordColumn(inp.flag, map[])
  {
    if ProcessComponent(vars, varName, inp).Success? && FLAG_STABLE_SHIFT !in vars && inp.flagPresent {
      var v1 := ErrorPart(vars, varName, inp).value;
      var v2 := CountFold(v1, varName, COUNT_NAMES, inp.countPresent, inp.counts, 3).value;
      var v3 := FlagStep(v2, varName, inp.flagPresent, inp.flag);
      var r := ShiftFold(v3, varName, SHIFT_SUFFIXES, inp.shifts, 3);
      assert ProcessComponent(vars, varName, inp).value == r;
      assert FLAG_STABLE_SHIFT in v3 && v3[FLAG_STABLE_SHIFT] == RecordColumn(inp.flag, map[]) by {
        FlagKeys(vars, varName, inp, n);
        FlagStepUpdated(v2, varName, inp.flagPresent, inp.flag);
      }
      assert r[FLAG_STABLE_SHIFT] == v3[FLAG_STABLE_SHIFT] by {
        OnceNamesNotDerived(varName);
        assert FLAG_STABLE_SHIFT != varName;
        ShiftFoldUpdated(v3, varName, SHIFT_SUFFIXES, inp.shifts, 3, n);
      }
    }
  }

  // ---------------------------------------------------------------------------
  // process_v_attributes on the records

  /** The flag a record without `flag_stable_shift` contributes. */
  const FLAG_MISSING := AInt(0)

  /** What `process_v_attributes` reads from the accumulated records. */
  function ComponentData(ds: seq<Dataset>, urls: seq<string>, varName: string): (inp: ComponentInputs)
    requires |ds| == |urls| > 0
    ensures Shaped(inp) && InputsOnAxis(inp, |ds|)
  {
    ComponentInputs(
      ErrorColumns(ds, urls, varName),
      seq(|COUNT_NAMES|, k requires 0 <= k < |COUNT_NAMES| => HasAttr(ds[0], varName, COUNT_NAMES[k])),
      seq(|COUNT_NAMES|, k requires 0 <= k < |COUNT_NAMES| => CollectAttr(ds, urls, varName, COUNT_NAMES[k], None, false)),
      varName in ds[0].vars,
      Defaulted(ds, urls, varName, FLAG_STABLE_SHIFT, FLAG_MISSING),
      seq(|SHIFT_SUFFIXES|, k requires 0 <= k < |SHIFT_SUFFIXES| => ShiftColumn(ds, urls, varName, SHIFT_SUFFIXES[k])))
  }

  /** The inputs entry by entry. */
  lemma ComponentDataAt(ds: seq<Dataset>, urls: seq<string>, varName: string)
    requires |ds| == |urls| > 0
    ensures ComponentData(ds, urls, varName).errors == ErrorColumns(ds, urls, varName)
    ensures forall k :: 0 <= k < |COUNT_NAMES| ==>
              ComponentData(ds, urls, varName).countPresent[k] == HasAttr(ds[0], varName, COUNT_NAMES[k])
              && ComponentData(ds, urls, varName).counts[k] == CollectAttr(ds, urls, varName, COUNT_NAMES[k], None, false)
    ensures ComponentData(ds, urls, varName).flagPresent == (varName in ds[0].vars)
    ensures ComponentData(ds, urls, varName).flag == Defaulted(ds, urls, varName, FLAG_STABLE_SHIFT, FLAG_MISSING)
    ensures forall k :: 0 <= k < |SHIFT_SUFFIXES| ==>
              ComponentData(ds, urls, varName).shifts[k] == ShiftColumn(ds, urls, varName, SHIFT_SUFFIXES[k])
  {
  }

  /** `process_v_attributes(varName)` on the cube `vars` built from the
      records `ds` read from `urls`. */
  function VAttributes(vars: Vars, ds: seq<Dataset>, urls: seq<string>, varName: string): (r: Result<Vars, Error>)
    requires varName in vars && |ds| == |urls| > 0
    ensures r.Success? ==> varName in r.value
  {
    ProcessComponent(vars, varName, ComponentData(ds, urls, varName))
  }

  /** The error columns of a velocity component all succeed exactly when,
      for `vx` and `vy`, every record holds the component. */
  lemma ErrorColumnsOk(ds: seq<Dataset>, urls: seq<string>, varName: string)
    requires varName in COMPONENTS && |ds| == |urls| > 0
    ensures (forall i :: 0 <= i < 4 ==> ErrorColumns(ds, urls, varName)[i].Success?) <==>
              (varName in STABLE_RMSE_VARS ==> forall r :: 0 <= r < |ds| ==> varName in ds[r].vars)
    ensures (exists i :: 0 <= i < 4 && ErrorColumns(ds, urls, varName)[i].Failure?) ==>
              ErrorColumns(ds, urls, varName)[0].Failure? && ErrorColumns(ds, urls, varName)[0].error == MissingVariable(varName)
  {
    var cols := ErrorColumns(ds, urls, varName);
    forall i | 0 <= i < 4
      ensures cols[i].Success? <==> (varName in STABLE_RMSE_VARS ==> forall r :: 0 <= r < |ds| ==> varName in ds[r].vars)
      ensures cols[i].Failure? ==> cols[i].error == MissingVariable(varName)
    {
      assert ERROR_PREFIXES[i] in ERROR_PREFIXES;
      ErrorColumnsAt(ds, urls, varName, i);
      DescriptionsKnown(ds[0], varName, ERROR_PREFIXES[i]);
    }
    assert cols[0].Success? <==> (varName in STABLE_RMSE_VARS ==> forall r :: 0 <= r < |ds| ==> varName in ds[r].vars);
  }

  /** A `stable_count*` variable's values are collected exactly when every
      record's component carries the attribute; otherwise the exception
      names a record that lacks it. */
  lemma CountValuesOk(ds: seq<Dataset>, urls: seq<string>, varName: string, k: nat)
    requires |ds| == |urls| > 0 && k < |COUNT_NAMES|
    ensures ComponentData(ds, urls, varName).counts[k].Success? <==>
              forall r :: 0 <= r < |ds| ==> HasAttr(ds[r], varName, COUNT_NAMES[k])
    ensures ComponentData(ds, urls, varName).counts[k].Failure? ==>
              exists r :: 0 <= r < |ds| && !HasAttr(ds[r], varName, COUNT_NAMES[k])
                          && ComponentData(ds, urls, varName).counts[k].error == MissingAttribute(urls[r], varName, COUNT_NAMES[k])
  {
    var c := CollectAttr(ds, urls, varName, COUNT_NAMES[k], None, false);
    assert ComponentData(ds, urls, varName).counts[k] == c;
  }

  /** `process_v_attributes` succeeds exactly when `vx`/`vy` is held by
      every record and each `stable_count*` variable it creates has its
      attribute on every record. */
  lemma VAttributesOutcome(vars: Vars, ds: seq<Dataset>, urls: seq<string>, varName: string)
    requires varName in COMPONENTS && varName in vars && |ds| == |urls| > 0
    ensures VAttributes(vars, ds, urls, varName).Success? <==>
              (varName in STABLE_RMSE_VARS ==> forall r :: 0 <= r < |ds| ==> varName in ds[r].vars)
              && forall k :: 0 <= k < |COUNT_NAMES| && COUNT_NAMES[k] !in vars && HasAttr(ds[0], varName, COUNT_NAMES[k]) ==>
                   forall r :: 0 <= r < |ds| ==> HasAttr(ds[r], varName, COUNT_NAMES[k])
  {
    var inp := ComponentData(ds, urls, varName);
    ErrorsOkIff(ds, urls, varName);
    CountsOkIff(vars, ds, urls, varName);
    OutcomeBridge(vars, varName, inp, |ds|,
                  varName in STABLE_RMSE_VARS ==> forall r :: 0 <= r < |ds| ==> varName in ds[r].vars,
                  forall k :: 0 <= k < |COUNT_NAMES| && COUNT_NAMES[k] !in vars && HasAttr(ds[0], varName, COUNT_NAMES[k]) ==>
                    forall r :: 0 <= r < |ds| ==> HasAttr(ds[r], varName, COUNT_NAMES[k]));
  }

  lemma ErrorsOkIff(ds: seq<Dataset>, urls: seq<string>, varName: string)
    requires varName in COMPONENTS && |ds| == |urls| > 0
    ensures (forall i :: 0 <= i < 4 ==> ComponentData(ds, urls, varName).errors[i].Success?) <==>
              (varName in STABLE_RMSE_VARS ==> forall r :: 0 <= r < |ds| ==> varName in ds[r].vars)
  {
    assert ComponentData(ds, urls, varName).errors == ErrorColumns(ds, urls, varName);
    ErrorColumnsOk(ds, urls, varName);
  }

  lemma CountsOkIff(vars: Vars, ds: seq<Dataset>, urls: seq<string>, varName: string)
    requires |ds| == |urls| > 0
    ensures var inp := ComponentData(ds, urls, varName);
            (forall k :: 0 <= k < 3 && COUNT_NAMES[k] !in vars && inp.countPresent[k] ==> inp.counts[k].Success?) <==>
            forall k :: 0 <= k < |COUNT_NAMES| && COUNT_NAMES[k] !in vars && HasAttr(ds[0], varName, COUNT_NAMES[k]) ==>
              forall r :: 0 <= r < |ds| ==> HasAttr(ds[r], varName, COUNT_NAMES[k])
  {
    var inp := ComponentData(ds, urls, varName);
    forall k | 0 <= k < 3
      ensures inp.countPresent[k] == HasAttr(ds[0], varName, COUNT_NAMES[k])
      ensures inp.counts[k].Success? <==> forall r :: 0 <= r < |ds| ==> HasAttr(ds[r], varName, COUNT_NAMES[k])
    {
      CountValuesOk(ds, urls, varName, k);
    }
  }

  lemma OutcomeBridge(vars: Vars, varName: string, inp: ComponentInputs, n: nat, errorsOk: bool, countsOk: bool)
    requires varName in COMPONENTS && varName in vars && Shaped(inp) && InputsOnAxis(inp, n)
    requires (forall i :: 0 <= i < 4 ==> inp.errors[i].Success?) <==> errorsOk
    requires (forall k :: 0 <= k < 3 && COUNT_NAMES[k] !in vars && inp.countPresent[k] ==> inp.counts[k].Success?) <==> countsOk
    ensures ProcessComponent(vars, varName, inp).Success? <==> errorsOk && countsOk
  {
    ProcessComponentOutcome(vars, varName, inp, n);
  }

  /** The exception: a record without `vx`/`vy` comes first, then a record
      without the attribute of a `stable_count*` variable being created. */
  lemma VAttributesFails(vars: Vars, ds: seq<Dataset>, urls: seq<string>, varName: string)
    requires varName in COMPONENTS && varName in vars && |ds| == |urls| > 0
    ensures varName in STABLE_RMSE_VARS && (exists r :: 0 <= r < |ds| && varName !in ds[r].vars) ==>
              VAttributes(vars, ds, urls, varName) == Failure(MissingVariable(varName))
    ensures VAttributes(vars, ds, urls, varName).Failure?
            && (varName in STABLE_RMSE_VARS ==> forall r :: 0 <= r < |ds| ==> varName in ds[r].vars) ==>
              exists k, r :: 0 <= k < |COUNT_NAMES| && 0 <= r < |ds| && COUNT_NAMES[k] !in vars
                             && HasAttr(ds[0], varName, COUNT_NAMES[k]) && !HasAttr(ds[r], varName, COUNT_NAMES[k])
                             && VAttributes(vars, ds, urls, varName).error == MissingAttribute(urls[r], varName, COUNT_NAMES[k])
  {
    var inp := ComponentData(ds, urls, varName);
    ErrorColumnsOk(ds, urls, varName);
    if varName in STABLE_RMSE_VARS && exists r :: 0 <= r < |ds| && varName !in ds[r].vars {
      ProcessComponentErrorFails(vars, varName, inp);
      var i :| 0 <= i < 4 && inp.errors[i].Failure? && ProcessComponent(vars, varName, inp).error == inp.errors[i].error
               && forall i' :: 0 <= i' < i ==> inp.errors[i'].Success?;
      assert i == 0;
    } else if VAttributes(vars, ds, urls, varName).Failure? {
      ProcessComponentCountFails(vars, varName, inp, |ds|);
      var k :| 0 <= k < 3 && COUNT_NAMES[k] !in vars && inp.countPresent[k] && inp.counts[k].Failure?
               && ProcessComponent(vars, varName, inp).error == inp.counts[k].error;
      CountValuesOk(ds, urls, varName, k);
    }
  }

  /** The `stable_count*` and flag variables a component creates, read off
      the cube and the first record. */
  function OnceCreated(vars: Vars, d0: Dataset, varName: string): set<string> {
    (set k | 0 <= k < |COUNT_NAMES| && COUNT_NAMES[k] !in vars && HasAttr(d0, varName, COUNT_NAMES[k]) :: COUNT_NAMES[k])
    + (if FLAG_STABLE_SHIFT !in vars && varName in d0.vars then {FLAG_STABLE_SHIFT} else {})
  }

  lemma {:induction false} DerivedFirstsSeq(varName: string, suffixes: seq<string>, j: nat)
    requires j <= |suffixes|
    ensures DerivedFirsts(varName, suffixes, j) == set i | 0 <= i < j :: Derived(varName, suffixes[i])
    decreases j
  {
    if j > 0 {
      DerivedFirstsSeq(varName, suffixes, j - 1);
    }
  }

  lemma {:induction false} CountAddedSet(vars: Vars, names: seq<string>, present: seq<bool>, j: nat)
    requires j <= |present| == |names|
    ensures CountAdded(vars, names, present, j) == set k | 0 <= k < j && names[k] !in vars && present[k] :: names[k]
    decreases j
  {
    if j > 0 {
      CountAddedSet(vars, names, present, j - 1);
    }
  }

  /** The seven derived names as a set. */
  lemma DerivedNamesSet(varName: string)
    ensures DerivedFirsts(varName, ERROR_PREFIXES, 4) + DerivedFirsts(varName, SHIFT_SUFFIXES, 3) == set x | x in DerivedNames(varName)
  {
    DerivedFirstsSeq(varName, ERROR_PREFIXES, 4);
    DerivedFirstsSeq(varName, SHIFT_SUFFIXES, 3);
    var dn := DerivedNames(varName);
    forall x | x in dn
      ensures x in (set i | 0 <= i < 4 :: Derived(varName, ERROR_PREFIXES[i])) + (set i | 0 <= i < 3 :: Derived(varName, SHIFT_SUFFIXES[i]))
    {
      var i :| 0 <= i < 7 && dn[i] == x;
      if i < 4 {
        assert dn[..4][i] == x;
      } else {
        assert dn[4..][i - 4] == x;
      }
    }
    forall i | 0 <= i < 4 ensures Derived(varName, ERROR_PREFIXES[i]) in dn {
      assert dn[..4][i] == dn[i];
    }
    forall i | 0 <= i < 3 ensures Derived(varName, SHIFT_SUFFIXES[i]) in dn {
      assert dn[4..][i] == dn[4 + i];
    }
  }

  /** The once-per-batch variables a component creates, in terms of the
      records. */
  lemma OnceCreatedRecords(vars: Vars, ds: seq<Dataset>, urls: seq<string>, varName: string)
    requires |ds| == |urls| > 0
    ensures CountAdded(vars, COUNT_NAMES, ComponentData(ds, urls, varName).countPresent, 3)
            + FlagAdded(vars, ComponentData(ds, urls, varName).flagPresent) == OnceCreated(vars, ds[0], varName)
  {
    var inp := ComponentData(ds, urls, varName);
    assert inp.flagPresent == (varName in ds[0].vars);
    assert forall k :: 0 <= k < 3 ==> inp.countPresent[k] == HasAttr(ds[0], varName, COUNT_NAMES[k]);
    CountAddedSet(vars, COUNT_NAMES, inp.countPresent, 3);
  }

  /** What a component adds, in terms of the records: its seven derived
      variables and the once-per-batch variables it creates. */
  lemma AddedByRecords(vars: Vars, ds: seq<Dataset>, urls: seq<string>, varName: string)
    requires |ds| == |urls| > 0
    ensures AddedBy(vars, varName, ComponentData(ds, urls, varName))
            == (set x | x in DerivedNames(varName)) + OnceCreated(vars, ds[0], varName)
  {
    var inp := ComponentData(ds, urls, varName);
    var e := DerivedFirsts(varName, ERROR_PREFIXES, 4);
    var sh := DerivedFirsts(varName, SHIFT_SUFFIXES, 3);
    var ca := CountAdded(vars, COUNT_NAMES, inp.countPresent, 3);
    var fa := FlagAdded(vars, inp.flagPresent);
    assert AddedBy(vars, varName, inp) == e + ca + fa + sh;
    assert e + sh == set x | x in DerivedNames(varName) by {
      DerivedNamesSet(varName);
    }
    assert ca + fa == OnceCreated(vars, ds[0], varName) by {
      OnceCreatedRecords(vars, ds, urls, varName);
    }
  }

  /** `process_v_attributes` on the records: when it succeeds it adds the
      component's seven derived variables and the once-per-batch variables
      it creates, all on the record axis, strips `RemovedAttrs` from the
      component and keeps every other variable. */
  lemma VAttributesUpdated(vars: Vars, ds: seq<Dataset>, urls: seq<string>, varName: string)
    requires varName in COMPONENTS && varName in vars && |ds| == |urls| > 0
    ensures VAttributes(vars, ds, urls, varName).Success? ==>
              Updated(vars, VAttributes(vars, ds, urls, varName).value, varName,
                      (set x | x in DerivedNames(varName)) + OnceCreated(vars, ds[0], varName), RemovedAttrs(varName), |ds|)
  {
    ProcessComponentUpdated(vars, varName, ComponentData(ds, urls, varName), |ds|);
    AddedByRecords(vars, ds, urls, varName);
  }

  /** Each error variable holds the error column read from the records. */
  lemma VAttributesErrors(vars: Vars, ds: seq<Dataset>, urls: seq<string>, varName: string)
    requires varName in COMPONENTS && varName in vars && |ds| == |urls| > 0
    ensures VAttributes(vars, ds, urls, varName).Success? ==>
              forall i :: 0 <= i < |ERROR_PREFIXES| ==>
                ErrorColumn(ds, urls, varName, ERROR_PREFIXES[i]).Success?
                && Derived(varName, ERROR_PREFIXES[i]) in VAttributes(vars, ds, urls, varName).value
                && VAttributes(vars, ds, urls, varName).value[Derived(varName, ERROR_PREFIXES[i])]
                   == ErrorColumn(ds, urls, varName, ERROR_PREFIXES[i]).value
  {
    var inp := ComponentData(ds, urls, varName);
    ProcessComponentErrors(vars, varName, inp, |ds|);
    assert inp.errors == ErrorColumns(ds, urls, varName);
    forall i | 0 <= i < 4 ensures inp.errors[i] == ErrorColumn(ds, urls, varName, ERROR_PREFIXES[i]) {
      ErrorColumnsAt(ds, urls, varName, i);
    }
  }

  /** Each shift variable holds the shift column read from the records. */
  lemma VAttributesShifts(vars: Vars, ds: seq<Dataset>, urls: seq<string>, varName: string)
    requires varName in vars && |ds| == |urls| > 0
    ensures VAttributes(vars, ds, urls, varName).Success? ==>
              forall i :: 0 <= i < |SHIFT_SUFFIXES| ==>
                Derived(varName, SHIFT_SUFFIXES[i]) in VAttributes(vars, ds, urls, varName).value
                && VAttributes(vars, ds, urls, varName).value[Derived(varName, SHIFT_SUFFIXES[i])]
                   == ShiftColumn(ds, urls, varName, SHIFT_SUFFIXES[i])
  {
    var inp := ComponentData(ds, urls, varName);
    ProcessComponentShifts(vars, varName, inp);
    assert forall i :: 0 <= i < 3 ==> inp.shifts[i] == ShiftColumn(ds, urls, varName, SHIFT_SUFFIXES[i]);
  }

  /** A `stable_count*` or flag variable the cube already holds is left as
      it is. */
  lemma ProcessComponentKeepsOnce(vars: Vars, varName: string, inp: ComponentInputs, n: nat)
    requires varName in COMPONENTS && varName in vars && Shaped(inp) && InputsOnAxis(inp, n)
    ensures ProcessComponent(vars, varName, inp).Success? ==>
              forall x :: x in vars && (x in COUNT_NAMES || x == FLAG_STABLE_SHIFT) ==>
                x in ProcessComponent(vars, varName, inp).value && ProcessComponent(vars, varName, inp).value[x] == vars[x]
  {
    forall x | x in vars && (x in COUNT_NAMES || x == FLAG_STABLE_SHIFT) ensures x !in AddedBy(vars, varName, inp) && x != varName {
      OnceNotAdded(vars, varName, inp, x);
    }
    ProcessComponentUpdated(vars, varName, inp, n);
  }

  lemma OnceNotAdded(vars: Vars, varName: string, inp: ComponentInputs, x: string)
    requires varName in COMPONENTS && Shaped(inp) && x in vars && (x in COUNT_NAMES || x == FLAG_STABLE_SHIFT)
    ensures x !in AddedBy(vars, varName, inp) && x != varName
  {
    OnceNamesNotDerived(varName);
    CountAddedSet(vars, COUNT_NAMES, inp.countPresent, 3);
  }

  /** A `stable_count*` variable is created from the records by the first
      component whose first record carries its attribute ... */
  lemma VAttributesCounts(vars: Vars, ds: seq<Dataset>, urls: seq<string>, varName: string)
    requires varName in COMPONENTS && varName in vars && |ds| == |urls| > 0
    ensures VAttributes(vars, ds, urls, varName).Success? ==>
              forall k :: 0 <= k < |COUNT_NAMES| && COUNT_NAMES[k] !in vars && HasAttr(ds[0], varName, COUNT_NAMES[k]) ==>
                CollectAttr(ds, urls, varName, COUNT_NAMES[k], None, false).Success?
                && COUNT_NAMES[k] in VAttributes(vars, ds, urls, varName).value
                && VAttributes(vars, ds, urls, varName).value[COUNT_NAMES[k]]
                   == RecordColumn(CollectAttr(ds, urls, varName, COUNT_NAMES[k], None, false).value, map[])
  {
    var inp := ComponentData(ds, urls, varName);
    assert forall k :: 0 <= k < 3 ==>
             (inp.countPresent[k] == HasAttr(ds[0], varName, COUNT_NAMES[k])
              && inp.counts[k] == CollectAttr(ds, urls, varName, COUNT_NAMES[k], None, false));
    ProcessComponentCounts(vars, varName, inp, |ds|);
  }

  /** ... and so is the flag variable, by the first component the first
      record holds ... */
  lemma VAttributesFlag(vars: Vars, ds: seq<Dataset>, urls: seq<string>, varName: string)
    requires varName in COMPONENTS && varName in vars && |ds| == |urls| > 0
    ensures VAttributes(vars, ds, urls, varName).Success? && FLAG_STABLE_SHIFT !in vars && varName in ds[0].vars ==>
              FLAG_STABLE_SHIFT in VAttributes(vars, ds, urls, varName).value
              && VAttributes(vars, ds, urls, varName).value[FLAG_STABLE_SHIFT]
                 == RecordColumn(Defaulted(ds, urls, varName, FLAG_STABLE_SHIFT, FLAG_MISSING), map[])
  {
    ProcessComponentFlag(vars, varName, ComponentData(ds, urls, varName), |ds|);
  }

  /** ... and later components never touch them. */
  lemma VAttributesKeepsOnce(vars: Vars, ds: seq<Dataset>, urls: seq<string>, varName: string)
    requires varName in COMPONENTS && varName in vars && |ds| == |urls| > 0
    ensures VAttributes(vars, ds, urls, varName).Success? ==>
              forall x :: x in vars && (x in COUNT_NAMES || x == FLAG_STABLE_SHIFT) ==>
                x in VAttributes(vars, ds, urls, varName).value && VAttributes(vars, ds, urls, varName).value[x] == vars[x]
  {
    ProcessComponentKeepsOnce(vars, varName, ComponentData(ds, urls, varName), |ds|);
  }
}
