/** A granule as the cube builder sees it once xarray has opened it: x and y
    coordinates, named variables with a (y, x) grid of optional values and
    attributes, and global attributes. This module holds the readers the
    builder applies to such a dataset: `get_data_var_attr` with its date
    normalisation, `get_data_var` with its all-missing placeholder, the
    per-granule collection of one value per record and the "one distinct
    value" check. */
module Granules {
  import opened Wrappers
  import opened Errors
  import opened Text
  import opened Dates

  /** An attribute value: a string, a number, an array (one-element arrays
      are what `get_data_var_attr` unwraps) or a converted date and time. */
  datatype AttrValue = AStr(s: string) | AInt(i: int) | AList(items: seq<AttrValue>) | ADateTime(t: DateTime)

  type Attrs = map<string, AttrValue>

  /** Rows follow y and columns follow x; `None` is a missing (NaN) cell. */
  type Grid = seq<seq<Option<int>>>

  datatype Variable = Variable(grid: Grid, attrs: Attrs)

  datatype Dataset = Dataset(x: seq<int>, y: seq<int>, vars: map<string, Variable>, attrs: Attrs)

  /** `g` is a scalar (no cells) or has `ny` rows of `nx` cells. */
  predicate Shaped(g: Grid, ny: nat, nx: nat) {
    g == [] || (|g| == ny && forall r :: 0 <= r < |g| ==> |g[r]| == nx)
  }

  /** The shape xarray guarantees: every gridded variable lies on the
      dataset's own y and x coordinates. */
  predicate WellFormed(ds: Dataset) {
    forall n :: n in ds.vars ==> Shaped(ds.vars[n].grid, |ds.y|, |ds.x|)
  }

  // ---------------------------------------------------------------------------
  // get_data_var_attr

  /** A value whose type has a length and whose length is one is replaced by
      its only element. Strings of one character are their own element. */
  function Unwrap(v: AttrValue): AttrValue {
    if v.AList? && |v.items| == 1 then v.items[0] else v
  }

  /** The string a three-token Sentinel-2 value is rewritten to before parsing:
      'YYYYMMDDTHHMMSST…' becomes 'YYYYMMDDTHH:MM:SS'. */
  function SentinelRewrite(tokens: seq<string>): string
    requires |tokens| == 3
  {
    tokens[0] + "T" + Slice(tokens[1], 0, 2) + ":" + Slice(tokens[1], 2, 4) + ":" + Slice(tokens[1], 4, 6)
  }

  /** The `to_date` conversion of `get_data_var_attr`. A value that is not a
      string has no `split` and raises; a string with two 'T's is rewritten
      and parsed with '%Y%m%dT%H:%M:%S'; otherwise an 8-character string is
      parsed as '%Y%m%d', a longer one as '%Y%m%dT%H:%M:%S', and a shorter one
      is returned as it is. A failed parse raises. */
  function ToDate(url: string, varName: string, attrName: string, v: AttrValue): (r: Result<AttrValue, Error>)
    ensures !v.AStr? ==> r == Failure(NotAString(varName, attrName))
    ensures r.Success? ==> r.value.ADateTime? || (r.value == v && |v.s| < 8 && |Split(v.s, 'T')| != 3)
    ensures r.Failure? ==> r.error.NotAString? || r.error.DateConversion?
  {
    if !v.AStr? then Failure(NotAString(varName, attrName))
    else
      var s := v.s;
      var tokens := Split(s, 'T');
      if |tokens| == 3 then
        var t := SentinelRewrite(tokens);
        match ParseYmdHms(t)
        case Some(dt) => Success(ADateTime(dt))
        case None => Failure(DateConversion(url, t))
      else if |s| == 8 then
        match ParseYmd(s[0..8])
        case Some(d) => Success(ADateTime(Midnight(d)))
        case None => Failure(DateConversion(url, s))
      else if |s| > 8 then
        match ParseYmdHms(s)
        case Some(dt) => Success(ADateTime(dt))
        case None => Failure(DateConversion(url, s))
      else Success(v)
  }

  /** Whether `varName` carries the attribute `attrName`. */
  predicate HasAttr(ds: Dataset, varName: string, attrName: string) {
    varName in ds.vars && attrName in ds.vars[varName].attrs
  }

  /** `get_data_var_attr(ds, url, var, attr, missing_value, to_date)`. */
  function GetDataVarAttr(ds: Dataset, url: string, varName: string, attrName: string,
                          missing: Option<AttrValue>, toDate: bool): (r: Result<AttrValue, Error>)
    ensures HasAttr(ds, varName, attrName) && !toDate ==>
              r == Success(Unwrap(ds.vars[varName].attrs[attrName]))
    ensures HasAttr(ds, varName, attrName) && toDate ==>
              r == ToDate(url, varName, attrName, Unwrap(ds.vars[varName].attrs[attrName]))
    ensures !HasAttr(ds, varName, attrName) ==>
              r == if missing.None? then Failure(MissingAttribute(url, varName, attrName)) else Success(missing.value)
  {
    if varName in ds.vars && attrName in ds.vars[varName].attrs then
      var value := Unwrap(ds.vars[varName].attrs[attrName]);
      if toDate then ToDate(url, varName, attrName, value) else Success(value)
    else if missing.None? then
      Failure(MissingAttribute(url, varName, attrName))
    else
      Success(missing.value)
  }

  // ---------------------------------------------------------------------------
  // the date shapes get_data_var_attr accepts

  lemma SplitWithout(s: string, sep: char)
    requires sep !in s
    ensures Split(s, sep) == [s]
  {
    SplitJoin([s], sep);
  }

  lemma DigitsNoT(s: string)
    requires AllDigits(s)
    ensures 'T' !in s && ':' !in s
  {
    assert forall i :: 0 <= i < |s| ==> s[i] != 'T' && s[i] != ':';
  }

  /** 'YYYYMMDD' converts to midnight of that day. */
  lemma ToDateOfYmd(url: string, varName: string, attrName: string, d: Date)
    requires ValidDate(d)
    ensures ToDate(url, varName, attrName, AStr(FormatYmd(d))) == Success(ADateTime(Midnight(d)))
  {
    var s := FormatYmd(d);
    DigitsNoT(s);
    SplitWithout(s, 'T');
    assert s[0..8] == s;
    ParseFormatYmd(d);
  }

  /** 'YYYYMMDDTHH:MM:SS' converts to that date and time. */
  lemma ToDateOfYmdHms(url: string, varName: string, attrName: string, t: DateTime)
    requires ValidDateTime(t)
    ensures ToDate(url, varName, attrName, AStr(FormatYmdHms(t))) == Success(ADateTime(t))
  {
    var a := FormatYmd(t.date);
    var b := Pad2(t.hour) + ":" + Pad2(t.minute) + ":" + Pad2(t.second);
    DigitsNoT(a);
    DigitsNoT(Pad2(t.hour));
    DigitsNoT(Pad2(t.minute));
    DigitsNoT(Pad2(t.second));
    assert 'T' !in b;
    assert FormatYmdHms(t) == Join([a, b], 'T');
    SplitJoin([a, b], 'T');
    ParseFormatYmdHms(t);
  }

  /** The Sentinel-2 form 'YYYYMMDDTHHMMSST…' (a second 'T' followed by
      anything without a 'T') converts to the date and time of its first two
      tokens. */
  lemma ToDateOfSentinel(url: string, varName: string, attrName: string, t: DateTime, rest: string)
    requires ValidDateTime(t) && 'T' !in rest
    ensures ToDate(url, varName, attrName,
                   AStr(FormatYmd(t.date) + "T" + Pad2(t.hour) + Pad2(t.minute) + Pad2(t.second) + "T" + rest))
            == Success(ADateTime(t))
  {
    var a := FormatYmd(t.date);
    var hms := Pad2(t.hour) + Pad2(t.minute) + Pad2(t.second);
    DigitsNoT(a);
    DigitsNoT(Pad2(t.hour));
    DigitsNoT(Pad2(t.minute));
    DigitsNoT(Pad2(t.second));
    assert 'T' !in hms;
    assert [a, hms, rest][1..] == [hms, rest] && [hms, rest][1..] == [rest];
    assert Join([hms, rest], 'T') == hms + "T" + rest;
    assert a + "T" + Pad2(t.hour) + Pad2(t.minute) + Pad2(t.second) + "T" + rest == Join([a, hms, rest], 'T');
    SplitJoin([a, hms, rest], 'T');
    assert hms[0..2] == Pad2(t.hour) && hms[2..4] == Pad2(t.minute) && hms[4..6] == Pad2(t.second);
    assert SentinelRewrite([a, hms, rest]) == FormatYmdHms(t);
    ParseFormatYmdHms(t);
  }

  /** A string shorter than a date that is not in the three-token form comes
      back unconverted. */
  lemma ToDateOfShort(url: string, varName: string, attrName: string, s: string)
    requires |s| < 8 && |Split(s, 'T')| != 3
    ensures ToDate(url, varName, attrName, AStr(s)) == Success(AStr(s))
  {
  }

  /** A one-element array holding a date string is unwrapped and converted. */
  lemma GetDataVarAttrUnwrapsDate(ds: Dataset, url: string, varName: string, attrName: string, d: Date)
    requires ValidDate(d)
    requires varName in ds.vars && attrName in ds.vars[varName].attrs
    requires ds.vars[varName].attrs[attrName] == AList([AStr(FormatYmd(d))])
    ensures GetDataVarAttr(ds, url, varName, attrName, None, true) == Success(ADateTime(Midnight(d)))
  {
    ToDateOfYmd(url, varName, attrName, d);
  }

  // ---------------------------------------------------------------------------
  // get_data_var

  /** The all-missing array of shape (len(grid_y), len(grid_x)). */
  function Placeholder(ny: nat, nx: nat): (g: Grid)
    ensures Shaped(g, ny, nx) && |g| == ny
    ensures forall r, c :: 0 <= r < ny && 0 <= c < nx ==> g[r][c] == None
  {
    seq(ny, _ => seq(nx, _ => None))
  }

  /** `get_data_var(ds, name)`: the variable if the granule has it, otherwise
      an attribute-less placeholder on the cube's grid. */
  function GetDataVar(ds: Dataset, name: string, gridX: seq<int>, gridY: seq<int>): (v: Variable)
    ensures name in ds.vars ==> v == ds.vars[name]
    ensures name !in ds.vars ==>
              v.attrs == map[] && |v.grid| == |gridY|
              && (forall r :: 0 <= r < |gridY| ==> |v.grid[r]| == |gridX|)
              && forall r, c :: 0 <= r < |gridY| && 0 <= c < |gridX| ==> v.grid[r][c] == None
  {
    if name in ds.vars then ds.vars[name] else Variable(Placeholder(|gridY|, |gridX|), map[])
  }

  // ---------------------------------------------------------------------------
  // one value per record

  /** A list comprehension over the records: the values in order, or the
      exception of the first record whose value raises. */
  function MapAll<A, B>(xs: seq<A>, f: A -> Result<B, Error>): (r: Result<seq<B>, Error>)
    ensures r.Success? <==> forall i :: 0 <= i < |xs| ==> f(xs[i]).Success?
    ensures r.Success? ==> |r.value| == |xs| && forall i :: 0 <= i < |xs| ==> f(xs[i]) == Success(r.value[i])
    ensures r.Failure? ==>
              exists i :: 0 <= i < |xs| && f(xs[i]) == Failure(r.error) && (forall j :: 0 <= j < i ==> f(xs[j]).Success?)
    decreases |xs|
  {
    if xs == [] then Success([])
    else
      var init := xs[..|xs| - 1];
      assert forall i :: 0 <= i < |init| ==> init[i] == xs[i];
      match MapAll(init, f)
      case Failure(e) => Failure(e)
      case Success(vs) =>
        match f(xs[|xs| - 1])
        case Failure(e) => Failure(e)
        case Success(v) => Success(vs + [v])
  }

  /** A comprehension over two lists put together is the two
      comprehensions put together, the first exception winning. */
  lemma {:induction false} MapAllAppend<A, B>(xs: seq<A>, ys: seq<A>, f: A -> Result<B, Error>)
    ensures MapAll(xs + ys, f) ==
              match MapAll(xs, f)
              case Failure(e) => Failure(e)
              case Success(vs) =>
                match MapAll(ys, f)
                case Failure(e) => Failure(e)
                case Success(us) => Success(vs + us)
    decreases |ys|
  {
    if ys == [] {
      assert xs + ys == xs;
      assert MapAll(ys, f) == Success([]);
      if MapAll(xs, f).Success? {
        assert MapAll(xs, f).value + [] == MapAll(xs, f).value;
      }
    } else {
      var init := ys[..|ys| - 1];
      var y := ys[|ys| - 1];
      MapAllAppend(xs, init, f);
      assert (xs + ys)[..|xs + ys| - 1] == xs + init;
      assert (xs + ys)[|xs + ys| - 1] == y;
      if MapAll(xs, f).Success? && MapAll(init, f).Success? && f(y).Success? {
        var vs, us, v := MapAll(xs, f).value, MapAll(init, f).value, f(y).value;
        assert vs + (us + [v]) == (vs + us) + [v];
      }
    }
  }

  /** `zip(self.ds, self.urls)`. */
  function Zip(ds: seq<Dataset>, urls: seq<string>): (r: seq<(Dataset, string)>)
    requires |ds| == |urls|
    ensures |r| == |ds| && forall i :: 0 <= i < |r| ==> r[i] == (ds[i], urls[i])
  {
    seq(|ds|, i requires 0 <= i < |ds| => (ds[i], urls[i]))
  }

  /** `[get_data_var_attr(ds, url, var, attr, missing, to_date) for ds, url in zip(...)]`. */
  function CollectAttr(ds: seq<Dataset>, urls: seq<string>, varName: string, attrName: string,
                       missing: Option<AttrValue>, toDate: bool): (r: Result<seq<AttrValue>, Error>)
    requires |ds| == |urls|
    ensures r.Success? <==> forall i :: 0 <= i < |ds| ==> GetDataVarAttr(ds[i], urls[i], varName, attrName, missing, toDate).Success?
    ensures r.Success? ==> |r.value| == |ds|
    ensures r.Success? ==>
              forall i :: 0 <= i < |ds| ==> GetDataVarAttr(ds[i], urls[i], varName, attrName, missing, toDate) == Success(r.value[i])
    ensures r.Failure? ==>
              exists i :: 0 <= i < |ds| && GetDataVarAttr(ds[i], urls[i], varName, attrName, missing, toDate) == Failure(r.error)
  {
    MapAll(Zip(ds, urls), (p: (Dataset, string)) => GetDataVarAttr(p.0, p.1, varName, attrName, missing, toDate))
  }

  /** A global attribute read with `ds.attrs[name]`. */
  function GlobalAttr(ds: Dataset, name: string): (r: Result<AttrValue, Error>)
    ensures r.Success? <==> name in ds.attrs
    ensures r.Success? ==> r.value == ds.attrs[name]
  {
    if name in ds.attrs then Success(ds.attrs[name]) else Failure(MissingGlobalAttribute(name))
  }

  /** An attribute of a variable read with `ds.var.attrs[name]`. */
  function VarAttr(ds: Dataset, varName: string, attrName: string): (r: Result<AttrValue, Error>)
    ensures r.Success? <==> HasAttr(ds, varName, attrName)
    ensures r.Success? ==> r.value == ds.vars[varName].attrs[attrName]
  {
    if varName !in ds.vars then Failure(MissingVariable(varName))
    else if attrName !in ds.vars[varName].attrs then Failure(MissingAttribute("", varName, attrName))
    else Success(ds.vars[varName].attrs[attrName])
  }

  // ---------------------------------------------------------------------------
  // list(set(values))

  /** The distinct values of a list, as `set(values)` collects them. */
  function Distinct<T>(values: seq<T>): set<T> {
    set i | 0 <= i < |values| :: values[i]
  }

  /** The consistency checks raise when `len(set(values)) > 1`: there is at
      most one distinct value exactly when all values are equal. */
  lemma DistinctAtMostOne<T>(values: seq<T>)
    ensures |Distinct(values)| <= 1 <==> forall i, j :: 0 <= i < |values| && 0 <= j < |values| ==> values[i] == values[j]
  {
    var d := Distinct(values);
    if |values| > 0 {
      if forall i, j :: 0 <= i < |values| && 0 <= j < |values| ==> values[i] == values[j] {
        assert d == {values[0]};
      } else {
        var i, j :| 0 <= i < |values| && 0 <= j < |values| && values[i] != values[j];
        assert {values[i], values[j]} <= d;
        assert |{values[i], values[j]}| == 2;
        SubsetSize({values[i], values[j]}, d);
      }
    } else {
      assert d == {};
    }
  }

  lemma SubsetSize<T>(a: set<T>, b: set<T>)
    requires a <= b
    ensures |a| <= |b|
  {
    assert b == a + (b - a);
  }
}
