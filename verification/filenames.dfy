/** Granule names and locations: `get_tokens_from_filename`, which reads the
    acquisition dates, processing dates and path/row of both images of a
    pair from the `_`-separated granule file name, and the rewrite of a
    granule's HTTP URL into its S3 object path. */
module Filenames {
  import opened Wrappers
  import opened Errors
  import opened Text
  import opened Dates

  /** Image 1 and image 2 of a pair: acquisition date, processing date, path/row. */
  datatype Tokens = Tokens(acq1: Date, proc1: Date, pathRow1: string,
                           acq2: Date, proc2: Date, pathRow2: string)

  /** The `_`-separated tokens of the file name part of a location. */
  function NameTokens(filename: string): (r: seq<string>)
    ensures |r| >= 1
  {
    Split(Basename(filename), '_')
  }

  /** One 'YYYYMMDD' token read with `datetime.strptime(token, '%Y%m%d')`. */
  function DateToken(token: string): (r: Result<Date, Error>)
    ensures r.Success? <==> ParseYmd(token).Some?
    ensures r.Success? ==> ParseYmd(token) == Some(r.value)
    ensures r.Failure? ==> r.error == BadDate(token)
  {
    if ParseYmd(token).Some? then
      Success(ParseYmd(token).value)
    else
      Failure(BadDate(token))
  }

  /** All four date tokens of a name with enough tokens are valid dates. */
  predicate DatesParse(t: seq<string>)
    requires |t| >= 13
  {
    ParseYmd(t[3]).Some? && ParseYmd(t[4]).Some? && ParseYmd(t[11]).Some? && ParseYmd(t[12]).Some?
  }

  /** `get_tokens_from_filename`: the tokens are read in the order of the
      source (3, 4, 2, 11, 12, 10), so the first missing token or the first
      malformed date decides the error. */
  function GetTokensFromFilename(filename: string): (r: Result<Tokens, Error>)
    ensures r.Success? <==> |NameTokens(filename)| >= 13 && DatesParse(NameTokens(filename))
    ensures r.Success? ==>
              ParseYmd(NameTokens(filename)[3]) == Some(r.value.acq1)
              && ParseYmd(NameTokens(filename)[4]) == Some(r.value.proc1)
              && ParseYmd(NameTokens(filename)[11]) == Some(r.value.acq2)
              && ParseYmd(NameTokens(filename)[12]) == Some(r.value.proc2)
              && r.value.pathRow1 == NameTokens(filename)[2]
              && r.value.pathRow2 == NameTokens(filename)[10]
    ensures r.Success? ==> '_' !in r.value.pathRow1 && '_' !in r.value.pathRow2
    ensures |NameTokens(filename)| < 4 ==> r == Failure(TooFewTokens(filename))
    ensures r.Failure? ==> r.error == TooFewTokens(filename) || r.error.BadDate?
  {
    var t := NameTokens(filename);
    if |t| < 4 then Failure(TooFewTokens(filename))
    else
      var acq1 := DateToken(t[3]);
      if acq1.Failure? then Failure(acq1.error)
      else if |t| < 5 then Failure(TooFewTokens(filename))
      else
        var proc1 := DateToken(t[4]);
        if proc1.Failure? then Failure(proc1.error)
        else if |t| < 12 then Failure(TooFewTokens(filename))
        else
          var acq2 := DateToken(t[11]);
          if acq2.Failure? then Failure(acq2.error)
          else if |t| < 13 then Failure(TooFewTokens(filename))
          else
            var proc2 := DateToken(t[12]);
            if proc2.Failure? then Failure(proc2.error)
            else Success(Tokens(acq1.value, proc1.value, t[2], acq2.value, proc2.value, t[10]))
  }

  /** The tokens a well-formed granule name is built from. */
  predicate NameParts(parts: seq<string>, t: Tokens) {
    |parts| >= 13
    && (forall i :: 0 <= i < |parts| ==> '_' !in parts[i] && '/' !in parts[i])
    && ValidDate(t.acq1) && ValidDate(t.proc1) && ValidDate(t.acq2) && ValidDate(t.proc2)
    && parts[2] == t.pathRow1 && parts[3] == FormatYmd(t.acq1) && parts[4] == FormatYmd(t.proc1)
    && parts[10] == t.pathRow2 && parts[11] == FormatYmd(t.acq2) && parts[12] == FormatYmd(t.proc2)
  }

  lemma {:induction false} JoinAvoids(parts: seq<string>, sep: char, c: char)
    requires c != sep
    requires forall i :: 0 <= i < |parts| ==> c !in parts[i]
    ensures c !in Join(parts, sep)
    decreases |parts|
  {
    if |parts| > 1 {
      JoinAvoids(parts[1..], sep, c);
    }
  }

  /** Reading the tokens back from a granule name written from them gives
      them back, whatever directory the granule sits in. */
  lemma TokensOfGranuleName(dir: string, parts: seq<string>, t: Tokens)
    requires NameParts(parts, t)
    ensures GetTokensFromFilename(dir + "/" + Join(parts, '_')) == Success(t)
  {
    var name := Join(parts, '_');
    JoinAvoids(parts, '_', '/');
    BasenameAfterSlash(dir, name);
    SplitJoin(parts, '_');
    assert NameTokens(dir + "/" + name) == parts;
    ParseFormatYmd(t.acq1);
    ParseFormatYmd(t.proc1);
    ParseFormatYmd(t.acq2);
    ParseFormatYmd(t.proc2);
  }

  /** The granule named in the class documentation. */

  const EXAMPLE_PARTS: seq<string> :=
    ["LC08", "L1TP", "011002", "20150821", "20170405", "01", "T1", "X",
     "LC08", "L1TP", "011002", "20150720", "20170406", "01", "T1", "G0240V01", "P038.nc"]

  const EXAMPLE_TOKENS: Tokens :=
    Tokens(Date(2015, 8, 21), Date(2017, 4, 5), "011002", Date(2015, 7, 20), Date(2017, 4, 6), "011002")

  /** LC08_L1TP_011002_20150821_20170405_01_T1_X_LC08_L1TP_011002_20150720_20170406_01_T1_G0240V01_P038.nc */
  const EXAMPLE_NAME: string := Join(EXAMPLE_PARTS, '_')

  lemma ExampleParts()
    ensures NameParts(EXAMPLE_PARTS, EXAMPLE_TOKENS)
  {
    ExampleDates();
    assert ValidDate(Date(2015, 8, 21)) && ValidDate(Date(2017, 4, 5));
    assert ValidDate(Date(2015, 7, 20)) && ValidDate(Date(2017, 4, 6));
    ExampleSeparators();
  }

  lemma ExampleSeparators()
    ensures forall i :: 0 <= i < |EXAMPLE_PARTS| ==> '_' !in EXAMPLE_PARTS[i] && '/' !in EXAMPLE_PARTS[i]
  {
  }

  lemma ExampleDates()
    ensures FormatYmd(Date(2015, 8, 21)) == "20150821" && FormatYmd(Date(2017, 4, 5)) == "20170405"
    ensures FormatYmd(Date(2015, 7, 20)) == "20150720" && FormatYmd(Date(2017, 4, 6)) == "20170406"
  {
    assert Pad4(2015) == "2015" by { assert Pad2(20) == "20" && Pad2(15) == "15"; }
    assert Pad4(2017) == "2017" by { assert Pad2(20) == "20" && Pad2(17) == "17"; }
    assert Pad2(4) == "04" && Pad2(5) == "05" && Pad2(6) == "06";
    assert Pad2(7) == "07" && Pad2(8) == "08" && Pad2(20) == "20" && Pad2(21) == "21";
  }

  /** The documented granule yields the dates and path/rows written in its name. */
  lemma ExampleTokens(dir: string)
    ensures GetTokensFromFilename(dir + "/" + EXAMPLE_NAME) == Success(EXAMPLE_TOKENS)
  {
    ExampleParts();
    TokensOfGranuleName(dir, EXAMPLE_PARTS, EXAMPLE_TOKENS);
  }

  // ---------------------------------------------------------------------------
  // URL to S3 object path

  const HTTP_PREFIX: string := "http://"
  const S3_PREFIX: string := "s3://"
  /** The token that separates the bucket name from the host part of a granule URL. */
  const PATH_URL: string := ".s3.amazonaws.com"

  /** `url.replace(HTTP_PREFIX, S3_PREFIX).replace(PATH_URL, '')`. */
  function S3Path(url: string): string {
    Replace(Replace(url, HTTP_PREFIX, S3_PREFIX), PATH_URL, "")
  }

  lemma FirstRewrite(rest: string)
    requires NoOccurrenceFrom(rest, HTTP_PREFIX, 0)
    ensures Replace(HTTP_PREFIX + rest, HTTP_PREFIX, S3_PREFIX) == S3_PREFIX + rest
  {
    ReplaceAtStart(HTTP_PREFIX, rest, S3_PREFIX);
    ReplaceNone(rest, HTTP_PREFIX, S3_PREFIX);
  }

  lemma SecondRewrite(bucket: string, key: string)
    requires forall i :: 0 <= i < |bucket| ==> !StartsWith((bucket + PATH_URL + key)[i..], PATH_URL)
    requires NoOccurrenceFrom(key, PATH_URL, 0)
    ensures Replace(S3_PREFIX + bucket + PATH_URL + key, PATH_URL, "") == S3_PREFIX + bucket + key
  {
    assert PATH_URL[0] !in S3_PREFIX;
    ReplaceOnceAfter(S3_PREFIX, bucket, PATH_URL, key, "");
  }

  /** 'http://<bucket>.s3.amazonaws.com<key>' becomes 's3://<bucket><key>' when
      neither token appears anywhere else in the URL. */
  lemma S3PathOfBucketUrl(bucket: string, key: string)
    requires NoOccurrenceFrom(bucket + PATH_URL + key, HTTP_PREFIX, 0)
    requires forall i :: 0 <= i < |bucket| ==> !StartsWith((bucket + PATH_URL + key)[i..], PATH_URL)
    requires NoOccurrenceFrom(key, PATH_URL, 0)
    ensures S3Path(HTTP_PREFIX + bucket + PATH_URL + key) == S3_PREFIX + bucket + key
  {
    var rest := bucket + PATH_URL + key;
    assert HTTP_PREFIX + bucket + PATH_URL + key == HTTP_PREFIX + rest;
    FirstRewrite(rest);
    assert S3_PREFIX + rest == S3_PREFIX + bucket + PATH_URL + key;
    SecondRewrite(bucket, key);
  }
}
