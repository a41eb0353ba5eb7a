/** What the two cube drivers read: every granule URL is rewritten to its S3
    path, the granule stored there is opened and pre-processed, and the
    results of a list of URLs are taken in order, the first exception
    stopping the list. The layers that carry data are the ones the
    accumulator takes; the empty ones are logged. */
module Reading {
  import opened Wrappers
  import opened Errors
  import opened Granules
  import opened Filenames
  import opened Preprocess
  import opened Batching

  /** The granule store the drivers read from: S3 path to granule. */
  type Storage = map<string, Dataset>

  /** `read_s3_dataset(url)`: the granule at the URL's S3 path,
      pre-processed; a path the store does not hold, or a granule that does
      not decode to variables spanning its coordinates, raises. */
  function ReadLayer(storage: Storage, url: string, projection: string, box: Box): (r: Result<LayerResult, Error>)
    ensures r.Success? ==> r.value.url == url
    ensures S3Path(url) !in storage ==> r == Failure(CannotOpen(S3Path(url)))
  {
    var path := S3Path(url);
    if path !in storage || !WellFormed(storage[path]) then Failure(CannotOpen(path))
    else PreprocessDataset(storage[path], url, projection, box)
  }

  /** The results of reading `urls` in order, stopped by the first
      exception. */
  function ReadAll(storage: Storage, urls: seq<string>, projection: string, box: Box): (r: Result<seq<LayerResult>, Error>)
    ensures r.Success? ==> |r.value| == |urls|
  {
    MapAll(urls, (u: string) => ReadLayer(storage, u, projection, box))
  }

  /** Reading succeeds exactly when every URL reads, and then yields each
      URL's own result, in order. */
  lemma ReadAllEach(storage: Storage, urls: seq<string>, projection: string, box: Box)
    ensures ReadAll(storage, urls, projection, box).Success? <==>
              forall k :: 0 <= k < |urls| ==> ReadLayer(storage, urls[k], projection, box).Success?
    ensures ReadAll(storage, urls, projection, box).Success? ==>
              forall k :: 0 <= k < |urls| ==>
                ReadAll(storage, urls, projection, box).value[k] == ReadLayer(storage, urls[k], projection, box).value
  {
  }

  /** The exception reading stops with is the one of the first URL that
      does not read. */
  lemma ReadAllFirstFailure(storage: Storage, urls: seq<string>, projection: string, box: Box, j: nat)
    requires j < |urls|
    requires forall k :: 0 <= k < j ==> ReadLayer(storage, urls[k], projection, box).Success?
    requires ReadLayer(storage, urls[j], projection, box).Failure?
    ensures ReadAll(storage, urls, projection, box) == Failure(ReadLayer(storage, urls[j], projection, box).error)
  {
    var f := (u: string) => ReadLayer(storage, u, projection, box);
    var r := MapAll(urls, f);
    var i :| 0 <= i < |urls| && f(urls[i]) == Failure(r.error) && (forall k :: 0 <= k < i ==> f(urls[k]).Success?);
    assert i == j;
  }

  /** One more URL read. */
  lemma ReadAllSnoc(storage: Storage, urls: seq<string>, i: nat, projection: string, box: Box)
    requires i < |urls|
    ensures ReadAll(storage, urls[..i + 1], projection, box) ==
              match ReadAll(storage, urls[..i], projection, box)
              case Failure(e) => Failure(e)
              case Success(rs) =>
                match ReadLayer(storage, urls[i], projection, box)
                case Failure(e) => Failure(e)
                case Success(x) => Success(rs + [x])
  {
    assert urls[..i + 1][..i] == urls[..i];
  }

  /** The URLs of the results that carry data, in order: the layers the
      accumulator takes. */
  function KeptUrls(rs: seq<LayerResult>): (r: seq<string>)
    ensures |r| <= |rs|
    decreases |rs|
  {
    if rs == [] then []
    else
      var last := rs[|rs| - 1];
      KeptUrls(rs[..|rs| - 1]) + (if last.data.Some? then [last.url] else [])
  }

  /** The URLs of the results found empty: the granules logged in
      `skipped_empty_granules`. */
  function EmptyUrls(rs: seq<LayerResult>): (r: seq<string>)
    ensures |r| <= |rs|
    decreases |rs|
  {
    if rs == [] then []
    else
      var last := rs[|rs| - 1];
      EmptyUrls(rs[..|rs| - 1]) + (if last.data.None? && last.isEmpty then [last.url] else [])
  }

  lemma KeptSnoc(rs: seq<LayerResult>, x: LayerResult)
    ensures KeptUrls(rs + [x]) == KeptUrls(rs) + (if x.data.Some? then [x.url] else [])
    ensures EmptyUrls(rs + [x]) == EmptyUrls(rs) + (if x.data.None? && x.isEmpty then [x.url] else [])
  {
    assert (rs + [x])[..|rs|] == rs;
  }

  lemma KeptPrefix(rs: seq<LayerResult>, k: nat)
    requires k < |rs|
    ensures KeptUrls(rs[..k + 1]) == KeptUrls(rs[..k]) + (if rs[k].data.Some? then [rs[k].url] else [])
    ensures EmptyUrls(rs[..k + 1]) == EmptyUrls(rs[..k]) + (if rs[k].data.None? && rs[k].isEmpty then [rs[k].url] else [])
  {
    assert rs[..k + 1] == rs[..k] + [rs[k]];
    KeptSnoc(rs[..k], rs[k]);
  }

  /** A URL is kept exactly when one of the results carrying data is its:
      no layer appears from nowhere and none with data is lost. */
  lemma {:induction false} KeptUrlsAre(rs: seq<LayerResult>, u: string)
    ensures u in KeptUrls(rs) <==> exists k :: 0 <= k < |rs| && rs[k].data.Some? && rs[k].url == u
    decreases |rs|
  {
    if rs != [] {
      var init := rs[..|rs| - 1];
      KeptUrlsAre(init, u);
      if u in KeptUrls(init) {
        var k :| 0 <= k < |init| && init[k].data.Some? && init[k].url == u;
        assert rs[k] == init[k];
      }
      if exists k :: 0 <= k < |rs| && rs[k].data.Some? && rs[k].url == u {
        var k :| 0 <= k < |rs| && rs[k].data.Some? && rs[k].url == u;
        if k < |init| {
          assert init[k] == rs[k];
        }
      }
    }
  }

  /** A result is kept, logged as empty, or neither (set aside for its
      projection), never both: the two lists together are no longer than
      the results. */
  lemma {:induction false} KeptNotEmpty(rs: seq<LayerResult>)
    ensures |KeptUrls(rs)| + |EmptyUrls(rs)| <= |rs|
    decreases |rs|
  {
    if rs != [] {
      KeptNotEmpty(rs[..|rs| - 1]);
    }
  }

  // ---------------------------------------------------------------------------
  // the slices of the parallel driver

  /** Every slice read in turn (`dask.compute` of one slice's tasks), the
      first exception stopping the driver. */
  function ReadSlices(storage: Storage, slices: seq<seq<string>>, projection: string, box: Box): (r: Result<seq<seq<LayerResult>>, Error>)
    ensures r.Success? ==> |r.value| == |slices|
  {
    MapAll(slices, (s: seq<string>) => ReadAll(storage, s, projection, box))
  }

  lemma ReadSlicesSnoc(storage: Storage, slices: seq<seq<string>>, s: seq<string>, projection: string, box: Box)
    ensures ReadSlices(storage, slices + [s], projection, box) ==
              match ReadSlices(storage, slices, projection, box)
              case Failure(e) => Failure(e)
              case Success(rss) =>
                match ReadAll(storage, s, projection, box)
                case Failure(e) => Failure(e)
                case Success(rs) => Success(rss + [rs])
  {
    assert (slices + [s])[..|slices|] == slices;
  }

  /** The URLs each slice contributes to the accumulator. */
  function KeptLists(rss: seq<seq<LayerResult>>): seq<seq<string>>
  {
    seq(|rss|, k requires 0 <= k < |rss| => KeptUrls(rss[k]))
  }

  /** The number of layers each slice contributes. */
  function KeptCounts(rss: seq<seq<LayerResult>>): seq<nat>
  {
    seq(|rss|, k requires 0 <= k < |rss| => |KeptUrls(rss[k])|)
  }

  lemma KeptListsSnoc(rss: seq<seq<LayerResult>>, rs: seq<LayerResult>)
    ensures KeptLists(rss + [rs]) == KeptLists(rss) + [KeptUrls(rs)]
    ensures KeptCounts(rss + [rs]) == KeptCounts(rss) + [|KeptUrls(rs)|]
  {
  }

  /** Reading the slices one after the other reads their concatenation,
      and the URLs each slice keeps, put together, are the URLs the whole
      list keeps. */
  lemma {:induction false} SlicesRead(storage: Storage, slices: seq<seq<string>>, projection: string, box: Box)
    ensures ReadSlices(storage, slices, projection, box).Success? <==> ReadAll(storage, Flatten(slices), projection, box).Success?
    ensures ReadSlices(storage, slices, projection, box).Success? ==>
              && ReadAll(storage, Flatten(slices), projection, box).value == Flatten(ReadSlices(storage, slices, projection, box).value)
              && Flatten(KeptLists(ReadSlices(storage, slices, projection, box).value))
                 == KeptUrls(Flatten(ReadSlices(storage, slices, projection, box).value))
    decreases |slices|
  {
    if slices != [] {
      var init := slices[..|slices| - 1];
      var s := slices[|slices| - 1];
      assert slices == init + [s];
      SlicesRead(storage, init, projection, box);
      ReadSlicesSnoc(storage, init, s, projection, box);
      FlattenSnoc(init, s);
      ReadAllAppend(storage, Flatten(init), s, projection, box);
      var front := ReadSlices(storage, init, projection, box);
      var last := ReadAll(storage, s, projection, box);
      if front.Success? && last.Success? {
        FlattenSnoc(front.value, last.value);
        KeptListsSnoc(front.value, last.value);
        FlattenSnoc(KeptLists(front.value), KeptUrls(last.value));
        KeptAppend(Flatten(front.value), last.value);
      }
    }
  }

  lemma ReadAllAppend(storage: Storage, a: seq<string>, b: seq<string>, projection: string, box: Box)
    ensures ReadAll(storage, a + b, projection, box) ==
              match ReadAll(storage, a, projection, box)
              case Failure(e) => Failure(e)
              case Success(x) =>
                match ReadAll(storage, b, projection, box)
                case Failure(e) => Failure(e)
                case Success(y) => Success(x + y)
  {
    MapAllAppend(a, b, (u: string) => ReadLayer(storage, u, projection, box));
  }

  lemma {:induction false} KeptAppend(rs: seq<LayerResult>, more: seq<LayerResult>)
    ensures KeptUrls(rs + more) == KeptUrls(rs) + KeptUrls(more)
    decreases |more|
  {
    if more == [] {
      assert rs + more == rs;
    } else {
      var init := more[..|more| - 1];
      var x := more[|more| - 1];
      assert rs + more == (rs + init) + [x];
      assert more == init + [x];
      KeptAppend(rs, init);
      KeptSnoc(rs + init, x);
      KeptSnoc(init, x);
    }
  }

  /** The two drivers store the same records in the same order: the
      granule list reads exactly when all of its slices read, and then the
      URLs the slices keep, put together, are the URLs the whole list keeps,
      which the sequential driver writes in slices of NUM_GRANULES_TO_WRITE. */
  lemma DriversAgree(storage: Storage, found: seq<string>, projection: string, box: Box)
    ensures ReadAll(storage, found, projection, box).Success? <==>
              ReadSlices(storage, Slices(found, 0, NUM_GRANULES_TO_WRITE), projection, box).Success?
    ensures ReadAll(storage, found, projection, box).Success? ==>
              && Flatten(NonEmpty(KeptLists(ReadSlices(storage, Slices(found, 0, NUM_GRANULES_TO_WRITE), projection, box).value)))
                 == KeptUrls(ReadAll(storage, found, projection, box).value)
              && Flatten(Chunks(KeptUrls(ReadAll(storage, found, projection, box).value), NUM_GRANULES_TO_WRITE))
                 == KeptUrls(ReadAll(storage, found, projection, box).value)
  {
    var slices := Slices(found, 0, NUM_GRANULES_TO_WRITE);
    SlicesAreChunks(found, 0, NUM_GRANULES_TO_WRITE);
    assert found[0..] == found;
    FlattenChunks(found, NUM_GRANULES_TO_WRITE);
    SlicesRead(storage, slices, projection, box);
    var r := ReadSlices(storage, slices, projection, box);
    if r.Success? {
      NonEmptyFlatten(KeptLists(r.value));
      FlattenChunks(KeptUrls(ReadAll(storage, found, projection, box).value), NUM_GRANULES_TO_WRITE);
    }
  }
}
