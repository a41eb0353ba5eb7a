/** What `skip_duplicate_granules` keeps. Granules are grouped by their
    pair key (acquisition date and path/row of both images); within a group
    only the granules whose processing-date pair is the greatest survive,
    ties included, and the groups come out in the order their keys were
    first seen. The imperative filter in the cube class is proved to return
    `Expected(found)`. */
module Dedup {
  import opened Wrappers
  import opened Dates
  import opened Errors
  import opened Filenames
  import Text

  /** The granule id the filter groups by: acquisition date and path/row of
      image 1 and image 2. */
  datatype PairKey = PairKey(acq1: Date, pathRow1: string, acq2: Date, pathRow2: string)

  /** The processing dates of image 1 and image 2. */
  datatype ProcPair = ProcPair(proc1: Date, proc2: Date)

  /** A granule URL with the two things the filter reads from its name. */
  datatype Granule = Granule(url: string, key: PairKey, proc: ProcPair)

  /** The record of one URL, or the tokenizer's error. */
  function EntryOf(u: string): (r: Result<Granule, Error>)
    ensures r.Success? ==> r.value.url == u
  {
    var t :- GetTokensFromFilename(u);
    Success(Granule(u, PairKey(t.acq1, t.pathRow1, t.acq2, t.pathRow2), ProcPair(t.proc1, t.proc2)))
  }

  /** The URLs of a sequence of granule records. */
  function Urls(s: seq<Granule>): (r: seq<string>)
    ensures |r| == |s| && forall i :: 0 <= i < |s| ==> r[i] == s[i].url
  {
    if s == [] then [] else Urls(s[..|s| - 1]) + [s[|s| - 1].url]
  }

  lemma UrlsConcat(a: seq<Granule>, b: seq<Granule>)
    ensures Urls(a + b) == Urls(a) + Urls(b)
  {
  }

  /** The records of `found` in order, or the error of the first URL whose
      name cannot be tokenized. */
  function Entries(found: seq<string>): (r: Result<seq<Granule>, Error>)
    ensures r.Success? ==> Urls(r.value) == found
  {
    if found == [] then Success([])
    else
      var init :- Entries(found[..|found| - 1]);
      var last :- EntryOf(found[|found| - 1]);
      assert Urls(init + [last]) == found by {
        assert found == found[..|found| - 1] + [found[|found| - 1]];
        UrlsConcat(init, [last]);
      }
      Success(init + [last])
  }

  // ---------------------------------------------------------------------------
  // the replacement test

  /** Chronological order is a strict total order on dates. */
  lemma BeforeOrder(a: Date, b: Date, c: Date)
    ensures !Before(a, a)
    ensures a == b || Before(a, b) || Before(b, a)
    ensures Before(a, b) && Before(b, c) ==> Before(a, c)
  {
  }

  /** Lexicographic order on (proc1, proc2): `q` is newer than `p`. */
  predicate LexGreater(q: ProcPair, p: ProcPair) {
    Before(p.proc1, q.proc1) || (q.proc1 == p.proc1 && Before(p.proc2, q.proc2))
  }

  /** The source's test for dropping a kept granule `p` in favour of a newcomer
      `q`: both processing dates at least as new, or the first one strictly newer. */
  predicate Replaces(q: ProcPair, p: ProcPair) {
    ((q.proc1 == p.proc1 || Before(p.proc1, q.proc1)) && (q.proc2 == p.proc2 || Before(p.proc2, q.proc2)))
    || Before(p.proc1, q.proc1)
  }

  /** The test is only reached for date pairs that differ from the kept ones,
      and there it is exactly the strict lexicographic order. */
  lemma ReplacesIsLex(q: ProcPair, p: ProcPair)
    requires q != p
    ensures Replaces(q, p) <==> LexGreater(q, p)
  {
    BeforeOrder(q.proc1, p.proc1, q.proc1);
    BeforeOrder(q.proc2, p.proc2, q.proc2);
  }

  /** A newer proc1 replaces even when its proc2 is older. */
  lemma NewerProc1Replaces(q: ProcPair, p: ProcPair)
    requires Before(p.proc1, q.proc1) && Before(q.proc2, p.proc2)
    ensures Replaces(q, p) && !Replaces(p, q)
  {
    BeforeOrder(q.proc1, p.proc1, q.proc1);
  }

  lemma LexOrder(p: ProcPair, q: ProcPair, r: ProcPair)
    ensures !LexGreater(p, p)
    ensures p == q || LexGreater(p, q) || LexGreater(q, p)
    ensures !(LexGreater(p, q) && LexGreater(q, p))
    ensures LexGreater(p, q) && LexGreater(q, r) ==> LexGreater(p, r)
  {
    BeforeOrder(p.proc1, q.proc1, r.proc1);
    BeforeOrder(q.proc1, p.proc1, r.proc1);
    BeforeOrder(p.proc2, q.proc2, r.proc2);
    BeforeOrder(q.proc2, p.proc2, r.proc2);
    BeforeOrder(r.proc1, q.proc1, p.proc1);
    BeforeOrder(r.proc2, q.proc2, p.proc2);
  }

  function MaxOf(p: ProcPair, q: ProcPair): ProcPair {
    if LexGreater(q, p) then q else p
  }

  // ---------------------------------------------------------------------------
  // the specification

  /** Some granule of `s` has pair key `k`. */
  predicate HasKey(s: seq<Granule>, k: PairKey)
  {
    s != [] && (s[|s| - 1].key == k || HasKey(s[..|s| - 1], k))
  }

  lemma {:induction false} HasKeyIff(s: seq<Granule>, k: PairKey)
    ensures HasKey(s, k) <==> exists i :: 0 <= i < |s| && s[i].key == k
    decreases |s|
  {
    if s != [] {
      var init := s[..|s| - 1];
      HasKeyIff(init, k);
      if HasKey(init, k) {
        var i :| 0 <= i < |init| && init[i].key == k;
        assert s[i] == init[i];
      }
      if exists i :: 0 <= i < |s| && s[i].key == k {
        var i :| 0 <= i < |s| && s[i].key == k;
        if i < |init| {
          assert init[i] == s[i];
        }
      }
    }
  }

  lemma HasKeyAt(s: seq<Granule>, i: nat)
    requires i < |s|
    ensures HasKey(s, s[i].key)
  {
    HasKeyIff(s, s[i].key);
  }

  /** The newest processing-date pair among the granules of `s` with key `k`. */
  function MaxProc(s: seq<Granule>, k: PairKey): ProcPair
    requires HasKey(s, k)
    decreases |s|
  {
    var init := s[..|s| - 1];
    var u := s[|s| - 1];
    if u.key != k then MaxProc(init, k)
    else if !HasKey(init, k) then u.proc
    else MaxOf(MaxProc(init, k), u.proc)
  }

  /** The granules of `s` with key `k` and processing dates `p`, in input order. */
  function Select(s: seq<Granule>, k: PairKey, p: ProcPair): (r: seq<Granule>)
    ensures forall x :: x in r ==> x in s && x.key == k && x.proc == p
    ensures forall i :: 0 <= i < |s| && s[i].key == k && s[i].proc == p ==> s[i] in r
    decreases |s|
  {
    if s == [] then []
    else
      var init := s[..|s| - 1];
      var u := s[|s| - 1];
      var r0 := Select(init, k, p);
      assert forall i :: 0 <= i < |init| ==> init[i] == s[i];
      if u.key == k && u.proc == p then r0 + [u] else r0
  }

  /** The group of key `k` that the filter keeps. */
  function Kept(s: seq<Granule>, k: PairKey): seq<Granule>
    requires HasKey(s, k)
  {
    Select(s, k, MaxProc(s, k))
  }

  /** The distinct pair keys of `s` in the order of their first occurrence. */
  function FirstSeen(s: seq<Granule>): (r: seq<PairKey>)
    ensures forall k :: k in r <==> HasKey(s, k)
    ensures forall i, j :: 0 <= i < j < |r| ==> r[i] != r[j]
    decreases |s|
  {
    if s == [] then []
    else
      var f := FirstSeen(s[..|s| - 1]);
      var k := s[|s| - 1].key;
      if k in f then f else f + [k]
  }

  /** The groups of `g` named by `ks`, concatenated in the order of `ks`. */
  function Flat<T>(ks: seq<PairKey>, g: map<PairKey, seq<T>>): seq<T>
    requires forall k :: k in ks ==> k in g
    decreases |ks|
  {
    if ks == [] then []
    else Flat(ks[..|ks| - 1], g) + g[ks[|ks| - 1]]
  }

  lemma FlatPrefix<T>(ks: seq<PairKey>, j: nat, g: map<PairKey, seq<T>>)
    requires j < |ks| && forall k :: k in ks ==> k in g
    ensures Flat(ks[..j + 1], g) == Flat(ks[..j], g) + g[ks[j]]
  {
    assert ks[..j + 1][..j] == ks[..j];
  }

  function KeptMap(s: seq<Granule>): map<PairKey, seq<Granule>>
  {
    map k | k in FirstSeen(s) :: Kept(s, k)
  }

  /** The list the filter returns for `s`. */
  function Expected(s: seq<Granule>): seq<Granule>
  {
    Flat(FirstSeen(s), KeptMap(s))
  }

  // ---------------------------------------------------------------------------
  // facts about the newest pair and the kept groups

  lemma SnocParts(s: seq<Granule>)
    requires s != []
    ensures s == s[..|s| - 1] + [s[|s| - 1]]
  {
  }

  /** The newest pair is attained by a granule of the group and no granule of
      the group is newer. */
  lemma {:induction false} MaxProcBounds(s: seq<Granule>, k: PairKey)
    requires HasKey(s, k)
    ensures exists i :: 0 <= i < |s| && s[i].key == k && s[i].proc == MaxProc(s, k)
    ensures forall i :: 0 <= i < |s| && s[i].key == k ==>
              s[i].proc == MaxProc(s, k) || LexGreater(MaxProc(s, k), s[i].proc)
    decreases |s|
  {
    var init := s[..|s| - 1];
    var n := |s| - 1;
    var u := s[n];
    assert forall i :: 0 <= i < |init| ==> init[i] == s[i];
    if u.key != k {
      MaxProcBounds(init, k);
    } else if !HasKey(init, k) {
      HasKeyIff(init, k);
    } else {
      MaxProcBounds(init, k);
      var m0 := MaxProc(init, k);
      var m := MaxProc(s, k);
      forall i | 0 <= i < |s| && s[i].key == k
        ensures s[i].proc == m || LexGreater(m, s[i].proc)
      {
        if i < n {
          LexOrder(u.proc, m0, s[i].proc);
          LexOrder(m0, u.proc, s[i].proc);
        }
      }
      if m == u.proc {
        assert s[n].key == k && s[n].proc == m;
      } else {
        var j :| 0 <= j < |init| && init[j].key == k && init[j].proc == m0;
        assert s[j].key == k && s[j].proc == m;
      }
    }
  }

  /** A kept group is non-empty, and all its granules carry the group's key
      and the newest pair: within a group one date pair is shared. */
  lemma KeptShape(s: seq<Granule>, k: PairKey)
    requires HasKey(s, k)
    ensures |Kept(s, k)| > 0
    ensures forall x :: x in Kept(s, k) ==> x in s && x.key == k && x.proc == MaxProc(s, k)
  {
    MaxProcBounds(s, k);
  }

  lemma {:induction false} SelectConcat(a: seq<Granule>, b: seq<Granule>, k: PairKey, p: ProcPair)
    ensures Select(a + b, k, p) == Select(a, k, p) + Select(b, k, p)
    decreases |b|
  {
    assert forall i :: 0 <= i < |a + b| ==> (a + b)[i] == if i < |a| then a[i] else b[i - |a|];
    if b == [] {
      assert a + b == a;
    } else {
      var b0 := b[..|b| - 1];
      assert forall i :: 0 <= i < |b0| ==> b0[i] == b[i];
      SelectConcat(a, b0, k, p);
      assert (a + b)[..|a + b| - 1] == a + b0;
      assert (a + b)[|a + b| - 1] == b[|b| - 1];
    }
  }

  lemma {:induction false} SelectNone(s: seq<Granule>, k: PairKey, p: ProcPair)
    requires forall i :: 0 <= i < |s| ==> s[i].key != k || s[i].proc != p
    ensures Select(s, k, p) == []
  {
    if Select(s, k, p) != [] {
      assert Select(s, k, p)[0] in Select(s, k, p);
    }
  }

  lemma {:induction false} SelectAll(s: seq<Granule>, k: PairKey, p: ProcPair)
    requires forall i :: 0 <= i < |s| ==> s[i].key == k && s[i].proc == p
    ensures Select(s, k, p) == s
    decreases |s|
  {
    if s != [] {
      var init := s[..|s| - 1];
      forall i | 0 <= i < |init| ensures init[i].key == k && init[i].proc == p {
        assert init[i] == s[i];
      }
      SelectAll(init, k, p);
      assert s == init + [s[|s| - 1]];
    }
  }

  /** How one more granule `u` changes the kept group of key `k`: the
      cases of the loop body of the filter. */
  lemma KeptStep(p: seq<Granule>, u: Granule, k: PairKey)
    ensures HasKey(p + [u], k) == (HasKey(p, k) || u.key == k)
    ensures u.key != k && HasKey(p, k) ==> Kept(p + [u], k) == Kept(p, k)
    ensures u.key == k && !HasKey(p, k) ==> Kept(p + [u], k) == [u]
    ensures u.key == k && HasKey(p, k) && u.proc == MaxProc(p, k) ==>
              MaxProc(p + [u], k) == MaxProc(p, k) && Kept(p + [u], k) == Kept(p, k) + [u]
    ensures u.key == k && HasKey(p, k) && LexGreater(u.proc, MaxProc(p, k)) ==>
              MaxProc(p + [u], k) == u.proc && Kept(p + [u], k) == [u]
    ensures u.key == k && HasKey(p, k) && LexGreater(MaxProc(p, k), u.proc) ==>
              MaxProc(p + [u], k) == MaxProc(p, k) && Kept(p + [u], k) == Kept(p, k)
  {
    var s := p + [u];
    assert s[..|s| - 1] == p && s[|s| - 1] == u;
    if u.key == k && !HasKey(p, k) {
      HasKeyIff(p, k);
      SelectNone(p, k, u.proc);
    }
    if u.key == k && HasKey(p, k) {
      LexOrder(MaxProc(p, k), u.proc, u.proc);
      if LexGreater(u.proc, MaxProc(p, k)) {
        MaxProcBounds(p, k);
        forall i | 0 <= i < |p| ensures p[i].key != k || p[i].proc != u.proc {
          if p[i].key == k {
            LexOrder(u.proc, MaxProc(p, k), p[i].proc);
          }
        }
        SelectNone(p, k, u.proc);
      }
    }
  }

  // ---------------------------------------------------------------------------
  // facts about the concatenation of groups

  lemma {:induction false} FlatAgree<T>(ks: seq<PairKey>, g1: map<PairKey, seq<T>>, g2: map<PairKey, seq<T>>)
    requires forall k :: k in ks ==> k in g1 && k in g2 && g1[k] == g2[k]
    ensures Flat(ks, g1) == Flat(ks, g2)
    decreases |ks|
  {
    if ks != [] {
      FlatAgree(ks[..|ks| - 1], g1, g2);
    }
  }

  lemma {:induction false} FlatMembers<T>(ks: seq<PairKey>, g: map<PairKey, seq<T>>, x: T)
    requires forall k :: k in ks ==> k in g
    ensures x in Flat(ks, g) <==> exists k :: k in ks && x in g[k]
    decreases |ks|
  {
    if ks != [] {
      var init := ks[..|ks| - 1];
      FlatMembers(init, g, x);
      assert forall k :: k in ks <==> k in init || k == ks[|ks| - 1];
    }
  }

  /** Replacing one group of distinct keys changes the multiset of the
      concatenation by exactly the two groups. */
  lemma {:induction false} FlatUpdate<T>(ks: seq<PairKey>, g: map<PairKey, seq<T>>, k: PairKey, v: seq<T>)
    requires forall j :: j in ks ==> j in g
    requires forall i, j :: 0 <= i < j < |ks| ==> ks[i] != ks[j]
    requires k in ks
    ensures multiset(Flat(ks, g[k := v])) + multiset(g[k]) == multiset(Flat(ks, g)) + multiset(v)
    decreases |ks|
  {
    var gk := g[k := v];
    var init := ks[..|ks| - 1];
    var last := ks[|ks| - 1];
    assert Flat(ks, gk) == Flat(init, gk) + gk[last];
    assert Flat(ks, g) == Flat(init, g) + g[last];
    if last == k {
      assert ks == init + [last];
      assert k !in init;
      FlatAgree(init, gk, g);
    } else {
      assert k in init by { assert ks == init + [last]; }
      FlatUpdate(init, g, k, v);
      assert gk[last] == g[last];
      AddBoth(multiset(Flat(init, gk)), multiset(g[k]), multiset(Flat(init, g)), multiset(v), multiset(g[last]));
    }
  }

  lemma AddBoth<T>(a: multiset<T>, b: multiset<T>, c: multiset<T>, d: multiset<T>, e: multiset<T>)
    requires a + b == c + d
    ensures (a + e) + b == (c + e) + d
  {
    assert (a + e) + b == (a + b) + e;
    assert (c + e) + d == (c + d) + e;
  }

  /** Concatenating groups of URLs is taking the URLs of the concatenated
      groups of records. */
  lemma {:induction false} FlatUrls(ks: seq<PairKey>, g: map<PairKey, seq<Granule>>, h: map<PairKey, seq<string>>)
    requires forall k :: k in ks ==> k in g && k in h && h[k] == Urls(g[k])
    ensures Flat(ks, h) == Urls(Flat(ks, g))
    decreases |ks|
  {
    if ks != [] {
      var init := ks[..|ks| - 1];
      FlatUrls(init, g, h);
      UrlsConcat(Flat(init, g), g[ks[|ks| - 1]]);
    }
  }

  lemma {:induction false} FirstSeenGroup(a: seq<Granule>, grp: seq<Granule>, k: PairKey)
    requires grp != []
    requires forall i :: 0 <= i < |grp| ==> grp[i].key == k
    ensures FirstSeen(a + grp) == if k in FirstSeen(a) then FirstSeen(a) else FirstSeen(a) + [k]
    decreases |grp|
  {
    var s := a + grp;
    assert forall i :: 0 <= i < |s| ==> s[i] == if i < |a| then a[i] else grp[i - |a|];
    var g0 := grp[..|grp| - 1];
    assert s[..|s| - 1] == a + g0;
    assert s[|s| - 1] == grp[|grp| - 1];
    if g0 == [] {
      assert a + g0 == a;
    } else {
      assert forall i :: 0 <= i < |g0| ==> g0[i] == grp[i];
      FirstSeenGroup(a, g0, k);
    }
  }

  /** Groups that are non-empty and keyed by their names. */
  predicate Keyed(ks: seq<PairKey>, g: map<PairKey, seq<Granule>>) {
    (forall k :: k in ks ==> k in g && g[k] != [])
    && (forall k, i :: k in ks && 0 <= i < |g[k]| ==> g[k][i].key == k)
  }

  lemma {:induction false} FirstSeenFlat(ks: seq<PairKey>, g: map<PairKey, seq<Granule>>)
    requires Keyed(ks, g)
    requires forall i, j :: 0 <= i < j < |ks| ==> ks[i] != ks[j]
    ensures FirstSeen(Flat(ks, g)) == ks
    decreases |ks|
  {
    if ks != [] {
      var init := ks[..|ks| - 1];
      var last := ks[|ks| - 1];
      FirstSeenFlat(init, g);
      FirstSeenGroup(Flat(init, g), g[last], last);
      assert last !in init;
      assert init + [last] == ks;
    }
  }

  lemma {:induction false} SelectFlat(ks: seq<PairKey>, g: map<PairKey, seq<Granule>>, k: PairKey, p: ProcPair)
    requires Keyed(ks, g)
    requires forall i, j :: 0 <= i < j < |ks| ==> ks[i] != ks[j]
    requires k in ks
    requires forall i :: 0 <= i < |g[k]| ==> g[k][i].proc == p
    ensures Select(Flat(ks, g), k, p) == g[k]
    decreases |ks|
  {
    var init := ks[..|ks| - 1];
    var last := ks[|ks| - 1];
    SelectConcat(Flat(init, g), g[last], k, p);
    if last == k {
      assert k !in init;
      if init != [] {
        SelectNoGroup(init, g, k, p);
      }
      SelectAll(g[k], k, p);
    } else {
      SelectFlat(init, g, k, p);
      SelectNone(g[last], k, p);
    }
  }

  lemma {:induction false} SelectNoGroup(ks: seq<PairKey>, g: map<PairKey, seq<Granule>>, k: PairKey, p: ProcPair)
    requires Keyed(ks, g)
    requires k !in ks
    ensures Select(Flat(ks, g), k, p) == []
  {
    var s := Flat(ks, g);
    forall i | 0 <= i < |s| ensures s[i].key != k {
      FlatMembers(ks, g, s[i]);
      var j :| j in ks && s[i] in g[j];
      var m :| 0 <= m < |g[j]| && g[j][m] == s[i];
    }
    SelectNone(s, k, p);
  }

  lemma {:induction false} MaxProcUniform(s: seq<Granule>, k: PairKey, p: ProcPair)
    requires HasKey(s, k)
    requires forall i :: 0 <= i < |s| && s[i].key == k ==> s[i].proc == p
    ensures MaxProc(s, k) == p
  {
    MaxProcBounds(s, k);
  }

  // ---------------------------------------------------------------------------
  // properties of the filter's result

  /** The kept groups are the non-empty, keyed groups of the first-seen keys. */
  lemma ExpectedKeyed(s: seq<Granule>)
    ensures Keyed(FirstSeen(s), KeptMap(s))
  {
    forall k | k in FirstSeen(s) ensures |Kept(s, k)| > 0 && forall i :: 0 <= i < |Kept(s, k)| ==> Kept(s, k)[i].key == k {
      KeptShape(s, k);
    }
  }

  /** A granule is returned exactly when it is in the input and its
      processing-date pair is the newest of its group. */
  lemma ExpectedMembers(s: seq<Granule>, x: Granule)
    ensures x in Expected(s) <==> x in s && HasKey(s, x.key) && x.proc == MaxProc(s, x.key)
  {
    FlatMembers(FirstSeen(s), KeptMap(s), x);
    if x in s {
      var i :| 0 <= i < |s| && s[i] == x;
      HasKeyAt(s, i);
      if x.proc == MaxProc(s, x.key) {
        assert x in Kept(s, x.key);
      }
    }
  }

  /** Granules with the same key and the same processing dates are kept or
      dropped together. */
  lemma EqualDatesKeptTogether(s: seq<Granule>, u: Granule, v: Granule)
    requires u in s && v in s
    requires u.key == v.key && u.proc == v.proc
    ensures u in Expected(s) <==> v in Expected(s)
  {
    ExpectedMembers(s, u);
    ExpectedMembers(s, v);
  }

  /** A granule is dropped when another one of its group has a strictly newer
      pair, in particular a newer proc1 whatever the proc2 dates. */
  lemma NewerDiscards(s: seq<Granule>, u: Granule, v: Granule)
    requires u in s && v in s
    requires u.key == v.key && LexGreater(u.proc, v.proc)
    ensures v !in Expected(s)
  {
    var k := u.key;
    var i :| 0 <= i < |s| && s[i] == u;
    HasKeyAt(s, i);
    MaxProcBounds(s, k);
    LexOrder(MaxProc(s, k), u.proc, v.proc);
    ExpectedMembers(s, v);
  }

  /** Every group of the input is represented in the result. */
  lemma EveryKeyKept(s: seq<Granule>, k: PairKey)
    requires HasKey(s, k)
    ensures exists x :: x in Expected(s) && x.key == k
  {
    KeptShape(s, k);
    var x := Kept(s, k)[0];
    assert x in Kept(s, k);
    FlatMembers(FirstSeen(s), KeptMap(s), x);
  }

  /** Filtering the filter's own output changes nothing. */
  lemma Idempotent(s: seq<Granule>)
    ensures Expected(Expected(s)) == Expected(s)
  {
    var ks := FirstSeen(s);
    var g := KeptMap(s);
    ExpectedKeyed(s);
    var e := Flat(ks, g);
    FirstSeenFlat(ks, g);
    assert FirstSeen(e) == ks;
    forall k | k in ks ensures Kept(e, k) == g[k] {
      KeptOfExpected(s, k);
    }
    FlatAgree(ks, KeptMap(e), g);
  }

  /** Filtering the filtered list keeps each group as it is. */
  lemma KeptOfExpected(s: seq<Granule>, k: PairKey)
    requires k in FirstSeen(s)
    ensures k in KeptMap(s) && HasKey(Expected(s), k) && Kept(Expected(s), k) == KeptMap(s)[k]
  {
    var ks := FirstSeen(s);
    var g := KeptMap(s);
    ExpectedKeyed(s);
    var e := Flat(ks, g);
    FirstSeenFlat(ks, g);
    assert FirstSeen(e) == ks;
    KeptShape(s, k);
    var m := MaxProc(s, k);
    forall i | 0 <= i < |e| && e[i].key == k ensures e[i].proc == m {
      FlatKeyOf(ks, g, e[i]);
    }
    MaxProcUniform(e, k, m);
    forall i | 0 <= i < |g[k]| ensures g[k][i].proc == m {
      assert g[k][i] in Kept(s, k);
    }
    SelectFlat(ks, g, k, m);
  }

  /** In a concatenation of keyed groups, a granule sits in its own key's group. */
  lemma FlatKeyOf(ks: seq<PairKey>, g: map<PairKey, seq<Granule>>, x: Granule)
    requires Keyed(ks, g) && x in Flat(ks, g)
    ensures x.key in ks && x in g[x.key]
  {
    FlatMembers(ks, g, x);
    var j :| j in ks && x in g[j];
    var n :| 0 <= n < |g[j]| && g[j][n] == x;
  }

  // ---------------------------------------------------------------------------
  // the key as the source spells it

  /** The source keys its dictionary on the string
      'acq1_pathrow1_acq2_pathrow2' with dates written as 'YYYYMMDD'. */
  function GranuleId(k: PairKey): string
    requires ValidDate(k.acq1) && ValidDate(k.acq2)
  {
    Text.Join([FormatYmd(k.acq1), k.pathRow1, FormatYmd(k.acq2), k.pathRow2], '_')
  }

  lemma DigitsAvoid(s: string, c: char)
    requires Text.AllDigits(s) && !Text.IsDigit(c)
    ensures c !in s
  {
    assert forall i :: 0 <= i < |s| ==> s[i] != c;
  }

  /** Keying on the id string is keying on the pair: path/rows read from a
      name never hold '_', so two keys with the same id are the same key. */
  lemma GranuleIdInjective(k1: PairKey, k2: PairKey)
    requires ValidDate(k1.acq1) && ValidDate(k1.acq2) && ValidDate(k2.acq1) && ValidDate(k2.acq2)
    requires '_' !in k1.pathRow1 && '_' !in k1.pathRow2 && '_' !in k2.pathRow1 && '_' !in k2.pathRow2
    ensures GranuleId(k1) == GranuleId(k2) <==> k1 == k2
  {
    if GranuleId(k1) == GranuleId(k2) {
      var p1 := [FormatYmd(k1.acq1), k1.pathRow1, FormatYmd(k1.acq2), k1.pathRow2];
      var p2 := [FormatYmd(k2.acq1), k2.pathRow1, FormatYmd(k2.acq2), k2.pathRow2];
      DigitsAvoid(FormatYmd(k1.acq1), '_');
      DigitsAvoid(FormatYmd(k1.acq2), '_');
      DigitsAvoid(FormatYmd(k2.acq1), '_');
      DigitsAvoid(FormatYmd(k2.acq2), '_');
      Text.SplitJoin(p1, '_');
      Text.SplitJoin(p2, '_');
      assert p1 == p2;
      ParseFormatYmd(k1.acq1);
      ParseFormatYmd(k2.acq1);
      ParseFormatYmd(k1.acq2);
      ParseFormatYmd(k2.acq2);
    }
  }

  // ---------------------------------------------------------------------------
  // what the loop of the filter maintains

  /** Parsing a list fails from the first URL that does not parse on, whatever
      follows it. */
  lemma {:induction false} EntriesFailureExtends(a: seq<string>, b: seq<string>)
    requires Entries(a).Failure?
    ensures Entries(a + b) == Entries(a)
    decreases |b|
  {
    if b == [] {
      assert a + b == a;
    } else {
      var b0 := b[..|b| - 1];
      EntriesFailureExtends(a, b0);
      assert (a + b)[..|a + b| - 1] == a + b0;
    }
  }

  /** The records of granules that re-parse to themselves are what parsing
      their URLs gives back. */
  lemma {:induction false} EntriesOfUrls(found: seq<string>, s: seq<Granule>)
    requires |found| == |s|
    requires forall i :: 0 <= i < |s| ==> found[i] == s[i].url
    requires forall i {:trigger Reparses(s[i])} :: 0 <= i < |s| ==> Reparses(s[i])
    ensures Entries(found) == Success(s)
    decreases |s|
  {
    if s != [] {
      var n := |s| - 1;
      assert s == s[..n] + [s[n]];
      assert found == found[..n] + [found[n]];
      EntriesOfUrls(found[..n], s[..n]);
      assert Reparses(s[n]);
    }
  }

  /** Tokenizing the granule's own URL gives the granule back. */
  predicate Reparses(g: Granule) {
    EntryOf(g.url) == Success(g)
  }

  /** Parsing a list gives, at every position, the record of the URL there. */
  lemma {:induction false} EntriesAt(found: seq<string>, j: nat)
    requires Entries(found).Success? && j < |found|
    ensures EntryOf(found[j]) == Success(Entries(found).value[j])
    decreases |found|
  {
    var init := found[..|found| - 1];
    if j < |init| {
      EntriesAt(init, j);
    }
  }

  /** Every record that parsing produced re-parses to itself. */
  lemma EntriesMembers(found: seq<string>, seen: seq<Granule>)
    requires Entries(found) == Success(seen)
    ensures forall x :: x in seen ==> EntryOf(x.url) == Success(x)
  {
    forall x | x in seen ensures EntryOf(x.url) == Success(x) {
      var i :| 0 <= i < |seen| && seen[i] == x;
      EntriesAt(found, i);
    }
  }

  /** Removing every element of a list leaves nothing. */
  lemma {:induction false} WithoutAll(s: seq<string>, remove: seq<string>)
    requires forall x :: x in s ==> x in remove
    ensures Without(s, remove) == []
    decreases |s|
  {
    if s != [] {
      assert forall x :: x in s[..|s| - 1] ==> x in s;
      WithoutAll(s[..|s| - 1], remove);
    }
  }

  /** Some record of `s` carries the processing dates `q`. */
  predicate HasProc(s: seq<Granule>, q: ProcPair) {
    s != [] && (s[|s| - 1].proc == q || HasProc(s[..|s| - 1], q))
  }

  lemma {:induction false} HasProcIff(s: seq<Granule>, q: ProcPair)
    ensures HasProc(s, q) <==> exists i :: 0 <= i < |s| && s[i].proc == q
    decreases |s|
  {
    if s != [] {
      var init := s[..|s| - 1];
      HasProcIff(init, q);
      if HasProc(init, q) {
        var i :| 0 <= i < |init| && init[i].proc == q;
        assert s[i] == init[i];
      }
      if exists i :: 0 <= i < |s| && s[i].proc == q {
        var i :| 0 <= i < |s| && s[i].proc == q;
        if i < |init| {
          assert init[i] == s[i];
        }
      }
    }
  }

  /** The URLs of the records of `s` that a newcomer with dates `q` replaces. */
  function Replaced(s: seq<Granule>, q: ProcPair): (r: seq<string>)
    ensures |r| <= |s|
  {
    if s == [] then []
    else
      var init := Replaced(s[..|s| - 1], q);
      if Replaces(q, s[|s| - 1].proc) then init + [s[|s| - 1].url] else init
  }

  lemma HasProcAt(s: seq<Granule>, j: nat)
    requires j < |s|
    ensures HasProc(s, s[j].proc)
  {
    HasProcIff(s, s[j].proc);
  }

  lemma HasProcSnoc(s: seq<Granule>, j: nat, q: ProcPair)
    requires j < |s|
    ensures HasProc(s[..j + 1], q) <==> HasProc(s[..j], q) || s[j].proc == q
  {
    assert s[..j + 1][..j] == s[..j];
  }

  lemma ReplacedSnoc(s: seq<Granule>, j: nat, q: ProcPair)
    requires j < |s|
    ensures Replaced(s[..j + 1], q) ==
              Replaced(s[..j], q) + if Replaces(q, s[j].proc) then [s[j].url] else []
  {
    assert s[..j + 1][..j] == s[..j];
  }

  /** One more URL of a tokenized group extends its replaced URLs by itself or by nothing. */
  lemma ReplacedStep(group: seq<string>, es: seq<Granule>, j: nat, q: ProcPair, remove: seq<string>)
    requires Entries(group) == Success(es) && j < |group| && remove == Replaced(es[..j], q)
    ensures j < |es| && EntryOf(group[j]) == Success(es[j])
    ensures Replaces(q, es[j].proc) ==> remove + [group[j]] == Replaced(es[..j + 1], q)
    ensures !Replaces(q, es[j].proc) ==> remove == Replaced(es[..j + 1], q)
  {
    EntriesAt(group, j);
    ReplacedSnoc(es, j, q);
  }

  /** A group whose records share one date pair is replaced as a whole or not at all. */
  lemma {:induction false} ReplacedUniform(s: seq<Granule>, p: ProcPair, q: ProcPair)
    requires forall i :: 0 <= i < |s| ==> s[i].proc == p
    ensures Replaced(s, q) == if Replaces(q, p) then Urls(s) else []
    decreases |s|
  {
    if s != [] {
      ReplacedUniform(s[..|s| - 1], p, q);
    }
  }

  /** `[e for e in s if e not in remove]`. */
  function Without(s: seq<string>, remove: seq<string>): (r: seq<string>)
    ensures forall x :: x in r <==> x in s && x !in remove
  {
    if s == [] then []
    else if s[|s| - 1] in remove then Without(s[..|s| - 1], remove)
    else
      assert forall x :: x in s <==> x in s[..|s| - 1] || x == s[|s| - 1];
      Without(s[..|s| - 1], remove) + [s[|s| - 1]]
  }

  /** The filter's dictionary agrees with the specification on the granules
      seen so far: its keys in insertion order are the first-seen keys and
      each list holds the URLs of the kept group. */
  ghost predicate Agrees(s: seq<Granule>, keys: seq<PairKey>, keep: map<PairKey, seq<string>>) {
    keys == FirstSeen(s)
    && (forall k :: k in keep <==> k in keys)
    && (forall k :: k in keys ==> HasKey(s, k) && keep[k] == Urls(Kept(s, k)))
  }

  /** A granule with a key not seen before opens a new group. */
  lemma NewKeyStep(s: seq<Granule>, g: Granule, keys: seq<PairKey>, keep: map<PairKey, seq<string>>)
    requires Agrees(s, keys, keep) && g.key !in keep
    ensures Agrees(s + [g], keys + [g.key], keep[g.key := [g.url]])
  {
    var s' := s + [g];
    var keep' := keep[g.key := [g.url]];
    assert s'[..|s'| - 1] == s && s'[|s'| - 1] == g;
    assert FirstSeen(s') == keys + [g.key];
    forall k | k in keys + [g.key] ensures HasKey(s', k) && keep'[k] == Urls(Kept(s', k)) {
      KeptStep(s, g, k);
    }
  }

  lemma FirstSeenSnoc(s: seq<Granule>, g: Granule)
    ensures FirstSeen(s + [g]) == if HasKey(s, g.key) then FirstSeen(s) else FirstSeen(s) + [g.key]
  {
    var s' := s + [g];
    assert s'[..|s'| - 1] == s && s'[|s'| - 1] == g;
  }

  /** The groups of the other keys do not change, so a dictionary that
      agrees on the newcomer's group agrees everywhere. */
  lemma OtherGroups(s: seq<Granule>, g: Granule, keys: seq<PairKey>,
                    keep: map<PairKey, seq<string>>, keep': map<PairKey, seq<string>>)
    requires Agrees(s, keys, keep) && g.key in keep
    requires g.key in keep' && keep' == keep[g.key := keep'[g.key]]
    requires FirstSeen(s + [g]) == keys
    requires keep'[g.key] == Urls(Kept(s + [g], g.key))
    ensures Agrees(s + [g], keys, keep')
  {
    forall k | k in keys ensures HasKey(s + [g], k) && keep'[k] == Urls(Kept(s + [g], k)) {
      KeptStep(s, g, k);
    }
  }

  /** A granule with the dates of its group joins it. */
  lemma JoinStep(s: seq<Granule>, g: Granule, keys: seq<PairKey>, keep: map<PairKey, seq<string>>)
    requires Agrees(s, keys, keep) && g.key in keep && g.proc == MaxProc(s, g.key)
    ensures Agrees(s + [g], keys, keep[g.key := keep[g.key] + [g.url]])
  {
    var s' := s + [g];
    var keep' := keep[g.key := keep[g.key] + [g.url]];
    FirstSeenSnoc(s, g);
    KeptStep(s, g, g.key);
    UrlsConcat(Kept(s, g.key), [g]);
    assert keep'[g.key] == Urls(Kept(s', g.key));
    OtherGroups(s, g, keys, keep, keep');
  }

  /** A granule with newer dates than its group replaces the whole group. */
  lemma ReplaceStep(s: seq<Granule>, g: Granule, keys: seq<PairKey>, keep: map<PairKey, seq<string>>)
    requires Agrees(s, keys, keep) && g.key in keep && LexGreater(g.proc, MaxProc(s, g.key))
    ensures Agrees(s + [g], keys, keep[g.key := [g.url]])
  {
    var s' := s + [g];
    var keep' := keep[g.key := [g.url]];
    FirstSeenSnoc(s, g);
    KeptStep(s, g, g.key);
    assert keep'[g.key] == Urls(Kept(s', g.key));
    OtherGroups(s, g, keys, keep, keep');
  }

  /** A granule with older dates than its group leaves everything as it was. */
  lemma DropStep(s: seq<Granule>, g: Granule, keys: seq<PairKey>, keep: map<PairKey, seq<string>>)
    requires Agrees(s, keys, keep) && g.key in keep && LexGreater(MaxProc(s, g.key), g.proc)
    ensures Agrees(s + [g], keys, keep)
  {
    var s' := s + [g];
    FirstSeenSnoc(s, g);
    forall k | k in keys ensures HasKey(s', k) && keep[k] == Urls(Kept(s', k)) {
      KeptStep(s, g, k);
    }
  }

  /** Re-parsing the URLs of a kept group gives back its records. */
  lemma GroupEntries(s: seq<Granule>, k: PairKey, group: seq<string>)
    requires HasKey(s, k) && group == Urls(Kept(s, k))
    requires forall x :: x in s ==> EntryOf(x.url) == Success(x)
    ensures Entries(group) == Success(Kept(s, k))
  {
    KeptShape(s, k);
    forall i | 0 <= i < |Kept(s, k)| ensures group[i] == Kept(s, k)[i].url && Reparses(Kept(s, k)[i]) {
      assert Kept(s, k)[i] in s;
    }
    EntriesOfUrls(group, Kept(s, k));
  }

  /** A newcomer whose dates some kept granule of its group shares joins the group. */
  lemma KeepJoin(s: seq<Granule>, g: Granule, keys: seq<PairKey>, keep: map<PairKey, seq<string>>)
    requires Agrees(s, keys, keep) && g.key in keep
    requires HasProc(Kept(s, g.key), g.proc)
    ensures Agrees(s + [g], keys, keep[g.key := keep[g.key] + [g.url]])
  {
    KeptShape(s, g.key);
    HasProcIff(Kept(s, g.key), g.proc);
    JoinStep(s, g, keys, keep);
  }

  /** A newcomer whose dates no kept granule of its group shares either
      replaces the whole group (the test picks every kept URL) or is dropped
      (the test picks none). */
  lemma KeepReplaceOrDrop(s: seq<Granule>, g: Granule, keys: seq<PairKey>, keep: map<PairKey, seq<string>>,
                          remove: seq<string>)
    requires Agrees(s, keys, keep) && g.key in keep
    requires !HasProc(Kept(s, g.key), g.proc)
    requires remove == Replaced(Kept(s, g.key), g.proc)
    ensures |remove| > 0 ==> remove == keep[g.key] && Agrees(s + [g], keys, keep[g.key := [g.url]])
    ensures |remove| == 0 ==> Agrees(s + [g], keys, keep)
  {
    var kept := Kept(s, g.key);
    var p := MaxProc(s, g.key);
    KeptShape(s, g.key);
    HasProcIff(kept, g.proc);
    assert kept[0].proc == p;
    assert g.proc != p;
    ReplacedUniform(kept, p, g.proc);
    ReplacesIsLex(g.proc, p);
    LexOrder(g.proc, p, p);
    if LexGreater(g.proc, p) {
      ReplaceStep(s, g, keys, keep);
    } else {
      DropStep(s, g, keys, keep);
    }
  }

  // ---------------------------------------------------------------------------
  // one step of the filter's loop

  /** The state of the filter after the URLs `found`, parsed to `seen`: the
      dictionary agrees with the specification on `seen`, and every URL is
      either in the dictionary or in the duplicate log. */
  ghost predicate Tallied(found: seq<string>, seen: seq<Granule>, keys: seq<PairKey>,
                          keep: map<PairKey, seq<string>>, skipped: seq<string>) {
    Agrees(seen, keys, keep)
    && multiset(Flat(keys, keep)) + multiset(skipped) == multiset(found)
  }

  lemma TalliedStart()
    ensures Tallied([], [], [], map[], [])
  {
  }

  /** A URL that cannot be tokenized fails the whole list. */
  lemma StepFail(found: seq<string>, u: string, rest: seq<string>, seen: seq<Granule>)
    requires Entries(found) == Success(seen) && EntryOf(u).Failure?
    ensures Entries(found + [u] + rest) == Failure(EntryOf(u).error)
  {
    var f := found + [u];
    assert f[..|f| - 1] == found && f[|f| - 1] == u;
    EntriesFailureExtends(f, rest);
  }

  lemma EntriesSnoc(found: seq<string>, u: string, seen: seq<Granule>, g: Granule)
    requires Entries(found) == Success(seen) && EntryOf(u) == Success(g)
    ensures Entries(found + [u]) == Success(seen + [g])
  {
    var f := found + [u];
    assert f[..|f| - 1] == found && f[|f| - 1] == u;
  }

  /** The multiset bookkeeping of one step: the dictionary trades the group
      `was` for `now`, the log grows by `added`, the input by `u`, and the
      group's change plus the log's growth is exactly `u`. */
  lemma Accounting<T>(flat': multiset<T>, was: multiset<T>, flat: multiset<T>, now: multiset<T>,
                      skipped: multiset<T>, skipped': multiset<T>, found: multiset<T>, found': multiset<T>,
                      u: multiset<T>, added: multiset<T>)
    requires flat' + was == flat + now
    requires flat + skipped == found
    requires skipped' == skipped + added && found' == found + u
    requires now + added == was + u
    ensures flat' + skipped' == found'
  {
    forall x ensures (flat' + skipped')[x] == found'[x] {
      assert (flat' + was)[x] == (flat + now)[x];
      assert (now + added)[x] == (was + u)[x];
      assert (flat + skipped)[x] == found[x];
    }
  }

  lemma PrefixSnoc<T>(s: seq<T>, i: nat)
    requires i < |s|
    ensures s[..i + 1] == s[..i] + [s[i]]
  {
  }

  lemma Whole<T>(s: seq<T>)
    ensures s[..|s|] == s
  {
  }

  lemma SplitAt<T>(s: seq<T>, i: nat)
    requires i < |s|
    ensures s[..i] + [s[i]] + s[i + 1..] == s
  {
  }

  /** A URL of `found` that cannot be tokenized, after a prefix that can,
      fails the whole list with its error. */
  lemma ParseFail(found: seq<string>, i: nat, seen: seq<Granule>)
    requires i < |found| && Entries(found[..i]) == Success(seen)
    requires EntryOf(found[i]).Failure?
    ensures Entries(found) == Failure(EntryOf(found[i]).error)
  {
    PrefixSnoc(found, i);
    SplitAt(found, i);
    StepFail(found[..i], found[i], found[i + 1..], seen);
  }

  /** Parsing one more URL of `found` extends the records by its record. */
  lemma ParseOk(found: seq<string>, i: nat, seen: seq<Granule>, g: Granule)
    requires i < |found| && Entries(found[..i]) == Success(seen)
    requires EntryOf(found[i]) == Success(g)
    ensures found[..i + 1] == found[..i] + [found[i]]
    ensures Entries(found[..i + 1]) == Success(seen + [g])
  {
    PrefixSnoc(found, i);
    EntriesSnoc(found[..i], found[i], seen, g);
  }

  lemma StepJoin(found: seq<string>, u: string, seen: seq<Granule>, g: Granule, keys: seq<PairKey>,
                 keep: map<PairKey, seq<string>>, skipped: seq<string>)
    requires Tallied(found, seen, keys, keep, skipped) && g.url == u
    requires g.key in keep && HasProc(Kept(seen, g.key), g.proc)
    ensures Tallied(found + [u], seen + [g], keys, keep[g.key := keep[g.key] + [u]], skipped)
  {
    KeepJoin(seen, g, keys, keep);
    var v := keep[g.key] + [u];
    FlatUpdate(keys, keep, g.key, v);
    Accounting(multiset(Flat(keys, keep[g.key := v])), multiset(keep[g.key]), multiset(Flat(keys, keep)),
               multiset(v), multiset(skipped), multiset(skipped), multiset(found), multiset(found + [u]),
               multiset{u}, multiset{});
  }

  lemma StepReplace(found: seq<string>, u: string, seen: seq<Granule>, g: Granule, keys: seq<PairKey>,
                    keep: map<PairKey, seq<string>>, skipped: seq<string>, remove: seq<string>)
    requires Tallied(found, seen, keys, keep, skipped) && g.url == u
    requires g.key in keep && !HasProc(Kept(seen, g.key), g.proc)
    requires remove == Replaced(Kept(seen, g.key), g.proc) && |remove| > 0
    ensures Tallied(found + [u], seen + [g], keys,
                     keep[g.key := Without(keep[g.key], remove) + [u]], skipped + remove)
  {
    ReplaceAgrees(seen, g, keys, keep, remove);
    WithoutAll(keep[g.key], remove);
    ReplaceTally(found, u, keys, keep, g.key, Without(keep[g.key], remove) + [u], skipped, remove);
  }

  lemma ReplaceAgrees(s: seq<Granule>, g: Granule, keys: seq<PairKey>, keep: map<PairKey, seq<string>>,
                      remove: seq<string>)
    requires Agrees(s, keys, keep) && g.key in keep
    requires !HasProc(Kept(s, g.key), g.proc)
    requires remove == Replaced(Kept(s, g.key), g.proc) && |remove| > 0
    ensures remove == keep[g.key] && Agrees(s + [g], keys, keep[g.key := [g.url]])
  {
    KeepReplaceOrDrop(s, g, keys, keep, remove);
  }

  lemma ReplaceTally(found: seq<string>, u: string, keys: seq<PairKey>, keep: map<PairKey, seq<string>>,
                     k: PairKey, v: seq<string>, skipped: seq<string>, remove: seq<string>)
    requires forall j :: j in keys ==> j in keep
    requires forall i, j :: 0 <= i < j < |keys| ==> keys[i] != keys[j]
    requires k in keys && remove == keep[k] && v == [u]
    requires multiset(Flat(keys, keep)) + multiset(skipped) == multiset(found)
    ensures multiset(Flat(keys, keep[k := v])) + multiset(skipped + remove) == multiset(found + [u])
  {
    FlatUpdate(keys, keep, k, v);
    Accounting(multiset(Flat(keys, keep[k := v])), multiset(keep[k]), multiset(Flat(keys, keep)),
               multiset(v), multiset(skipped), multiset(skipped + remove), multiset(found), multiset(found + [u]),
               multiset{u}, multiset(remove));
  }

  lemma StepDrop(found: seq<string>, u: string, seen: seq<Granule>, g: Granule, keys: seq<PairKey>,
                 keep: map<PairKey, seq<string>>, skipped: seq<string>)
    requires Tallied(found, seen, keys, keep, skipped) && g.url == u
    requires g.key in keep && !HasProc(Kept(seen, g.key), g.proc)
    requires |Replaced(Kept(seen, g.key), g.proc)| == 0
    ensures Tallied(found + [u], seen + [g], keys, keep, skipped + [u])
  {
    KeepReplaceOrDrop(seen, g, keys, keep, Replaced(Kept(seen, g.key), g.proc));
    Accounting(multiset(Flat(keys, keep)), multiset(keep[g.key]), multiset(Flat(keys, keep)),
               multiset(keep[g.key]), multiset(skipped), multiset(skipped + [u]), multiset(found), multiset(found + [u]),
               multiset{u}, multiset{u});
  }

  lemma StepNew(found: seq<string>, u: string, seen: seq<Granule>, g: Granule, keys: seq<PairKey>,
                keep: map<PairKey, seq<string>>, skipped: seq<string>)
    requires Tallied(found, seen, keys, keep, skipped) && g.url == u
    requires g.key !in keep
    ensures Tallied(found + [u], seen + [g], keys + [g.key], keep[g.key := [u]], skipped)
  {
    NewKeyStep(seen, g, keys, keep);
    FlatNewKey(keys, keep, g.key, u, skipped, found);
  }

  /** Opening a group for a new key adds its one URL to the tally. */
  lemma FlatNewKey(keys: seq<PairKey>, keep: map<PairKey, seq<string>>, k: PairKey, u: string,
                   skipped: seq<string>, found: seq<string>)
    requires (forall j :: j in keys ==> j in keep) && k !in keep
    requires multiset(Flat(keys, keep)) + multiset(skipped) == multiset(found)
    ensures multiset(Flat(keys + [k], keep[k := [u]])) + multiset(skipped) == multiset(found + [u])
  {
    var keep' := keep[k := [u]];
    FlatAgree(keys, keep, keep');
    var keys' := keys + [k];
    assert keys'[..|keys'| - 1] == keys && keys'[|keys'| - 1] == k;
    assert Flat(keys', keep') == Flat(keys, keep) + [u];
    var a, b := multiset(Flat(keys, keep)), multiset(skipped);
    assert multiset(Flat(keys', keep')) == a + multiset{u};
    assert multiset(found + [u]) == multiset(found) + multiset{u};
    assert (a + multiset{u}) + b == (a + b) + multiset{u};
  }

  /** Once every granule is seen, concatenating the lists in insertion order
      gives the URLs of the expected result. */
  lemma AgreesExpected(s: seq<Granule>, keys: seq<PairKey>, keep: map<PairKey, seq<string>>)
    requires Agrees(s, keys, keep)
    ensures Flat(keys, keep) == Urls(Expected(s))
  {
    FlatUrls(keys, KeptMap(s), keep);
  }
}
