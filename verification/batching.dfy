/** The batch arithmetic of the two cube drivers. `create` flushes the
    accumulated layers whenever they reach NUM_GRANULES_TO_WRITE and flushes
    the remainder at the end; `create_parallel` cuts the granule list into
    consecutive slices of at most NUM_GRANULES_TO_WRITE and flushes after
    every slice. Only the first flush may create the output store; every
    later one appends along the record axis. */
module Batching {

  const NUM_GRANULES_TO_WRITE: nat := 1000

  /** How a flush reaches the store: the first write creates it, later
      writes append records to it. */
  datatype WriteMode = CreateStore | AppendRecords

  // ---------------------------------------------------------------------------
  // consecutive slices

  /** `s` cut into consecutive slices of `n` elements, the last one possibly
      shorter; an empty list has no slices. */
  function Chunks<T>(s: seq<T>, n: nat): seq<seq<T>>
    requires n > 0
    decreases |s|
  {
    if s == [] then []
    else if |s| <= n then [s]
    else [s[..n]] + Chunks(s[n..], n)
  }

  function Flatten<T>(ss: seq<seq<T>>): seq<T>
    decreases |ss|
  {
    if ss == [] then [] else ss[0] + Flatten(ss[1..])
  }

  lemma {:induction false} FlattenAppend<T>(a: seq<seq<T>>, b: seq<seq<T>>)
    ensures Flatten(a + b) == Flatten(a) + Flatten(b)
    decreases |a|
  {
    if a == [] {
      assert a + b == b;
    } else {
      assert (a + b)[0] == a[0];
      assert (a + b)[1..] == a[1..] + b;
      FlattenAppend(a[1..], b);
      assert Flatten(a + b) == a[0] + (Flatten(a[1..]) + Flatten(b));
    }
  }

  lemma FlattenSnoc<T>(ss: seq<seq<T>>, s: seq<T>)
    ensures Flatten(ss + [s]) == Flatten(ss) + s
  {
    FlattenAppend(ss, [s]);
    assert [s][1..] == [];
  }

  /** The lists that are not empty, in order. */
  function NonEmpty<T>(ss: seq<seq<T>>): seq<seq<T>>
    decreases |ss|
  {
    if ss == [] then []
    else NonEmpty(ss[..|ss| - 1]) + (if ss[|ss| - 1] == [] then [] else [ss[|ss| - 1]])
  }

  lemma NonEmptySnoc<T>(ss: seq<seq<T>>, s: seq<T>)
    ensures NonEmpty(ss + [s]) == NonEmpty(ss) + (if s == [] then [] else [s])
  {
    assert (ss + [s])[..|ss|] == ss;
  }
  /** Leaving out the empty lists changes nothing once they are put
      together. */
  lemma {:induction false} NonEmptyFlatten<T>(ss: seq<seq<T>>)
    ensures Flatten(NonEmpty(ss)) == Flatten(ss)
    decreases |ss|
  {
    if ss != [] {
      var init := ss[..|ss| - 1];
      var s := ss[|ss| - 1];
      assert ss == init + [s];
      NonEmptyFlatten(init);
      NonEmptySnoc(init, s);
      FlattenSnoc(init, s);
      if s != [] {
        FlattenSnoc(NonEmpty(init), s);
      } else {
        assert NonEmpty(init) + [] == NonEmpty(init);
        assert Flatten(init) + s == Flatten(init);
      }
    }
  }

  /** The slices put back together are the list. */
  lemma {:induction false} FlattenChunks<T>(s: seq<T>, n: nat)
    requires n > 0
    ensures Flatten(Chunks(s, n)) == s
    decreases |s|
  {
    if s != [] && |s| > n {
      FlattenChunks(s[n..], n);
      assert s == s[..n] + s[n..];
    }
  }

  /** Every slice is non-empty and holds at most `n` elements, and all
      slices but the last hold exactly `n`. */
  lemma {:induction false} ChunkSizes<T>(s: seq<T>, n: nat)
    requires n > 0
    ensures forall i :: 0 <= i < |Chunks(s, n)| ==> 0 < |Chunks(s, n)[i]| <= n
    ensures forall i :: 0 <= i < |Chunks(s, n)| - 1 ==> |Chunks(s, n)[i]| == n
    decreases |s|
  {
    if s != [] && |s| > n {
      ChunkSizes(s[n..], n);
      var c := Chunks(s, n);
      assert c == [s[..n]] + Chunks(s[n..], n);
      assert forall i :: 1 <= i < |c| ==> c[i] == Chunks(s[n..], n)[i - 1];
    }
  }

  /** Full slices followed by a short remainder are the slices of their
      concatenation: what the sequential driver writes is `Chunks` of what it
      accumulated. */
  lemma {:induction false} ChunksOfFull<T>(ws: seq<seq<T>>, rest: seq<T>, n: nat)
    requires n > 0
    requires forall i :: 0 <= i < |ws| ==> |ws[i]| == n
    requires |rest| < n
    ensures Chunks(Flatten(ws) + rest, n) == ws + (if rest == [] then [] else [rest])
    decreases |ws|
  {
    if ws == [] {
      assert Flatten(ws) + rest == rest;
    } else {
      var s := Flatten(ws) + rest;
      ChunksOfFull(ws[1..], rest, n);
      assert s == ws[0] + (Flatten(ws[1..]) + rest);
      assert s[..n] == ws[0] && s[n..] == Flatten(ws[1..]) + rest;
      assert |s| > n || (|s| == n && rest == [] && ws[1..] == []);
      if |s| == n {
        assert Flatten(ws[1..]) == [];
        assert ws == [ws[0]];
      }
    }
  }

  /** The slices `found_urls[start:start+num_tasks]` that the parallel
      driver's loop takes, with `num_tasks = min(N, num_to_process)`. */
  function Slices<T>(found: seq<T>, start: nat, n: nat): seq<seq<T>>
    requires n > 0 && start <= |found|
    decreases |found| - start
  {
    var numToProcess := |found| - start;
    if numToProcess == 0 then []
    else
      var numTasks := if numToProcess > n then n else numToProcess;
      [found[start..start + numTasks]] + Slices(found, start + numTasks, n)
  }

  /** One more slice taken by the loop. */
  lemma SlicesStep<T>(found: seq<T>, start: nat, n: nat, numTasks: nat, done: seq<seq<T>>)
    requires n > 0 && start < |found|
    requires numTasks == if |found| - start > n then n else |found| - start
    requires Slices(found, 0, n) == done + Slices(found, start, n)
    ensures Slices(found, 0, n) == (done + [found[start..start + numTasks]]) + Slices(found, start + numTasks, n)
  {
    var rest := Slices(found, start + numTasks, n);
    assert Slices(found, start, n) == [found[start..start + numTasks]] + rest;
    assert done + ([found[start..start + numTasks]] + rest) == (done + [found[start..start + numTasks]]) + rest;
  }

  /** The loop's slicing is `Chunks`. */
  lemma {:induction false} SlicesAreChunks<T>(found: seq<T>, start: nat, n: nat)
    requires n > 0 && start <= |found|
    ensures Slices(found, start, n) == Chunks(found[start..], n)
    decreases |found| - start
  {
    if start < |found| {
      var rest := found[start..];
      if |rest| <= n {
        assert Slices(found, |found|, n) == [];
        assert found[start..start + |rest|] == rest;
        assert Slices(found, start, n) == [rest];
      } else {
        SlicesAreChunks(found, start + n, n);
        assert rest[n..] == found[start + n..];
        assert rest[..n] == found[start..start + n];
        assert Chunks(rest, n) == [rest[..n]] + Chunks(rest[n..], n);
      }
    }
  }

  // ---------------------------------------------------------------------------
  // write modes

  /** The first write creates the store and every later write appends. */
  predicate StoreModes(ms: seq<WriteMode>) {
    forall i :: 0 <= i < |ms| ==> ms[i] == (if i == 0 then CreateStore else AppendRecords)
  }

  /** The modes of the writes `create_parallel` makes, given how many layers
      each slice produced, AS WRITTEN: a slice without layers writes nothing,
      yet `is_first_write` is cleared after the slice at `start == 0`
      whatever it produced. */
  function ParallelModes(counts: seq<nat>, isFirst: bool): seq<WriteMode>
    decreases |counts|
  {
    if counts == [] then []
    else
      (if counts[0] > 0 then [if isFirst then CreateStore else AppendRecords] else [])
      + ParallelModes(counts[1..], false)
  }

  /** The same with `is_first_write` cleared only after a slice that wrote. */
  function CorrectedParallelModes(counts: seq<nat>, isFirst: bool): seq<WriteMode>
    decreases |counts|
  {
    if counts == [] then []
    else
      (if counts[0] > 0 then [if isFirst then CreateStore else AppendRecords] else [])
      + CorrectedParallelModes(counts[1..], isFirst && counts[0] == 0)
  }

  /** Number of slices that produced layers, i.e. number of writes. */
  function Writing(counts: seq<nat>): nat
    decreases |counts|
  {
    if counts == [] then 0 else (if counts[0] > 0 then 1 else 0) + Writing(counts[1..])
  }

  lemma {:induction false} ParallelModesAppend(counts: seq<nat>, isFirst: bool)
    ensures |ParallelModes(counts, isFirst)| == Writing(counts)
    ensures forall i :: 0 <= i < |ParallelModes(counts, isFirst)| && (i > 0 || !isFirst || counts[0] == 0) ==>
              ParallelModes(counts, isFirst)[i] == AppendRecords
    decreases |counts|
  {
    if counts != [] {
      ParallelModesAppend(counts[1..], false);
    }
  }

  /** One more slice: it writes, in the mode its turn gives it, exactly
      when it produced layers. */
  lemma {:induction false} ParallelModesSnoc(counts: seq<nat>, c: nat, isFirst: bool)
    ensures ParallelModes(counts + [c], isFirst) ==
              ParallelModes(counts, isFirst)
              + (if c > 0 then [if isFirst && counts == [] then CreateStore else AppendRecords] else [])
    decreases |counts|
  {
    if counts != [] {
      assert (counts + [c])[1..] == counts[1..] + [c];
      ParallelModesSnoc(counts[1..], c, false);
    } else {
      assert ([] + [c])[1..] == [];
    }
  }

  /** With `is_first_write` cleared only after a write, the first write
      creates the store and all later ones append, whichever slices are
      empty. */
  lemma {:induction false} CorrectedModesWellFormed(counts: seq<nat>, isFirst: bool)
    ensures |CorrectedParallelModes(counts, isFirst)| == Writing(counts)
    ensures isFirst ==> StoreModes(CorrectedParallelModes(counts, isFirst))
    ensures !isFirst ==> forall i :: 0 <= i < |CorrectedParallelModes(counts, isFirst)| ==>
              CorrectedParallelModes(counts, isFirst)[i] == AppendRecords
    decreases |counts|
  {
    if counts != [] {
      CorrectedModesWellFormed(counts[1..], isFirst && counts[0] == 0);
    }
  }

  /** When the first slice produced layers the code as written and the
      corrected code write in the same modes. */
  lemma {:induction false} ModesAgreeWhenFirstSliceWrites(counts: seq<nat>)
    requires counts != [] && counts[0] > 0
    ensures ParallelModes(counts, true) == CorrectedParallelModes(counts, true)
  {
    AppendOnly(counts[1..]);
  }

  lemma {:induction false} AppendOnly(counts: seq<nat>)
    ensures ParallelModes(counts, false) == CorrectedParallelModes(counts, false)
    decreases |counts|
  {
    if counts != [] {
      AppendOnly(counts[1..]);
    }
  }

  /** The code as written: when the first slice yields no layer (every
      granule of it empty or in another projection) and the second one does,
      the only write appends to a store that was never created. */
  lemma FirstSliceEmptyAppends()
    ensures ParallelModes([0, 1], true) == [AppendRecords]
    ensures !StoreModes(ParallelModes([0, 1], true))
    ensures CorrectedParallelModes([0, 1], true) == [CreateStore]
  {
    var c: seq<nat> := [0, 1];
    assert c[1..] == [1];
    var d: seq<nat> := [1];
    assert d[1..] == [];
    assert ParallelModes([], false) == [];
    assert ParallelModes([1], false) == [AppendRecords];
    assert CorrectedParallelModes([], false) == [];
    assert CorrectedParallelModes([1], true) == [CreateStore];
    assert ParallelModes(c, true) == [AppendRecords];
    assert ParallelModes(c, true)[0] != CreateStore;
  }
}
