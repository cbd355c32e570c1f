/**
 The three pipelines of the benchmark: serial, fanned out per document, and fanned out
 per batch with an alignment check around each of the two batch calls.
 */
module Pipelines {
  import opened Cancellation
  import opened Calls
  import FM = FanoutModel
  import FP = FanoutProofs

  // ---------------------------------------------------------------------------------
  // Serial
  // ---------------------------------------------------------------------------------

  function Map<A, B>(f: A -> B, s: seq<A>): (r: seq<B>)
    ensures |r| == |s| && forall i :: 0 <= i < |s| ==> r[i] == f(s[i])
  {
    seq(|s|, i requires 0 <= i < |s| => f(s[i]))
  }

  method RunSerial<A, B, C>(docs: seq<A>, llm1: A -> B, llm2: B -> C) returns (out: seq<C>)
    ensures out == Map(llm2, Map(llm1, docs))
  {
    out := [];
    for i := 0 to |docs|
      invariant |out| == i && forall j :: 0 <= j < i ==> out[j] == llm2(llm1(docs[j]))
    {
      var mid := llm1(docs[i]);
      var final := llm2(mid);
      out := out + [final];
    }
  }

  // ---------------------------------------------------------------------------------
  // Checking a batch caller's output
  // ---------------------------------------------------------------------------------

  /**
   What a batch caller may return. An iterator answers `at(k)` for its k-th element and
   None once it is exhausted; it may be endless.
   */
  datatype Got<T> =
    | BareString
    | Unordered                 // a set, a dict, or a view of its keys
    | Listed(items: seq<T>)
    | Iterator(at: nat -> Option<T>)
    | NotIterable

  datatype Checked<T> = Accepted(outputs: seq<T>) | Refused

  /** The iterator has at least `n` elements. */
  ghost predicate Yields<T>(at: nat -> Option<T>, n: nat) {
    forall k: nat :: k < n ==> at(k).Some?
  }

  /** `got` is exactly the ordered list `outputs`. */
  ghost predicate IsList<T>(got: Got<T>, outputs: seq<T>) {
    match got
    case Listed(items) => items == outputs
    case Iterator(at) =>
      (forall k: nat :: k < |outputs| ==> at(k) == Some(outputs[k])) && at(|outputs|).None?
    case _ => false
  }

  /** The same check as a function: a list of the right length is what is accepted. */
  ghost function Check<T(!new)>(sent: nat, got: Got<T>): Checked<T> {
    if outputs :| IsList(got, outputs) && |outputs| == sent then Accepted(outputs) else Refused
  }

  lemma OneList<T>(got: Got<T>, a: seq<T>, b: seq<T>)
    requires IsList(got, a) && IsList(got, b)
    ensures a == b
  {
    if got.Iterator? {
      var atA, atB := got.at(|a|), got.at(|b|);
      assert |a| == |b|;
      assert forall k: nat :: k < |a| ==> got.at(k) == Some(a[k]);
      assert forall k: nat :: k < |b| ==> got.at(k) == Some(b[k]);
    }
  }

  /**
   A batch output is accepted exactly when it is an ordered list with one element per
   input, and then it is that list. An iterator is read one element past the batch at
   most, so an endless one is refused.
   */
  method CheckBatchLen<T(!new)>(sent: nat, got: Got<T>) returns (r: Checked<T>, drawn: nat)
    ensures r.Accepted? ==> |r.outputs| == sent && IsList(got, r.outputs)
    ensures r.Refused? ==> forall outputs :: IsList(got, outputs) ==> |outputs| != sent
    ensures r == Check(sent, got)
    ensures drawn <= sent + 1
    ensures got.Iterator? && Yields(got.at, sent + 1) ==> r.Refused? && drawn == sent + 1
  {
    drawn := 0;
    match got {
      case BareString => r := Refused;
      case Unordered => r := Refused;
      case NotIterable => r := Refused;
      case Listed(items) => r := if |items| == sent then Accepted(items) else Refused;
      case Iterator(at) =>
        var outputs: seq<T> := [];
        while drawn < sent + 1 && at(drawn).Some?
          invariant drawn == |outputs| <= sent + 1
          invariant forall k: nat :: k < |outputs| ==> at(k) == Some(outputs[k])
        {
          outputs := outputs + [at(drawn).value];
          drawn := drawn + 1;
        }
        if |outputs| > sent {
          forall other | IsList(got, other) ensures |other| != sent {
            var last := at(sent);
            assert last == Some(outputs[sent]);
          }
          r := Refused;
        } else if |outputs| != sent {
          forall other | IsList(got, other) ensures |other| != sent {
            var end := at(|outputs|);
            assert end.None?;
          }
          r := Refused;
        } else {
          r := Accepted(outputs);
        }
    }
    if r.Accepted? { OneList(got, r.outputs, Check(sent, got).outputs); }
  }

  // ---------------------------------------------------------------------------------
  // Chunking and flattening
  // ---------------------------------------------------------------------------------

  function Chunk<T>(items: seq<T>, size: nat): (chunks: seq<seq<T>>)
    requires 0 < size
    decreases |items|
  {
    if items == [] then []
    else if |items| <= size then [items]
    else [items[..size]] + Chunk(items[size..], size)
  }

  function Flatten<T>(chunks: seq<seq<T>>): seq<T> {
    if chunks == [] then [] else chunks[0] + Flatten(chunks[1..])
  }

  /** Chunks are not empty, not longer than `size`, and only the last may be shorter. */
  lemma {:induction false} ChunkSizes<T>(items: seq<T>, size: nat)
    requires 0 < size
    ensures forall k :: 0 <= k < |Chunk(items, size)| ==>
              0 < |Chunk(items, size)[k]| <= size
              && (k < |Chunk(items, size)| - 1 ==> |Chunk(items, size)[k]| == size)
    decreases |items|
  {
    if |items| <= size {
    } else {
      ChunkSizes(items[size..], size);
      assert Chunk(items, size)[1..] == Chunk(items[size..], size);
      assert |Chunk(items[size..], size)| > 0;
    }
  }

  /** Two lists of lists with the same lengths. */
  ghost predicate Aligned<A, B>(ins: seq<seq<A>>, outs: seq<seq<B>>) {
    |ins| == |outs| && forall k :: 0 <= k < |ins| ==> |ins[k]| == |outs[k]|
  }

  lemma {:induction false} FlattenLength<A, B>(items: seq<A>, size: nat, outs: seq<seq<B>>)
    requires 0 < size && Aligned(Chunk(items, size), outs)
    ensures |Flatten(outs)| == |items|
    decreases |items|
  {
    if items == [] {
    } else if |items| <= size {
      assert outs[1..] == [];
    } else {
      assert Aligned(Chunk(items[size..], size), outs[1..]);
      FlattenLength(items[size..], size, outs[1..]);
    }
  }

  /** Where chunk `k` begins. */
  function Offset(k: nat, size: nat): nat {
    if k == 0 then 0 else size + Offset(k - 1, size)
  }

  lemma {:induction false} OffsetIsProduct(k: nat, size: nat)
    ensures Offset(k, size) == k * size
  {
    if k == 0 {
    } else {
      OffsetIsProduct(k - 1, size);
    }
  }

  /** Element j of list k is at Offset(k, size) + j of the flattened list. */
  lemma {:induction false} FlattenAt<A, B>(items: seq<A>, size: nat, outs: seq<seq<B>>, k: nat, j: nat)
    requires 0 < size && Aligned(Chunk(items, size), outs) && k < |outs| && j < |outs[k]|
    ensures Offset(k, size) + j < |items| == |Flatten(outs)| && Flatten(outs)[Offset(k, size) + j] == outs[k][j]
    decreases |items|
  {
    FlattenLength(items, size, outs);
    if k == 0 {
    } else {
      assert Aligned(Chunk(items[size..], size), outs[1..]);
      FlattenAt(items[size..], size, outs[1..], k - 1, j);
    }
  }

  /** Every position belongs to some batch. */
  lemma {:induction false} BatchOf<A>(items: seq<A>, size: nat, i: nat) returns (k: nat, j: nat)
    requires 0 < size && i < |items|
    ensures k < |Chunk(items, size)| && j < |Chunk(items, size)[k]| && i == Offset(k, size) + j
    ensures Chunk(items, size)[k][j] == items[i]
    decreases |items|
  {
    if i < size {
      k, j := 0, i;
    } else {
      var k1, j1 := BatchOf(items[size..], size, i - size);
      k, j := k1 + 1, j1;
    }
  }

  // ---------------------------------------------------------------------------------
  // One batch
  // ---------------------------------------------------------------------------------

  /**
   What the two batch callers do with batch number `k`: anything at all. The second one
   is asked about the list that the first one's output was read into.
   */
  datatype Callers<!A, !B, !C> = Callers(first: (nat, seq<A>) -> Got<B>, second: (nat, seq<B>) -> Got<C>)

  /** One item of the fan-out: both calls, each output checked against what was sent. */
  ghost function ProcessBatch<A, B(!new), C(!new)>(callers: Callers<A, B, C>, k: nat, batch: seq<A>): Checked<C> {
    var mids := Check(|batch|, callers.first(k, batch));
    if mids.Refused? then Refused
    else Check(|mids.outputs|, callers.second(k, mids.outputs))
  }

  /** An accepted batch is aligned at both stages. */
  lemma BatchAligned<A, B(!new), C(!new)>(callers: Callers<A, B, C>, k: nat, batch: seq<A>)
    requires ProcessBatch(callers, k, batch).Accepted?
    ensures |ProcessBatch(callers, k, batch).outputs| == |batch|
    ensures exists mids :: |mids| == |batch| && IsList(callers.first(k, batch), mids)
                           && IsList(callers.second(k, mids), ProcessBatch(callers, k, batch).outputs)
  {
    var mids := Check(|batch|, callers.first(k, batch)).outputs;
    assert |mids| == |batch| && IsList(callers.first(k, batch), mids);
  }

  lemma {:induction false} FlattenLast<T>(chunks: seq<seq<T>>, last: seq<T>)
    ensures Flatten(chunks + [last]) == Flatten(chunks) + last
  {
    if chunks == [] {
      assert Flatten([last]) == last + Flatten([]);
    } else {
      assert (chunks + [last])[1..] == chunks[1..] + [last];
      FlattenLast(chunks[1..], last);
    }
  }

  // ---------------------------------------------------------------------------------
  // Whole runs
  // ---------------------------------------------------------------------------------

  /** The lists in slots of which none is empty. */
  function Lists<T>(outs: seq<Option<seq<T>>>): seq<seq<T>>
    requires forall k :: 0 <= k < |outs| ==> outs[k].Some?
  {
    seq(|outs|, k requires 0 <= k < |outs| => outs[k].value)
  }

  /** All the lists one after the other; an empty slot cannot be appended. */
  function Gathered<T>(outs: seq<Option<seq<T>>>): Option<seq<T>> {
    if forall k :: 0 <= k < |outs| ==> outs[k].Some? then Some(Flatten(Lists(outs))) else None
  }

  /** Appending the batches' outputs, one batch after the other. */
  method Gather<T>(outs: seq<Option<seq<T>>>) returns (flat: Option<seq<T>>)
    ensures flat == Gathered(outs)
  {
    var list: seq<T> := [];
    for k := 0 to |outs|
      invariant forall j :: 0 <= j < k ==> outs[j].Some?
      invariant list == Flatten(Lists(outs[..k]))
    {
      if outs[k].None? { return None; }
      list := list + outs[k].value;
      assert Lists(outs[..k + 1]) == Lists(outs[..k]) + [outs[k].value];
      FlattenLast(Lists(outs[..k]), outs[k].value);
    }
    assert outs[..|outs|] == outs;
    flat := Some(list);
  }

  /** The list that a fail-fast `process` returns: a value or nothing in each slot. */
  function Outs<V, X>(results: seq<Option<Outcome<V, X>>>): seq<Option<V>> {
    seq(|results|, i requires 0 <= i < |results| =>
      if results[i].Some? && results[i].value.Ok? then Some(results[i].value.value) else None)
  }

  /** Fail-fast, without a deadline, at a concurrency of `c`. */
  function FailFastConfig(n: nat, c: nat): FM.Config {
    FM.Config(n, Some(c), false, None, None)
  }

  /** In the run a batch's coroutine returns only what `ProcessBatch` accepts; it may throw anything. */
  ghost predicate BatchRun<A, B(!new), C(!new), X>(
    steps: seq<FM.Step<seq<C>, X>>, chunks: seq<seq<A>>, callers: Callers<A, B, C>)
  {
    forall j :: 0 <= j < |steps| && steps[j].Return? && steps[j].call.raw.Gave? ==>
      steps[j].i < |chunks|
      && ProcessBatch(callers, steps[j].i, chunks[steps[j].i]) == Accepted(steps[j].call.raw.value)
  }

  ghost predicate BatchInv<A, B(!new), C(!new), X>(
    s: FM.State<seq<C>, X>, chunks: seq<seq<A>>, callers: Callers<A, B, C>)
  {
    |s.results| == |chunks| &&
    forall k :: 0 <= k < |chunks| && s.results[k].Some? && s.results[k].value.Ok? ==>
      ProcessBatch(callers, k, chunks[k]) == Accepted(s.results[k].value.value)
  }

  lemma BatchStep<A, B(!new), C(!new), X>(
    s: FM.State<seq<C>, X>, step: FM.Step<seq<C>, X>, chunks: seq<seq<A>>, callers: Callers<A, B, C>)
    requires FM.Can(s, step) && BatchInv(s, chunks, callers)
    requires step.Return? && step.call.raw.Gave? ==>
      step.i < |chunks| && ProcessBatch(callers, step.i, chunks[step.i]) == Accepted(step.call.raw.value)
    ensures BatchInv(FM.Next(s, step), chunks, callers)
  {
  }

  lemma {:induction false} BatchSteps<A, B(!new), C(!new), X>(
    s: FM.State<seq<C>, X>, steps: seq<FM.Step<seq<C>, X>>, t: FM.State<seq<C>, X>,
    chunks: seq<seq<A>>, callers: Callers<A, B, C>)
    requires FM.Reaches(s, steps, t) && BatchInv(s, chunks, callers) && BatchRun(steps, chunks, callers)
    ensures BatchInv(t, chunks, callers)
    decreases |steps|
  {
    if steps == [] {
    } else {
      BatchStep(s, steps[0], chunks, callers);
      BatchSteps(FM.Next(s, steps[0]), steps[1..], t, chunks, callers);
    }
  }

  /** Chunking loses nothing and keeps the order. */
  lemma {:induction false} FlattenChunk<T>(items: seq<T>, size: nat)
    requires 0 < size
    ensures Flatten(Chunk(items, size)) == items
    decreases |items|
  {
    if items == [] {
    } else if |items| <= size {
      assert Flatten([items]) == items + Flatten([]);
    } else {
      FlattenChunk(items[size..], size);
      assert Chunk(items, size)[1..] == Chunk(items[size..], size);
    }
  }

  /** Lists as long as the batches, flattened: each element is where its document was. */
  lemma PositionOf<A, C>(docs: seq<A>, size: nat, outs: seq<seq<C>>, k: nat, j: nat)
    requires 0 < size && Aligned(Chunk(docs, size), outs) && k < |outs| && j < |outs[k]|
    ensures k * size + j < |docs| == |Flatten(outs)|
    ensures docs[k * size + j] == Chunk(docs, size)[k][j]
    ensures Flatten(outs)[k * size + j] == outs[k][j]
  {
    OffsetIsProduct(k, size);
    FlattenChunk(docs, size);
    FlattenAt(docs, size, outs, k, j);
    FlattenAt(docs, size, Chunk(docs, size), k, j);
  }

  /** The lists that the batches came to are as long as the batches. */
  lemma BatchesAligned<A, B(!new), C(!new), X>(
    s: FM.State<seq<C>, X>, chunks: seq<seq<A>>, callers: Callers<A, B, C>)
    requires BatchInv(s, chunks, callers) && Gathered(Outs(s.results)).Some?
    ensures Aligned(chunks, Lists(Outs(s.results)))
    ensures forall k :: 0 <= k < |chunks| ==>
              ProcessBatch(callers, k, chunks[k]) == Accepted(Lists(Outs(s.results))[k])
  {
    forall k | 0 <= k < |chunks| ensures |Lists(Outs(s.results))[k]| == |chunks[k]| {
      assert Outs(s.results)[k].Some?;
      BatchAligned(callers, k, chunks[k]);
    }
  }

  /** A fail-fast run that returns has an accepted output for every batch whose task was not hit too early. */
  lemma BatchesAccepted<A, B(!new), C(!new), X>(
    chunks: seq<seq<A>>, callers: Callers<A, B, C>, c: nat, caller: Task,
    steps: seq<FM.Step<seq<C>, X>>, s: FM.State<seq<C>, X>)
    requires FP.Reachable(FailFastConfig(|chunks|, c), caller, steps, s) && FP.ReturnedNormally(s)
    requires BatchRun(steps, chunks, callers)
    ensures |s.results| == |s.children| == |chunks| && BatchInv(s, chunks, callers)
    ensures Gathered(Outs(s.results)).Some? <==> FP.Tidy(s)
  {
    var cfg := FailFastConfig(|chunks|, c);
    FP.NoHoles(cfg, caller, steps, s);
    BatchSteps(FM.Init<seq<C>, X>(cfg, caller), steps, s, chunks, callers);
    var outs := Outs(s.results);
    forall k | 0 <= k < |chunks| ensures outs[k].None? <==> s.children[k].stray {
      FP.FilledSlots(cfg, caller, steps, s, k);
    }
  }

  /** Document `j` of batch `k`, and its output: the matching position of its own batch's output. */
  ghost predicate InPlace<A, B(!new), C(!new)>(
    docs: seq<A>, size: nat, callers: Callers<A, B, C>, flat: seq<C>, k: nat, j: nat)
    requires 0 < size && k < |Chunk(docs, size)| && j < |Chunk(docs, size)[k]|
  {
    var batch := Chunk(docs, size)[k];
    var out := ProcessBatch(callers, k, batch);
    && out.Accepted? && |out.outputs| == |batch|
    && k * size + j < |docs| == |flat|
    && docs[k * size + j] == batch[j] && flat[k * size + j] == out.outputs[j]
  }

  /**
   Against arbitrary batch callers, whatever they do to each other's tasks: once the fan-out has
   returned, the run raises exactly if some batch's task was hit before it had its slot, which
   takes a stray cancel. Otherwise it returns exactly one output per document, and document
   i's output is the matching position of its own batch's output.
   */
  lemma BatchedAlignment<A, B(!new), C(!new), X>(
    docs: seq<A>, size: nat, callers: Callers<A, B, C>, c: nat, caller: Task,
    steps: seq<FM.Step<seq<C>, X>>, s: FM.State<seq<C>, X>)
    requires 0 < size && 0 < c
    requires FP.Reachable(FailFastConfig(|Chunk(docs, size)|, c), caller, steps, s) && FP.ReturnedNormally(s)
    requires BatchRun(steps, Chunk(docs, size), callers)
    ensures var flat := Gathered(Outs(s.results));
            && (flat.None? <==> exists k :: 0 <= k < |s.children| && s.children[k].stray)
            && (FP.NoStray(steps) ==> flat.Some?)
            && (flat.Some? ==>
                  && |flat.value| == |docs|
                  && forall k: nat, j: nat :: k < |Chunk(docs, size)| && j < |Chunk(docs, size)[k]| ==>
                       InPlace(docs, size, callers, flat.value, k, j))
  {
    var chunks := Chunk(docs, size);
    BatchesAccepted(chunks, callers, c, caller, steps, s);
    FP.NoHoles(FailFastConfig(|chunks|, c), caller, steps, s);
    if Gathered(Outs(s.results)).Some? {
      var outs := Lists(Outs(s.results));
      BatchesAligned(s, chunks, callers);
      FlattenLength(docs, size, outs);
      forall k: nat, j: nat | k < |chunks| && j < |chunks[k]|
        ensures InPlace(docs, size, callers, Flatten(outs), k, j)
      {
        PositionOf(docs, size, outs, k, j);
      }
    }
  }

  /** Callers that answer, in whatever kind of list, with one output per input. */
  ghost predicate Pointwise<A(!new), B(!new), C>(callers: Callers<A, B, C>, f1: A -> B, f2: B -> C) {
    && (forall k: nat, batch: seq<A> :: IsList(callers.first(k, batch), Map(f1, batch)))
    && (forall k: nat, mids: seq<B> :: IsList(callers.second(k, mids), Map(f2, mids)))
  }

  lemma PointwiseBatch<A(!new), B(!new), C(!new)>(
    callers: Callers<A, B, C>, f1: A -> B, f2: B -> C, k: nat, batch: seq<A>)
    requires Pointwise(callers, f1, f2)
    ensures ProcessBatch(callers, k, batch) == Accepted(Map(f2, Map(f1, batch)))
  {
    var mids := Map(f1, batch);
    assert IsList(callers.first(k, batch), mids) && |mids| == |batch|;
    OneList(callers.first(k, batch), Check(|batch|, callers.first(k, batch)).outputs, mids);
    var outs := Map(f2, mids);
    assert IsList(callers.second(k, mids), outs) && |outs| == |mids|;
    OneList(callers.second(k, mids), Check(|mids|, callers.second(k, mids)).outputs, outs);
  }

  lemma MappedBatch<A(!new), B(!new), C(!new)>(
    callers: Callers<A, B, C>, f1: A -> B, f2: B -> C, f: A -> C, k: nat, batch: seq<A>, out: seq<C>)
    requires Pointwise(callers, f1, f2) && forall a :: f(a) == f2(f1(a))
    requires Accepted(out) == ProcessBatch(callers, k, batch)
    ensures out == Map(f, batch)
  {
    PointwiseBatch(callers, f1, f2, k, batch);
  }

  /** Flattening the mapped chunks is mapping the list. */
  lemma FlattenMapped<A, B>(docs: seq<A>, size: nat, f: A -> B, outs: seq<seq<B>>)
    requires 0 < size && |outs| == |Chunk(docs, size)|
    requires forall k :: 0 <= k < |outs| ==> outs[k] == Map(f, Chunk(docs, size)[k])
    ensures Flatten(outs) == Map(f, docs)
  {
    FlattenLength(docs, size, outs);
    forall i | 0 <= i < |docs| ensures Flatten(outs)[i] == f(docs[i]) {
      var k, j := BatchOf(docs, size, i);
      FlattenAt(docs, size, outs, k, j);
    }
  }

  /** Every batch's accepted output in its slot: gathering them gives the serial list. */
  lemma GatheredMap<A(!new), B(!new), C(!new), X>(
    docs: seq<A>, f1: A -> B, f2: B -> C, callers: Callers<A, B, C>, size: nat, batch: nat -> seq<C>,
    results: seq<Option<Outcome<seq<C>, X>>>)
    requires 0 < size && Pointwise(callers, f1, f2)
    requires forall k: nat :: k < |Chunk(docs, size)| ==>
               Accepted(batch(k)) == ProcessBatch(callers, k, Chunk(docs, size)[k])
    requires results == FP.Mapped(|Chunk(docs, size)|, batch)
    ensures Gathered(Outs(results)) == Some(Map(f2, Map(f1, docs)))
  {
    var chunks, f := Chunk(docs, size), (doc: A) => f2(f1(doc));
    forall k | 0 <= k < |chunks| ensures Outs(results)[k] == Some(Map(f, chunks[k])) {
      MappedBatch(callers, f1, f2, f, k, chunks[k], batch(k));
    }
    FlattenMapped(docs, size, f, Lists(Outs(results)));
    assert Map(f, docs) == Map(f2, Map(f1, docs));
  }

  /**
   The three pipelines agree: for functions of one document, every concurrency, every
   batch size and every schedule, the fanned-out runs end with the serial list.
   */
  lemma PipelinesAgree<A(!new), B(!new), C(!new), X(!new)>(
    docs: seq<A>, f1: A -> B, f2: B -> C, callers: Callers<A, B, C>, size: nat, c: nat, caller: Task,
    one: nat -> C, steps: seq<FM.Step<C, X>>, s: FM.State<C, X>,
    batch: nat -> seq<C>, bsteps: seq<FM.Step<seq<C>, X>>, t: FM.State<seq<C>, X>)
    requires 0 < size && 0 < c && !caller.done && !caller.undelivered && Pointwise(callers, f1, f2)
    requires forall i: nat :: i < |docs| ==> one(i) == f2(f1(docs[i]))
    requires forall k: nat :: k < |Chunk(docs, size)| ==>
               Accepted(batch(k)) == ProcessBatch(callers, k, Chunk(docs, size)[k])
    requires FP.PureRun(FM.Init(FailFastConfig(|docs|, c), caller), steps, s, one) && s.group.phase.Exited?
    requires FP.PureRun(FM.Init(FailFastConfig(|Chunk(docs, size)|, c), caller), bsteps, t, batch)
    requires t.group.phase.Exited?
    ensures |s.results| == |docs| && forall i :: 0 <= i < |docs| ==>
              s.results[i] == Some(Ok(Map(f2, Map(f1, docs))[i]))
    ensures Gathered(Outs(t.results)) == Some(Map(f2, Map(f1, docs)))
  {
    FP.ComputesMap(FailFastConfig(|docs|, c), caller, steps, s, one);
    FP.ComputesMap(FailFastConfig(|Chunk(docs, size)|, c), caller, bsteps, t, batch);
    GatheredMap(docs, f1, f2, callers, size, batch, t.results);
  }
}
