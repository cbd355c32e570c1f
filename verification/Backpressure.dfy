/** The benchmark's question to a `stream` run's metrics: did the bound on the queue apply? */
module Backpressure {
  import opened Cancellation
  import opened StreamModel
  import opened StreamSafety
  import opened StreamResults
  import opened StreamDepth
  import opened StreamLimits

  datatype Row = Row(n: nat, queueSize: nat, maxDepth: nat, pauses: nat)

  predicate Saturated(r: Row) {
    r.n > r.queueSize && (r.maxDepth >= r.queueSize || r.pauses > 0)
  }

  /** The row that a finished run contributes to the table. */
  function RowOf(s: State): Row {
    Row(s.cfg.items, s.cfg.queueSize, s.metrics.maxDepth, s.metrics.pauses)
  }

  /**
   For the metrics of a real run the disjunction says one thing: there were more items
   than the queue holds, and the queue was full at some moment. A pause implies both.
   */
  lemma SaturatedExact(cfg: Config, caller: Task, steps: seq<Step>, s: State)
    requires Reachable(cfg, caller, steps, s) && ReturnedNormally(s)
    ensures Saturated(RowOf(s)) <==> cfg.items > cfg.queueSize && WasFull(Init(cfg, caller), steps)
    ensures s.metrics.pauses > 0 ==> Saturated(RowOf(s))
  {
    ReachableInv(cfg, caller, steps, s);
    ReturnAccounts(cfg, caller, steps, s);
    FullExactly(cfg, caller, steps, s);
  }

  /** The two lists of row keys under the table: `n` of the rows that filled, (n, queue) of the others. */
  function SaturatedNs(rows: seq<Row>): set<nat> {
    set i | 0 <= i < |rows| && Saturated(rows[i]) :: rows[i].n
  }

  function UnfilledRows(rows: seq<Row>): set<(nat, nat)> {
    set i | 0 <= i < |rows| && !Saturated(rows[i]) :: (rows[i].n, rows[i].queueSize)
  }

  /** A finished benchmark run behind a row of the table. */
  datatype Ran = Ran(cfg: Config, caller: Task, steps: seq<Step>, end: State)

  ghost predicate Finished(r: Ran) {
    Reachable(r.cfg, r.caller, r.steps, r.end) && ReturnedNormally(r.end)
  }

  /** The bound on the queue applied: there was more to put than it holds, and it was full at some moment. */
  ghost predicate Filled(r: Ran) {
    r.cfg.items > r.cfg.queueSize && WasFull(Init(r.cfg, r.caller), r.steps)
  }

  function Table(runs: seq<Ran>): seq<Row> {
    seq(|runs|, i requires 0 <= i < |runs| => RowOf(runs[i].end))
  }

  lemma RunBehindRow(r: Ran)
    requires Finished(r)
    ensures r.end.cfg == r.cfg && (Saturated(RowOf(r.end)) <==> Filled(r))
    ensures r.end.metrics.pauses > 0 ==> Filled(r)
    ensures r.end.metrics.maxDepth <= Least(r.cfg.items, r.cfg.queueSize)
  {
    SaturatedExact(r.cfg, r.caller, r.steps, r.end);
    MetricsTellTheTruth(r.cfg, r.caller, r.steps, r.end);
    ReachableInv(r.cfg, r.caller, r.steps, r.end);
  }

  lemma RowsAreTheirs(runs: seq<Ran>)
    requires forall i :: 0 <= i < |runs| ==> Finished(runs[i])
    ensures |Table(runs)| == |runs|
    ensures forall i :: 0 <= i < |runs| ==>
              var r := Table(runs)[i];
              && r.n == runs[i].cfg.items && r.queueSize == runs[i].cfg.queueSize
              && (Saturated(r) <==> Filled(runs[i]))
  {
    forall i | 0 <= i < |runs|
      ensures runs[i].end.cfg == runs[i].cfg && (Saturated(Table(runs)[i]) <==> Filled(runs[i]))
    {
      RunBehindRow(runs[i]);
    }
  }

  /**
   What the two lists under the table say is true of the runs. An `n` is listed as filled if
   and only if some run of that many items filled its queue; a pair is listed as unfilled if
   and only if some run of that size did not, and such a run never paused its producer.
   */
  lemma RowsSplit(runs: seq<Ran>, n: nat, queueSize: nat)
    requires forall i :: 0 <= i < |runs| ==> Finished(runs[i])
    ensures n in SaturatedNs(Table(runs)) <==>
              exists i :: 0 <= i < |runs| && runs[i].cfg.items == n && Filled(runs[i])
    ensures (n, queueSize) in UnfilledRows(Table(runs)) <==>
              exists i :: 0 <= i < |runs| && runs[i].cfg.items == n && runs[i].cfg.queueSize == queueSize
                          && !Filled(runs[i])
    ensures forall i :: 0 <= i < |runs| && !Filled(runs[i]) ==>
              && runs[i].end.metrics.pauses == 0
              && runs[i].end.metrics.maxDepth <= Least(runs[i].cfg.items, runs[i].cfg.queueSize)
  {
    var rows := Table(runs);
    RowsAreTheirs(runs);
    forall i | 0 <= i < |runs| && !Filled(runs[i])
      ensures runs[i].end.metrics.pauses == 0
      ensures runs[i].end.metrics.maxDepth <= Least(runs[i].cfg.items, runs[i].cfg.queueSize)
    {
      RunBehindRow(runs[i]);
    }
    if i :| 0 <= i < |runs| && runs[i].cfg.items == n && Filled(runs[i]) { assert rows[i].n in SaturatedNs(rows); }
    if i :| 0 <= i < |runs| && runs[i].cfg.items == n && runs[i].cfg.queueSize == queueSize && !Filled(runs[i]) {
      assert (rows[i].n, rows[i].queueSize) in UnfilledRows(rows);
    }
  }
}
