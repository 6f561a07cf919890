/** The built-in sequence workflow: a list of activities, each in a step of its own. */
module Sequence {
  import opened Values
  import opened Faults
  import opened StoreModel
  import opened Text
  import opened Keys
  import opened Runtime
  import opened RuntimeInvariant
  import opened Guarantees

  datatype Item = Item(name: string, activity: string, input: Json)

  /** The name of step `i`, or its position when it has none. */
  function NameOf(items: seq<Item>, i: nat): string
    requires i < |items|
  {
    if items[i].name == "" then "step_" + Decimal(i + 1) else items[i].name
  }

  /** Some earlier step has the name of step `i`. */
  predicate Repeats(items: seq<Item>, i: nat)
    requires i < |items|
  {
    exists k :: 0 <= k < i && NameOf(items, k) == NameOf(items, i)
  }

  function ResultsUpTo(items: seq<Item>, hist: seq<Json>, n: nat): map<string, Json>
    requires n <= |items| && n <= |hist|
  {
    if n == 0 then map[] else ResultsUpTo(items, hist, n - 1)[NameOf(items, n - 1) := hist[n - 1]]
  }

  type Marshal = map<string, Json> -> Json

  /** What step `i` and the ones after it come to, when `hist` holds the results that
      the steps of this run have returned so far. */
  function From(items: seq<Item>, hist: seq<Json>, marshal: Marshal, i: nat): Action
    requires i <= |items| && i <= |hist|
    decreases |items| - i
  {
    if i == |items| then Return(Some(marshal(ResultsUpTo(items, hist, i))))
    else if Repeats(items, i) then Raise(Plain("duplicate step name " + NameOf(items, i)))
    else if i == |hist| then DoStep([], NameOf(items, i))
    else From(items, hist, marshal, i + 1)
  }

  function Names(items: seq<Item>, n: nat): set<string>
    requires n <= |items|
  {
    set k | 0 <= k < n :: NameOf(items, k)
  }

  /** The loop. A step either has its result in `hist`, or is what the run asks for
      next; `marshal` is the JSON encoding of the results. */
  method SequenceWorkflow(items: seq<Item>, hist: seq<Json>, marshal: Marshal) returns (next: Action)
    ensures next == From(items, hist, marshal, 0)
  {
    var results: map<string, Json> := map[];
    for i := 0 to |items|
      invariant i <= |hist| && results == ResultsUpTo(items, hist, i) && results.Keys == Names(items, i)
      invariant From(items, hist, marshal, 0) == From(items, hist, marshal, i)
    {
      var name := if items[i].name == "" then "step_" + Decimal(i + 1) else items[i].name;
      assert name in results <==> Repeats(items, i);
      if name in results {
        return Raise(Plain("duplicate step name " + name));
      }
      if i == |hist| {
        return DoStep([], name);
      }
      results := results[name := hist[i]];
    }
    return Return(Some(marshal(results)));
  }

  // ---------------------------------------------------------------- theorem

  /** No name up to step `n` is used twice. */
  predicate NoRepeats(items: seq<Item>, n: nat)
    requires n <= |items|
  {
    forall i | 0 <= i < n :: !Repeats(items, i)
  }

  lemma {:induction false} AsksInOrder(items: seq<Item>, hist: seq<Json>, marshal: Marshal, i: nat)
    requires i <= |items| && i <= |hist| && NoRepeats(items, i)
    ensures var a := From(items, hist, marshal, i);
            && (a.DoStep? ==> |hist| < |items| && NoRepeats(items, |hist| + 1) && a == DoStep([], NameOf(items, |hist|)))
            && (a.Return? ==> |items| <= |hist| && NoRepeats(items, |items|)
                              && a == Return(Some(marshal(ResultsUpTo(items, hist, |items|)))))
            && (a.DoStep? || a.Return? || a.Raise?)
    decreases |items| - i
  {
    if i < |items| && !Repeats(items, i) {
      assert NoRepeats(items, i + 1);
      if i < |hist| { AsksInOrder(items, hist, marshal, i + 1); }
    }
  }

  lemma {:induction false} ResultNames(items: seq<Item>, hist: seq<Json>, n: nat)
    requires n <= |items| && n <= |hist|
    ensures ResultsUpTo(items, hist, n).Keys == Names(items, n)
  {
    if n > 0 {
      ResultNames(items, hist, n - 1);
      assert Names(items, n) == Names(items, n - 1) + {NameOf(items, n - 1)};
    }
  }

  lemma {:induction false} ResultAt(items: seq<Item>, hist: seq<Json>, n: nat, i: nat)
    requires i < n <= |items| && n <= |hist| && NoRepeats(items, n)
    ensures NameOf(items, i) in ResultsUpTo(items, hist, n) && ResultsUpTo(items, hist, n)[NameOf(items, i)] == hist[i]
    decreases n
  {
    if i < n - 1 {
      ResultAt(items, hist, n - 1, i);
      assert !Repeats(items, n - 1);
    }
  }

  ghost predicate IsSequence(reg: Registry, kind: string, payload: Json, items: seq<Item>, marshal: Marshal) {
    forall hist :: reg(kind, payload, hist) == From(items, hist, marshal, 0)
  }

  function StepKey(items: seq<Item>, i: nat): string
    requires i < |items|
  {
    StoredKey([], StepCall(NameOf(items, i)))
  }

  /** Step `i` of a sequence is what the run's i-th observation is of. */
  lemma ObservedInOrder(reg: Registry, run: Run, seen: map<JobId, StoreModel.Entry>, s: StoreModel.State, items: seq<Item>, marshal: Marshal, i: nat)
    requires IsSequence(reg, run.kind, run.payload, items, marshal) && RunOk(reg, run, seen, s) && i < |run.obs|
    ensures i < |items| && NoRepeats(items, i + 1)
    ensures run.obs[i].Value? && run.obs[i].key == StepKey(items, i) && Holds(seen[run.job], StepKey(items, i), run.obs[i].value)
  {
    var hist := Seen(run.obs[..i]);
    assert ObsMatches(reg(run.kind, run.payload, hist), run.obs[i], seen[run.job], seen, s.now);
    AsksInOrder(items, hist, marshal, 0);
  }

  /** A sequence never mistakes one step's checkpoint for another's: its steps run in
      order under pairwise different keys, and when it returns, the result has exactly
      the names of the list, each with the checkpoint of its own step. */
  lemma EveryStepItsOwn(reg: Registry, y: Sys, r: nat, items: seq<Item>, marshal: Marshal)
    requires Reachable(reg, y) && r < |y.runs|
    requires IsSequence(reg, y.runs[r].kind, y.runs[r].payload, items, marshal)
    ensures var run := y.runs[r];
            && |run.obs| <= |items|
            && (forall i | 0 <= i < |run.obs| :: run.obs[i].Value? && run.obs[i].key == StepKey(items, i))
            && (forall i, k | 0 <= i < k < |run.obs| :: run.obs[i].key != run.obs[k].key)
    ensures var run := y.runs[r];
            NextAction(reg, run).Return? ==>
              run.job in y.seen && exists results ::
                && NextAction(reg, run) == Return(Some(marshal(results)))
                && results.Keys == Names(items, |items|)
                && forall i | 0 <= i < |items| ::
                     Holds(y.seen[run.job], StepKey(items, i), results[NameOf(items, i)])
  {
    ReachableOk(reg, y);
    var run := y.runs[r];
    assert RunOk(reg, run, y.seen, y.store);
    InOrder(reg, run, y.seen, y.store, items, marshal);
    if NextAction(reg, run).Return? {
      Returns(reg, run, y.seen, y.store, items, marshal);
    }
  }

  lemma InOrder(reg: Registry, run: Run, seen: map<JobId, StoreModel.Entry>, s: StoreModel.State, items: seq<Item>, marshal: Marshal)
    requires IsSequence(reg, run.kind, run.payload, items, marshal) && RunOk(reg, run, seen, s)
    ensures |run.obs| <= |items|
    ensures forall i | 0 <= i < |run.obs| ::
              run.obs[i].Value? && run.obs[i].key == StepKey(items, i) && Holds(seen[run.job], StepKey(items, i), run.obs[i].value)
    ensures forall i, k | 0 <= i < k < |run.obs| :: run.obs[i].key != run.obs[k].key
  {
    if |run.obs| > 0 { ObservedInOrder(reg, run, seen, s, items, marshal, |run.obs| - 1); }
    forall i | 0 <= i < |run.obs|
      ensures run.obs[i].Value? && run.obs[i].key == StepKey(items, i) && Holds(seen[run.job], StepKey(items, i), run.obs[i].value)
    {
      ObservedInOrder(reg, run, seen, s, items, marshal, i);
    }
    forall i, k | 0 <= i < k < |run.obs|
      ensures run.obs[i].key != run.obs[k].key
    {
      ObservedInOrder(reg, run, seen, s, items, marshal, k);
      assert !Repeats(items, k);
    }
  }

  lemma Returns(reg: Registry, run: Run, seen: map<JobId, StoreModel.Entry>, s: StoreModel.State, items: seq<Item>, marshal: Marshal)
    requires IsSequence(reg, run.kind, run.payload, items, marshal) && RunOk(reg, run, seen, s) && NextAction(reg, run).Return?
    ensures exists results ::
              && NextAction(reg, run) == Return(Some(marshal(results)))
              && results.Keys == Names(items, |items|)
              && forall i | 0 <= i < |items| :: Holds(seen[run.job], StepKey(items, i), results[NameOf(items, i)])
  {
    var hist := Seen(run.obs);
    AsksInOrder(items, hist, marshal, 0);
    ResultNames(items, hist, |items|);
    InOrder(reg, run, seen, s, items, marshal);
    var results := ResultsUpTo(items, hist, |items|);
    forall i | 0 <= i < |items|
      ensures Holds(seen[run.job], StepKey(items, i), results[NameOf(items, i)])
    {
      ResultAt(items, hist, |items|, i);
      assert hist[i] == ViewOf(run.obs[i]);
    }
  }

  // ------------------------------------------------- in terms of the list

  /** The first `n` steps have different names, where a step without one is called by its
      position, counted from 1. */
  predicate AllDifferent(items: seq<Item>, n: nat)
    requires n <= |items|
  {
    forall i, k | 0 <= i < k < n ::
      (if items[i].name == "" then "step_" + Decimal(i + 1) else items[i].name)
      != if items[k].name == "" then "step_" + Decimal(k + 1) else items[k].name
  }

  lemma DifferentIffNoRepeats(items: seq<Item>, n: nat)
    requires n <= |items|
    ensures NoRepeats(items, n) <==> AllDifferent(items, n)
  {
    if NoRepeats(items, n) {
      forall i, k | 0 <= i < k < n
        ensures (if items[i].name == "" then "step_" + Decimal(i + 1) else items[i].name)
                != if items[k].name == "" then "step_" + Decimal(k + 1) else items[k].name
      {
        assert !Repeats(items, k) && NameOf(items, i) != NameOf(items, k);
      }
    } else {
      var k :| 0 <= k < n && Repeats(items, k);
      var i :| 0 <= i < k && NameOf(items, i) == NameOf(items, k);
    }
  }

  lemma {:induction false} GoesThrough(items: seq<Item>, hist: seq<Json>, marshal: Marshal, i: nat, n: nat)
    requires i <= n <= |items| && n <= |hist| && NoRepeats(items, n)
    ensures From(items, hist, marshal, i) == From(items, hist, marshal, n)
    decreases n - i
  {
    if i < n {
      assert !Repeats(items, i);
      GoesThrough(items, hist, marshal, i + 1, n);
    }
  }

  /** Exactly when the workflow asks for a step, which is the first one without a result,
      when it returns, and when it stops, which is before the second of two equal names is
      used; that error is not permanent. */
  lemma WhatItAsks(items: seq<Item>, hist: seq<Json>, marshal: Marshal)
    ensures var a, n, most := From(items, hist, marshal, 0), |hist|, Min(|hist| + 1, |items|);
            && (a.DoStep? <==> n < |items| && AllDifferent(items, n + 1))
            && (a.DoStep? ==> a.path == [] && a.name == if items[n].name == "" then "step_" + Decimal(n + 1) else items[n].name)
            && (a.Return? <==> |items| <= n && AllDifferent(items, |items|))
            && (a.Raise? <==> !AllDifferent(items, most))
            && (a.Raise? ==> !IsPermanent(a.fault) && FindSuspension(a.fault).None?)
  {
    var n, most := |hist|, Min(|hist| + 1, |items|);
    AsksInOrder(items, hist, marshal, 0);
    DifferentIffNoRepeats(items, most);
    Stops(items, hist, marshal, 0);
    if NoRepeats(items, most) {
      GoesThrough(items, hist, marshal, 0, Min(n, |items|));
    }
  }

  lemma {:induction false} Stops(items: seq<Item>, hist: seq<Json>, marshal: Marshal, i: nat)
    requires i <= |items| && i <= |hist| && NoRepeats(items, i)
    ensures var a, most := From(items, hist, marshal, i), Min(|hist| + 1, |items|);
            a.Raise? ==> !NoRepeats(items, most) && !IsPermanent(a.fault) && FindSuspension(a.fault).None?
    decreases |items| - i
  {
    if i < |items| && !Repeats(items, i) && i < |hist| {
      Stops(items, hist, marshal, i + 1);
    }
  }
}
