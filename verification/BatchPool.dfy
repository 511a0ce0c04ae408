/**
The batch worker pool: workers claim input slots from one shared counter, in
any interleaving, and the results are put back into input order.
*/
module BatchPool {
  import opened Options

  datatype Outcome = Outcome(success: bool, record: string)

  datatype Worker = Free | Busy(index: nat) | Gone

  /** The shared counter, what each worker is doing, and what each has finished. */
  datatype Pool = Pool(next: nat, workers: seq<Worker>, finished: seq<seq<(nat, Outcome)>>)

  datatype Step = Claim(worker: nat) | Finish(worker: nat, outcome: Outcome)

  function Workers(concurrency: nat, requests: nat): nat {
    if concurrency < requests then concurrency else requests
  }

  function Copies<T>(x: T, count: nat): (r: seq<T>)
    ensures |r| == count
  {
    if count == 0 then [] else [x] + Copies(x, count - 1)
  }

  function Start(concurrency: nat, requests: nat): Pool {
    Pool(0, Copies(Free, Workers(concurrency, requests)), Copies([], Workers(concurrency, requests)))
  }

  predicate Enabled(s: Pool, step: Step) {
    && step.worker < |s.workers| == |s.finished|
    && if step.Claim? then s.workers[step.worker].Free? else s.workers[step.worker].Busy?
  }

  /** One worker adds one to the counter and takes the slot it read, or reports. */
  function Take(requests: nat, s: Pool, step: Step): Pool
    requires Enabled(s, step)
  {
    var w := step.worker;
    match step
    case Claim(_) =>
      s.(next := s.next + 1, workers := s.workers[w := if s.next < requests then Busy(s.next) else Gone])
    case Finish(_, outcome) =>
      s.(workers := s.workers[w := Free], finished := s.finished[w := s.finished[w] + [(s.workers[w].index, outcome)]])
  }

  /** A run is any sequence of enabled steps. */
  predicate Legal(requests: nat, s: Pool, steps: seq<Step>)
    decreases |steps|
  {
    steps == [] || (Enabled(s, steps[0]) && Legal(requests, Take(requests, s, steps[0]), steps[1..]))
  }

  function After(requests: nat, s: Pool, steps: seq<Step>): Pool
    requires Legal(requests, s, steps)
    decreases |steps|
  {
    if steps == [] then s else After(requests, Take(requests, s, steps[0]), steps[1..])
  }

  predicate Joined(s: Pool) {
    forall w :: 0 <= w < |s.workers| ==> s.workers[w].Gone?
  }

  // ------------------------------------------------------------- who holds what

  function One(b: bool): nat {
    if b then 1 else 0
  }

  /** How many workers are executing a slot. */
  function Holding(workers: seq<Worker>, index: nat): nat {
    if workers == [] then 0 else One(workers[0] == Busy(index)) + Holding(workers[1..], index)
  }

  /** How many results a worker has for a slot. */
  function Results(done: seq<(nat, Outcome)>, index: nat): nat {
    if done == [] then 0 else Results(done[..|done| - 1], index) + One(done[|done| - 1].0 == index)
  }

  function Reported(finished: seq<seq<(nat, Outcome)>>, index: nat): nat {
    if finished == [] then 0 else Results(finished[0], index) + Reported(finished[1..], index)
  }

  function CountGone(workers: seq<Worker>): nat {
    if workers == [] then 0 else One(workers[0].Gone?) + CountGone(workers[1..])
  }

  function CountBusy(workers: seq<Worker>): nat {
    if workers == [] then 0 else One(workers[0].Busy?) + CountBusy(workers[1..])
  }

  function Claimed(requests: nat, s: Pool): nat {
    if s.next < requests then s.next else requests
  }

  /** A slot below the counter is executing or done exactly once, others never. */
  predicate ClaimedOnce(requests: nat, s: Pool, index: nat) {
    Holding(s.workers, index) + Reported(s.finished, index) == One(index < Claimed(requests, s))
  }

  /** Every slot is claimed at most once, and the counter has run past the input
      once for every worker that is gone. */
  ghost predicate Inv(requests: nat, s: Pool) {
    && |s.workers| == |s.finished|
    && (forall index: nat :: ClaimedOnce(requests, s, index))
    && s.next == Claimed(requests, s) + CountGone(s.workers)
  }

  /** The number of steps that are left in any run. */
  function Remaining(requests: nat, s: Pool): int {
    2 * (requests - Claimed(requests, s)) + CountBusy(s.workers) + |s.workers| - CountGone(s.workers)
  }

  // ---------------------------------------------------------------------- steps

  lemma {:induction false} UpdateHolding(workers: seq<Worker>, w: nat, now: Worker, index: nat)
    requires w < |workers|
    ensures Holding(workers[w := now], index) + One(workers[w] == Busy(index)) == Holding(workers, index) + One(now == Busy(index))
  {
    if w == 0 {
      assert workers[w := now][1..] == workers[1..];
    } else {
      UpdateHolding(workers[1..], w - 1, now, index);
      assert workers[w := now][1..] == workers[1..][w - 1 := now];
    }
  }

  lemma {:induction false} UpdateCounts(workers: seq<Worker>, w: nat, now: Worker)
    requires w < |workers|
    ensures CountGone(workers[w := now]) + One(workers[w].Gone?) == CountGone(workers) + One(now.Gone?)
    ensures CountBusy(workers[w := now]) + One(workers[w].Busy?) == CountBusy(workers) + One(now.Busy?)
  {
    if w == 0 {
      assert workers[w := now][1..] == workers[1..];
    } else {
      UpdateCounts(workers[1..], w - 1, now);
      assert workers[w := now][1..] == workers[1..][w - 1 := now];
    }
  }

  lemma {:induction false} UpdateReported(finished: seq<seq<(nat, Outcome)>>, w: nat, entry: (nat, Outcome), index: nat)
    requires w < |finished|
    ensures Reported(finished[w := finished[w] + [entry]], index) == Reported(finished, index) + One(entry.0 == index)
  {
    var done := finished[w] + [entry];
    assert done[..|done| - 1] == finished[w];
    if w == 0 {
      assert finished[w := done][1..] == finished[1..];
    } else {
      UpdateReported(finished[1..], w - 1, entry, index);
      assert finished[w := done][1..] == finished[1..][w - 1 := done];
    }
  }

  lemma {:induction false} StepKeepsSlot(requests: nat, s: Pool, step: Step, index: nat)
    requires Enabled(s, step) && ClaimedOnce(requests, s, index)
    ensures ClaimedOnce(requests, Take(requests, s, step), index)
  {
    var w, t := step.worker, Take(requests, s, step);
    UpdateHolding(s.workers, w, t.workers[w], index);
    if step.Finish? { UpdateReported(s.finished, w, (s.workers[w].index, step.outcome), index); }
  }

  /** Every step keeps the invariant and is one of those that were left. */
  lemma {:induction false} StepKeepsInv(requests: nat, s: Pool, step: Step)
    requires Inv(requests, s) && Enabled(s, step)
    ensures Inv(requests, Take(requests, s, step))
    ensures Remaining(requests, Take(requests, s, step)) + 1 == Remaining(requests, s)
  {
    var t := Take(requests, s, step);
    UpdateCounts(s.workers, step.worker, t.workers[step.worker]);
    forall index: nat ensures ClaimedOnce(requests, t, index) { StepKeepsSlot(requests, s, step, index); }
  }

  lemma {:induction false} RunKeepsInv(requests: nat, s: Pool, steps: seq<Step>)
    requires Inv(requests, s) && Legal(requests, s, steps)
    ensures Inv(requests, After(requests, s, steps))
    ensures Remaining(requests, After(requests, s, steps)) + |steps| == Remaining(requests, s)
    decreases |steps|
  {
    if steps != [] {
      StepKeepsInv(requests, s, steps[0]);
      RunKeepsInv(requests, Take(requests, s, steps[0]), steps[1..]);
    }
  }

  lemma {:induction false} StartIsEmpty(count: nat, index: nat)
    ensures var workers := Copies(Free, count);
      Holding(workers, index) == 0 && CountGone(workers) == 0 && CountBusy(workers) == 0
    ensures Reported(Copies([], count), index) == 0
  {
    if count > 0 { StartIsEmpty(count - 1, index); }
  }

  lemma {:induction false} StartKeepsInv(concurrency: nat, requests: nat)
    ensures Inv(requests, Start(concurrency, requests))
    ensures var s := Start(concurrency, requests); Remaining(requests, s) == 2 * requests + |s.workers|
  {
    var s := Start(concurrency, requests);
    forall index: nat ensures ClaimedOnce(requests, s, index) { StartIsEmpty(|s.workers|, index); }
    StartIsEmpty(|s.workers|, 0);
  }

  lemma {:induction false} CountsOfGone(workers: seq<Worker>)
    ensures CountGone(workers) + CountBusy(workers) <= |workers|
    ensures CountGone(workers) == |workers| <==> forall w :: 0 <= w < |workers| ==> workers[w].Gone?
  {
    if workers != [] {
      var rest := workers[1..];
      CountsOfGone(rest);
      assert forall w :: 0 < w < |workers| ==> workers[w] == rest[w - 1];
    }
  }

  // --------------------------------------------------------------- what runs do

  /** No run is stuck before all workers are gone. */
  lemma {:induction false} PoolMakesProgress(requests: nat, s: Pool)
    requires Inv(requests, s)
    ensures !Joined(s) ==> exists step :: Enabled(s, step)
  {
    if !Joined(s) {
      var w :| 0 <= w < |s.workers| && !s.workers[w].Gone?;
      var step := if s.workers[w].Free? then Claim(w) else Finish(w, Outcome(true, ""));
      assert Enabled(s, step);
    }
  }

  /** No slot is executed twice, counting executions that are under way. */
  ghost predicate NeverTwice(s: Pool) {
    forall index: nat :: Holding(s.workers, index) + Reported(s.finished, index) <= 1
  }

  /** Every input slot has exactly one result, and there are no others. */
  ghost predicate OnceEach(requests: nat, s: Pool) {
    forall index: nat :: ReportedOnce(requests, s, index)
  }

  predicate ReportedOnce(requests: nat, s: Pool, index: nat) {
    Reported(s.finished, index) == One(index < requests)
  }

  lemma {:induction false} RunStands(concurrency: nat, requests: nat, steps: seq<Step>)
    requires Legal(requests, Start(concurrency, requests), steps)
    ensures var s := After(requests, Start(concurrency, requests), steps); var workers := Workers(concurrency, requests);
      && Inv(requests, s) && |s.workers| == workers
      && Remaining(requests, s) + |steps| == 2 * requests + workers
  {
    var first := Start(concurrency, requests);
    StartKeepsInv(concurrency, requests);
    RunKeepsInv(requests, first, steps);
    RunKeepsWorkers(requests, first, steps);
  }

  lemma {:induction false} JoinedIsDone(requests: nat, s: Pool)
    requires Inv(requests, s) && Joined(s) && (requests == 0 || |s.workers| >= 1)
    ensures Remaining(requests, s) == 0 && s.next == requests + |s.workers|
    ensures OnceEach(requests, s)
  {
    CountsOfGone(s.workers);
    forall index: nat ensures ReportedOnce(requests, s, index) {
      assert ClaimedOnce(requests, s, index);
      GoneHoldNothing(s.workers, index);
    }
  }

  lemma {:induction false} InvForbidsTwice(requests: nat, s: Pool)
    requires Inv(requests, s)
    ensures NeverTwice(s) && s.next <= requests + CountGone(s.workers)
  {
    forall index: nat ensures Holding(s.workers, index) + Reported(s.finished, index) <= 1 {
      assert ClaimedOnce(requests, s, index);
    }
  }

  /** A pool after n steps: no slot is executed twice, n is bounded, and the
      counter stays within one claim per worker past the input; once all workers
      are gone, and there was one or nothing to do, every slot has one result. */
  ghost predicate Stands(concurrency: nat, requests: nat, s: Pool, n: nat) {
    var workers := Workers(concurrency, requests);
    && |s.workers| == workers && NeverTwice(s)
    && n <= 2 * requests + workers && s.next <= requests + workers
    && (Joined(s) && (requests == 0 || concurrency >= 1) ==>
        n == 2 * requests + workers && s.next == requests + workers && OnceEach(requests, s))
  }

  lemma {:induction false} InvStands(concurrency: nat, requests: nat, s: Pool, n: nat)
    requires Inv(requests, s) && |s.workers| == Workers(concurrency, requests)
    requires Remaining(requests, s) + n == 2 * requests + |s.workers|
    ensures Stands(concurrency, requests, s, n)
  {
    CountsOfGone(s.workers);
    InvForbidsTwice(requests, s);
    if Joined(s) && (requests == 0 || concurrency >= 1) { JoinedIsDone(requests, s); }
  }

  /** Every run of the pool, in any interleaving, leaves it standing. */
  lemma {:induction false} EveryRunExecutesEachSlotOnce(concurrency: nat, requests: nat, steps: seq<Step>)
    requires Legal(requests, Start(concurrency, requests), steps)
    ensures Stands(concurrency, requests, After(requests, Start(concurrency, requests), steps), |steps|)
  {
    var s := After(requests, Start(concurrency, requests), steps);
    RunStands(concurrency, requests, steps);
    InvStands(concurrency, requests, s, |steps|);
  }

  lemma {:induction false} RunKeepsWorkers(requests: nat, s: Pool, steps: seq<Step>)
    requires Legal(requests, s, steps)
    ensures |After(requests, s, steps).workers| == |s.workers|
    decreases |steps|
  {
    if steps != [] { RunKeepsWorkers(requests, Take(requests, s, steps[0]), steps[1..]); }
  }

  lemma {:induction false} GoneHoldNothing(workers: seq<Worker>, index: nat)
    requires forall w :: 0 <= w < |workers| ==> workers[w].Gone?
    ensures Holding(workers, index) == 0
  {
    if workers != [] { GoneHoldNothing(workers[1..], index); }
  }

  /** With no worker at all nothing is ever executed: at least one is needed as
      soon as there is input. */
  lemma {:induction false} NoWorkerNoResult(requests: nat, steps: seq<Step>)
    requires Legal(requests, Start(0, requests), steps)
    ensures Joined(After(requests, Start(0, requests), steps))
    ensures OnceEach(requests, After(requests, Start(0, requests), steps)) <==> requests == 0
  {
    var s := After(requests, Start(0, requests), steps);
    RunKeepsWorkers(requests, Start(0, requests), steps);
    StartKeepsInv(0, requests);
    RunKeepsInv(requests, Start(0, requests), steps);
    assert s.finished == [];
    assert ReportedOnce(requests, s, 0) <==> requests == 0;
  }

  // ---------------------------------------------------------- putting in order

  /** The workers' lists one after the other. */
  function Collected(finished: seq<seq<(nat, Outcome)>>): seq<(nat, Outcome)> {
    if finished == [] then [] else finished[0] + Collected(finished[1..])
  }

  lemma {:induction false} ResultsAppend(a: seq<(nat, Outcome)>, b: seq<(nat, Outcome)>, index: nat)
    ensures Results(a + b, index) == Results(a, index) + Results(b, index)
  {
    if b == [] {
      assert a + b == a;
    } else {
      var front := b[..|b| - 1];
      assert (a + b)[..|a + b| - 1] == a + front;
      ResultsAppend(a, front, index);
    }
  }

  lemma {:induction false} CollectedResults(finished: seq<seq<(nat, Outcome)>>, index: nat)
    ensures Results(Collected(finished), index) == Reported(finished, index)
  {
    if finished != [] {
      CollectedResults(finished[1..], index);
      ResultsAppend(finished[0], Collected(finished[1..]), index);
    }
  }

  lemma {:induction false} HasResult(done: seq<(nat, Outcome)>, k: nat)
    requires k < |done|
    ensures Results(done, done[k].0) >= 1
  {
    var front := done[..|done| - 1];
    if k < |front| { HasResult(front, k); }
  }

  lemma {:induction false} UniqueResult(done: seq<(nat, Outcome)>, j: nat, k: nat)
    requires j < k < |done| && done[j].0 == done[k].0
    ensures Results(done, done[j].0) >= 2
  {
    var front := done[..|done| - 1];
    if k < |front| { UniqueResult(front, j, k); } else { HasResult(front, j); }
  }

  /** Puts results back into their slots and hands them out in input order. */
  method OrderedResults(requests: nat, completed: seq<(nat, Outcome)>) returns (ordered: seq<Outcome>)
    requires forall index: nat :: Results(completed, index) == One(index < requests)
    ensures |ordered| == requests
    ensures forall k :: 0 <= k < |completed| ==> completed[k].0 < requests && ordered[completed[k].0] == completed[k].1
  {
    var slots: seq<Option<Outcome>> := seq(requests, i => None);
    for k := 0 to |completed|
      invariant |slots| == requests
      invariant forall j :: 0 <= j < k ==> completed[j].0 < requests && slots[completed[j].0] == Some(completed[j].1)
      invariant forall i :: 0 <= i < requests && slots[i].None? ==> Results(completed[..k], i) == 0
    {
      HasResult(completed, k);
      forall j | 0 <= j < k ensures completed[j].0 != completed[k].0 {
        if completed[j].0 == completed[k].0 { UniqueResult(completed, j, k); }
      }
      assert completed[..k + 1][..k] == completed[..k];
      slots := slots[completed[k].0 := Some(completed[k].1)];
    }
    assert completed[..|completed|] == completed;
    ordered := [];
    for i := 0 to requests
      invariant |ordered| == i && forall j :: 0 <= j < i ==> slots[j] == Some(ordered[j])
    {
      assert slots[i].Some?;
      ordered := ordered + [slots[i].value];
    }
  }

  function Successes(results: seq<Outcome>): nat {
    if results == [] then 0 else Successes(results[..|results| - 1]) + One(results[|results| - 1].success)
  }

  /** Writes every record in order and counts the outcomes. */
  method Summarize(ordered: seq<Outcome>) returns (written: seq<string>, succeeded: nat, failed: nat)
    ensures |written| == |ordered| && forall i :: 0 <= i < |ordered| ==> written[i] == ordered[i].record
    ensures succeeded == Successes(ordered) && succeeded + failed == |ordered|
  {
    written, succeeded, failed := [], 0, 0;
    for i := 0 to |ordered|
      invariant |written| == i && forall j :: 0 <= j < i ==> written[j] == ordered[j].record
      invariant succeeded == Successes(ordered[..i]) && succeeded + failed == i
    {
      assert ordered[..i + 1][..i] == ordered[..i];
      if ordered[i].success { succeeded := succeeded + 1; } else { failed := failed + 1; }
      written := written + [ordered[i].record];
    }
    assert ordered[..|ordered|] == ordered;
  }

  /** The results of any finished run can be put in order: there is one per slot. */
  lemma {:induction false} FinishedRunIsComplete(concurrency: nat, requests: nat, steps: seq<Step>)
    requires Legal(requests, Start(concurrency, requests), steps) && (requests == 0 || concurrency >= 1)
    requires Joined(After(requests, Start(concurrency, requests), steps))
    ensures var completed := Collected(After(requests, Start(concurrency, requests), steps).finished);
      forall index: nat :: Results(completed, index) == One(index < requests)
  {
    EveryRunExecutesEachSlotOnce(concurrency, requests, steps);
    var s := After(requests, Start(concurrency, requests), steps);
    forall index: nat ensures Results(Collected(s.finished), index) == One(index < requests) {
      assert ReportedOnce(requests, s, index);
      CollectedResults(s.finished, index);
    }
  }
}
