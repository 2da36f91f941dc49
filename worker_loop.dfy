/** The loop of `Worker.run`, run by one worker with no other thread touching its queues,
    as a function on the worker's state. The imperative `Core.Worker.Run` is proved against it. */
module WorkerLoop {
  import opened Tasks

  /** The state seen by one worker between two iterations of its loop. */
  datatype Progress<S, R> = Progress(
    pending: seq<Task<S>>,  // the task queue, head first
    unfinished: nat,        // the stdlib queue's count of unfinished tasks: puts minus task_done calls
    calls: nat,             // calls of Task.run made so far
    results: seq<R>,        // values pushed to the result queue (when there is one), in push order
    finished: seq<Task<S>>) // tasks whose task_done call went through, in that order

  /** A worker about to start on a queue holding `pending`. */
  function Start<S, R>(pending: seq<Task<S>>, unfinished: nat): Progress<S, R>
  {
    Progress(pending, unfinished, 0, [], [])
  }

  /** One iteration of the loop: take the head, run it, and on a return call task_done and push
      the value; a raise, and also the ValueError task_done raises when the unfinished count is
      already 0, lands in the except branch, which re-adds the task at the tail. */
  function Step<S(!new), R>(p: Progress<S, R>, oracle: Oracle<S, R>): (q: Progress<S, R>)
    requires p.pending != []
    ensures q.calls == p.calls + 1
    ensures oracle(p.pending[0], p.calls).Raised? ==>
              q.finished == p.finished && q.results == p.results &&
              q.pending == p.pending[1..] + [p.pending[0]]
    ensures oracle(p.pending[0], p.calls).Returned? && 0 < p.unfinished ==>
              q.finished == p.finished + [p.pending[0]] &&
              q.results == p.results + [oracle(p.pending[0], p.calls).value] &&
              q.pending == p.pending[1..]
  {
    var t, rest := p.pending[0], p.pending[1..];
    assert p.pending == [t] + rest;
    match oracle(t, p.calls)
    case Returned(v) =>
      if 0 < p.unfinished then
        Progress(rest, p.unfinished - 1, p.calls + 1, p.results + [v], p.finished + [t])
      else
        Progress(rest + [t], 1, p.calls + 1, p.results, p.finished)
    case Raised =>
      Progress(rest + [t], p.unfinished + 1, p.calls + 1, p.results, p.finished)
  }

  /** An iteration loses no task and duplicates none: each is pending or finished. It pairs each
      finished task with one result, only ever extends the results and the finished tasks, and
      never lets the unfinished count fall behind the queue's length. */
  lemma StepConserves<S(!new), R>(p: Progress<S, R>, oracle: Oracle<S, R>)
    requires p.pending != []
    ensures var q := Step(p, oracle);
      multiset(q.pending) + multiset(q.finished) == multiset(p.pending) + multiset(p.finished) &&
      |q.results| - |q.finished| == |p.results| - |p.finished| &&
      p.results <= q.results && p.finished <= q.finished &&
      p.unfinished - |p.pending| <= q.unfinished - |q.pending|
  {
    assert p.pending == [p.pending[0]] + p.pending[1..];
  }

  /** How many more calls may still raise. */
  function Budget(calls: nat, bound: nat): nat
  {
    if calls < bound then bound - calls else 0
  }

  /** Each iteration lowers the measure of `Drain`: the calls that may still raise, then the
      queue's length, then whether task_done is about to raise. */
  lemma StepDecreases<S(!new), R>(p: Progress<S, R>, oracle: Oracle<S, R>, bound: nat)
    requires SettlesBy(oracle, bound) && p.pending != []
    ensures var q := Step(p, oracle);
      Budget(q.calls, bound) < Budget(p.calls, bound) ||
      (Budget(q.calls, bound) == Budget(p.calls, bound) && |q.pending| < |p.pending|) ||
      (Budget(q.calls, bound) == Budget(p.calls, bound) && |q.pending| == |p.pending| &&
       p.unfinished == 0 && q.unfinished != 0)
  {
  }

  /** The whole loop: iterate until `get` finds the queue empty. */
  function Drain<S(!new), R>(p: Progress<S, R>, oracle: Oracle<S, R>, bound: nat): (q: Progress<S, R>)
    requires SettlesBy(oracle, bound)
    ensures q.pending == []
    ensures p.calls <= q.calls
    decreases Budget(p.calls, bound), |p.pending|, if p.unfinished == 0 then 1 else 0
  {
    if p.pending == [] then p
    else
      assert oracle(p.pending[0], p.calls).Raised? ==> p.calls < bound;
      Drain(Step(p, oracle), oracle, bound)
  }

  /** Every task that was pending ends up finished exactly once, each finished task pushed
      exactly one result, and what was already finished or pushed stays in front. */
  lemma {:induction false} DrainConserves<S(!new), R>(p: Progress<S, R>, oracle: Oracle<S, R>, bound: nat)
    requires SettlesBy(oracle, bound)
    ensures var q := Drain(p, oracle, bound);
      multiset(q.finished) == multiset(p.pending) + multiset(p.finished) &&
      |q.results| - |q.finished| == |p.results| - |p.finished| &&
      p.results <= q.results && p.finished <= q.finished
    decreases Budget(p.calls, bound), |p.pending|, if p.unfinished == 0 then 1 else 0
  {
    if p.pending != [] {
      StepDecreases(p, oracle, bound);
      StepConserves(p, oracle);
      DrainConserves(Step(p, oracle), oracle, bound);
    }
  }

  /** The values a never-raising `run` gives for `tasks`, run in order from call number `from`. */
  function Values<S(!new), R>(tasks: seq<Task<S>>, oracle: Oracle<S, R>, from: nat): seq<R>
    requires NeverRaises(oracle)
    decreases |tasks|
  {
    if tasks == [] then [] else [oracle(tasks[0], from).value] + Values(tasks[1..], oracle, from + 1)
  }

  /** The i-th value is that of the i-th task, run as call number `from + i`. */
  lemma {:induction false} ValuesAt<S(!new), R>(tasks: seq<Task<S>>, oracle: Oracle<S, R>, from: nat)
    requires NeverRaises(oracle)
    ensures |Values(tasks, oracle, from)| == |tasks|
    ensures forall i :: 0 <= i < |tasks| ==> Values(tasks, oracle, from)[i] == oracle(tasks[i], from + i).value
    decreases |tasks|
  {
    if tasks != [] {
      ValuesAt(tasks[1..], oracle, from + 1);
    }
  }

  /** Moving the head of `todo` to the end of `done` keeps `done + todo`. */
  lemma ShiftHead<T>(done: seq<T>, todo: seq<T>)
    requires todo != []
    ensures (done + [todo[0]]) + todo[1..] == done + todo
  {
    assert todo == [todo[0]] + todo[1..];
  }

  /** A `run` that never raises settles from the first call on. */
  lemma NeverRaisesSettles<S(!new), R>(oracle: Oracle<S, R>, bound: nat)
    requires NeverRaises(oracle)
    ensures SettlesBy(oracle, bound)
  {
  }

  /** The state after the head task returned and task_done went through. */
  function Finish<S, R>(p: Progress<S, R>, v: R): Progress<S, R>
    requires p.pending != [] && 0 < p.unfinished
  {
    Progress(p.pending[1..], p.unfinished - 1, p.calls + 1, p.results + [v], p.finished + [p.pending[0]])
  }

  /** Under a never-raising `run`, with task_done not running short, an iteration finishes the head. */
  lemma StepNeverRaises<S(!new), R>(p: Progress<S, R>, oracle: Oracle<S, R>, bound: nat)
    requires NeverRaises(oracle) && p.pending != [] && |p.pending| <= p.unfinished
    ensures SettlesBy(oracle, bound)
    ensures Drain(p, oracle, bound) == Drain(Finish(p, oracle(p.pending[0], p.calls).value), oracle, bound)
  {
  }

  /** Finishing the head moves it, and its value, to the end of what is already done. */
  lemma FinishAppends<S(!new), R>(p: Progress<S, R>, oracle: Oracle<S, R>)
    requires NeverRaises(oracle) && p.pending != [] && 0 < p.unfinished
    ensures var q := Finish(p, oracle(p.pending[0], p.calls).value);
      q.results + Values(q.pending, oracle, q.calls) == p.results + Values(p.pending, oracle, p.calls) &&
      q.finished + q.pending == p.finished + p.pending
  {
    var v := oracle(p.pending[0], p.calls).value;
    var later := Values(p.pending[1..], oracle, p.calls + 1);
    assert Values(p.pending, oracle, p.calls) == [v] + later;
    assert (p.results + [v]) + later == p.results + ([v] + later);
    ShiftHead(p.finished, p.pending);
  }

  /** When `run` never raises and task_done cannot run short, the queue is drained in FIFO
      order: one run per task, and results in queue order. */
  lemma {:induction false} DrainNeverRaises<S(!new), R>(p: Progress<S, R>, oracle: Oracle<S, R>, bound: nat)
    requires NeverRaises(oracle)
    requires |p.pending| <= p.unfinished
    ensures SettlesBy(oracle, bound)
    ensures Drain(p, oracle, bound) ==
              Progress([], p.unfinished - |p.pending|, p.calls + |p.pending|,
                       p.results + Values(p.pending, oracle, p.calls), p.finished + p.pending)
    decreases |p.pending|
  {
    NeverRaisesSettles(oracle, bound);
    if p.pending != [] {
      var q := Finish(p, oracle(p.pending[0], p.calls).value);
      StepNeverRaises(p, oracle, bound);
      DrainNeverRaises(q, oracle, bound);
      FinishAppends(p, oracle);
    }
  }

  /** At most `n` iterations of the loop; fewer when the queue runs empty first. */
  function Iterate<S(!new), R>(p: Progress<S, R>, oracle: Oracle<S, R>, n: nat): Progress<S, R>
    decreases n
  {
    if n == 0 || p.pending == [] then p else Iterate(Step(p, oracle), oracle, n - 1)
  }

  /** When every run raises, no iteration finishes a task or pushes a result, and the queue keeps
      the same tasks: a non-empty queue is never drained and the loop runs forever. */
  lemma {:induction false} AlwaysRaisingNeverDrains<S(!new), R>(p: Progress<S, R>, oracle: Oracle<S, R>, n: nat)
    requires AlwaysRaises(oracle)
    ensures var q := Iterate(p, oracle, n);
      multiset(q.pending) == multiset(p.pending) && q.finished == p.finished &&
      q.results == p.results && q.calls == p.calls + (if p.pending == [] then 0 else n)
    decreases n
  {
    if n != 0 && p.pending != [] {
      assert oracle(p.pending[0], p.calls).Raised?;
      var q := Step(p, oracle);
      assert p.pending == [p.pending[0]] + p.pending[1..];
      AlwaysRaisingNeverDrains(q, oracle, n - 1);
    }
  }

  /** A task whose every run raises is re-added on each attempt: however many iterations pass,
      it is still pending and never finished, while other tasks may finish around it. */
  lemma {:induction false} FailingTaskStaysPending<S(!new), R>(p: Progress<S, R>, oracle: Oracle<S, R>,
                                                               t: Task<S>, n: nat)
    requires forall call: nat :: oracle(t, call).Raised?
    requires t in multiset(p.pending) && t !in p.finished
    ensures var q := Iterate(p, oracle, n);
      t in multiset(q.pending) && t !in q.finished
    decreases n
  {
    if n != 0 {
      var head, rest := p.pending[0], p.pending[1..];
      assert p.pending == [head] + rest;
      var q := Step(p, oracle);
      if head == t {
        assert oracle(t, p.calls).Raised?;
        assert q.pending == rest + [t];
      } else {
        assert t in rest;
        assert q.pending[..|rest|] == rest;
        assert t in q.pending;
      }
      FailingTaskStaysPending(q, oracle, t, n - 1);
    }
  }
}
