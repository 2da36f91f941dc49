/** The sequential core of qspider/core.py: the task queue, one worker draining it, and the
    spider that builds the tasks, crawls and collects the results. The lock of the task queue
    is a no-op here: one worker runs, and nothing else touches the queues meanwhile. */
module Core {
  import opened Tasks
  import opened WorkerLoop

  datatype Option<T> = None | Some(value: T)

  /** `TaskQueue`: a stdlib FIFO plus a hand-kept size counter `qsize` and the size `totSize`
      it had when construction finished. `unfinished` and `doneCount` record the stdlib
      queue's own task_done bookkeeping: puts minus task_done calls, and task_done calls. */
  class TaskQueue<T> {
    var queue: seq<T>
    var qsize: int
    var totSize: int
    var unfinished: nat
    var doneCount: nat

    /** The hand-kept counter agrees with the queue. */
    ghost predicate Valid()
      reads this
    {
      qsize == |queue|
    }

    /** Adds the tasks one by one, then snapshots the size. */
    constructor (tasks: seq<T> := [])
      ensures Valid()
      ensures queue == tasks && qsize == |tasks| && totSize == |tasks|
      ensures unfinished == |tasks| && doneCount == 0
    {
      queue, qsize, totSize := [], 0, 0;
      unfinished, doneCount := 0, 0;
      new;
      var i := 0;
      while i < |tasks|
        invariant 0 <= i <= |tasks|
        invariant queue == tasks[..i] && qsize == i
        invariant unfinished == i && doneCount == 0
      {
        Add(tasks[i]);
        i := i + 1;
      }
      totSize := qsize;
    }

    /** `add`: appends at the tail and counts one more task. */
    method Add(task: T)
      modifies this
      ensures queue == old(queue) + [task] && qsize == old(qsize) + 1
      ensures unfinished == old(unfinished) + 1
      ensures totSize == old(totSize) && doneCount == old(doneCount)
      ensures old(Valid()) ==> Valid()
    {
      queue := queue + [task];
      unfinished := unfinished + 1;
      qsize := qsize + 1;
    }

    /** `get`: the head and one task fewer, or None at once when the counter says empty. */
    method Get() returns (task: Option<T>)
      requires Valid()
      modifies this
      ensures Valid()
      ensures task.Some? <==> old(queue) != []
      ensures task.Some? ==> task.value == old(queue)[0] && queue == old(queue)[1..]
      ensures task.None? ==> queue == old(queue)
      ensures totSize == old(totSize) && unfinished == old(unfinished) && doneCount == old(doneCount)
    {
      task := None;
      if qsize > 0 {
        task := Some(queue[0]);
        queue := queue[1..];
        qsize := qsize - 1;
      }
    }

    /** `task_done`: the stdlib call, which raises ValueError when no task is unfinished. */
    method TaskDone() returns (raised: bool)
      modifies this
      ensures raised <==> old(unfinished) == 0
      ensures !raised ==> unfinished == old(unfinished) - 1 && doneCount == old(doneCount) + 1
      ensures raised ==> unfinished == old(unfinished) && doneCount == old(doneCount)
      ensures queue == old(queue) && qsize == old(qsize) && totSize == old(totSize)
    {
      raised := unfinished == 0;
      if !raised {
        unfinished := unfinished - 1;
        doneCount := doneCount + 1;
      }
    }
  }

  /** The stdlib `Queue` used as the result queue: unbounded FIFO. */
  class Fifo<R> {
    var items: seq<R>

    constructor ()
      ensures items == []
    {
      items := [];
    }

    method Put(x: R)
      modifies this
      ensures items == old(items) + [x]
    {
      items := items + [x];
    }

    method Empty() returns (empty: bool)
      ensures empty <==> items == []
    {
      empty := |items| == 0;
    }

    /** With one thread, `get` on an empty queue would block forever; callers test `empty` first. */
    method Get() returns (x: R)
      requires items != []
      modifies this
      ensures old(items) == [x] + items
    {
      x := items[0];
      items := items[1..];
    }
  }

  /** `Worker`: the loop one thread runs over the shared task queue. */
  class Worker<S(!new), R> {
    const taskQueue: TaskQueue<Task<S>>
    const resQueue: Fifo?<R>

    constructor (taskQueue: TaskQueue<Task<S>>, resQueue: Fifo?<R> := null)
      ensures this.taskQueue == taskQueue && this.resQueue == resQueue
    {
      this.taskQueue := taskQueue;
      this.resQueue := resQueue;
    }

    /** The body of the `try` in `run`, for a task `t` just taken from the queue: on a return,
        task_done and then the push to the result queue, if there is one; on a raise, and also on
        task_done's ValueError, the `except` branch re-adds `t` at the tail without task_done.
        `p` is the worker's state before the task was taken, `base` what the result queue held
        when the worker started. */
    method Dispatch(t: Task<S>, outcome: Outcome<R>, ghost p: Progress<S, R>, ghost oracle: Oracle<S, R>,
                    ghost base: seq<R>)
      requires p.pending != [] && t == p.pending[0] && outcome == oracle(t, p.calls)
      requires taskQueue.Valid() && taskQueue.queue == p.pending[1..] && taskQueue.unfinished == p.unfinished
      requires resQueue != null ==> resQueue.items == base + p.results
      modifies taskQueue, resQueue
      ensures var q := Step(p, oracle);
        taskQueue.Valid() && taskQueue.queue == q.pending && taskQueue.unfinished == q.unfinished &&
        taskQueue.doneCount - |q.finished| == old(taskQueue.doneCount) - |p.finished| &&
        (resQueue != null ==> resQueue.items == base + q.results)
      ensures taskQueue.totSize == old(taskQueue.totSize)
    {
      match outcome {
        case Returned(res) =>
          var raised := taskQueue.TaskDone();
          if raised {
            taskQueue.Add(t);
          } else if resQueue != null {
            resQueue.Put(res);
          }
        case Raised =>
          taskQueue.Add(t);
      }
    }

    /** `run`: fetch until `get` returns None, dispatching each task. The new state is the one
        `Drain` gives: the queue empty, task_done called once per finished task, and the results
        of the finished tasks appended to the result queue in order. */
    method Run(oracle: Oracle<S, R>, bound: nat)
      requires taskQueue.Valid()
      requires SettlesBy(oracle, bound)
      modifies taskQueue, resQueue
      ensures taskQueue.Valid() && taskQueue.queue == [] && taskQueue.totSize == old(taskQueue.totSize)
      ensures var d := Drain(Start(old(taskQueue.queue), old(taskQueue.unfinished)), oracle, bound);
        taskQueue.unfinished == d.unfinished &&
        taskQueue.doneCount == old(taskQueue.doneCount) + |d.finished| &&
        (resQueue != null ==> resQueue.items == old(resQueue.items) + d.results)
    {
      ghost var p: Progress<S, R> := Start(taskQueue.queue, taskQueue.unfinished);
      ghost var goal := Drain(p, oracle, bound);
      ghost var base := if resQueue != null then resQueue.items else [];
      var calls := 0;
      while true
        invariant taskQueue.Valid() && taskQueue.totSize == old(taskQueue.totSize)
        invariant p.pending == taskQueue.queue && p.unfinished == taskQueue.unfinished && p.calls == calls
        invariant Drain(p, oracle, bound) == goal
        invariant taskQueue.doneCount == old(taskQueue.doneCount) + |p.finished|
        invariant resQueue != null ==> resQueue.items == base + p.results
        decreases Budget(p.calls, bound), |p.pending|, if p.unfinished == 0 then 1 else 0
      {
        var task := taskQueue.Get();
        if task.None? {
          break;
        }
        var t := task.value;
        StepDecreases(p, oracle, bound);
        Dispatch(t, oracle(t, calls), p, oracle, base);
        p := Step(p, oracle);
        calls := calls + 1;
      }
    }
  }

  /** The tasks `[task_cls(item) for item in source]`. */
  function MakeTasks<S>(source: seq<S>): seq<Task<S>>
  {
    seq(|source|, i requires 0 <= i < |source| => Task(i, source[i]))
  }

  /** Python's list indexing: negative indices count from the end; otherwise IndexError (None). */
  function PyIndex(index: int, length: nat): (k: Option<nat>)
    ensures k.Some? <==> -(length as int) <= index < length
    ensures k.Some? ==> k.value < length && (k.value == index || k.value == index + length)
  {
    if 0 <= index < length then Some(index)
    else if -(length as int) <= index < 0 then Some(index + length)
    else None
  }

  /** What `test` gives back: the task's outcome, or the IndexError of the list lookup. */
  datatype TestOutcome<R> = IndexError | Ran(outcome: Outcome<R>)

  /** `QSpider`: one task per source item, their queue, and a result queue when results are wanted. */
  class QSpider<S(!new), R> {
    const source: seq<S>
    const hasResult: bool
    const tasks: seq<Task<S>>
    const taskQueue: TaskQueue<Task<S>>
    const resQueue: Fifo?<R>

    ghost predicate Valid()
      reads this, taskQueue
    {
      taskQueue.Valid() && (hasResult <==> resQueue != null)
    }

    constructor (source: seq<S>, hasResult: bool := false)
      ensures Valid() && this.source == source && this.hasResult == hasResult
      ensures |tasks| == |source| && forall i :: 0 <= i < |source| ==> tasks[i] == Task(i, source[i])
      ensures fresh(taskQueue) && taskQueue.queue == tasks && taskQueue.totSize == |source|
      ensures taskQueue.unfinished == |source| && taskQueue.doneCount == 0
      ensures hasResult ==> fresh(resQueue) && resQueue.items == []
    {
      this.source := source;
      this.hasResult := hasResult;
      tasks := MakeTasks(source);
      taskQueue := new TaskQueue(MakeTasks(source));
      if hasResult {
        resQueue := new Fifo();
      } else {
        resQueue := null;
      }
    }

    /** `crawl` with one worker: drain the task queue, then drain the result queue into a list.
        Before the workers are joined, `crawl` joins the progress timer, which stops only once the
        result queue holds `tot_size` results; so with a result queue, the call returns only when
        the drain leaves exactly that many results queued. Without one, the timer's thread dies on
        its first poll and does not hold `crawl` back. */
    method Crawl(oracle: Oracle<S, R>, bound: nat) returns (results: seq<R>)
      requires Valid()
      requires SettlesBy(oracle, bound)
      requires hasResult ==>
        |resQueue.items| + |Drain(Start(taskQueue.queue, taskQueue.unfinished), oracle, bound).results|
          == taskQueue.totSize
      modifies taskQueue, resQueue
      ensures Valid() && taskQueue.queue == []
      ensures var d := Drain(Start(old(taskQueue.queue), old(taskQueue.unfinished)), oracle, bound);
        taskQueue.totSize == old(taskQueue.totSize) && taskQueue.unfinished == d.unfinished &&
        taskQueue.doneCount == old(taskQueue.doneCount) + |d.finished|
      ensures !hasResult ==> results == []
      ensures hasResult ==>
                resQueue.items == [] && |results| == taskQueue.totSize &&
                results == old(resQueue.items) +
                           Drain(Start(old(taskQueue.queue), old(taskQueue.unfinished)), oracle, bound).results
    {
      var worker := new Worker(taskQueue, resQueue);
      worker.Run(oracle, bound);
      results := [];
      if hasResult {
        ghost var all := resQueue.items;
        ghost var unfinished, doneCount := taskQueue.unfinished, taskQueue.doneCount;
        var empty := resQueue.Empty();
        while !empty
          invariant taskQueue.Valid() && taskQueue.queue == [] && taskQueue.totSize == old(taskQueue.totSize)
          invariant taskQueue.unfinished == unfinished && taskQueue.doneCount == doneCount
          invariant results + resQueue.items == all
          invariant empty <==> resQueue.items == []
          decreases |resQueue.items|
        {
          var res := resQueue.Get();
          results := results + [res];
          empty := resQueue.Empty();
        }
      }
    }

    /** `test(index)`: runs the one task `tasks[index]`, without touching either queue. */
    function Test(oracle: Oracle<S, R>, call: nat, index: int := 0): (r: TestOutcome<R>)
      ensures r.IndexError? <==> !(-|tasks| <= index < |tasks|)
      ensures 0 <= index < |tasks| ==> r == Ran(oracle(tasks[index], call))
      ensures -|tasks| <= index < 0 ==> r == Ran(oracle(tasks[|tasks| + index], call))
    {
      match PyIndex(index, |tasks|)
      case None => IndexError
      case Some(k) => Ran(oracle(tasks[k], call))
    }
  }

  /** The results of `crawl` on a freshly built spider, as a function of its inputs. */
  function CrawlResults<S(!new), R>(source: seq<S>, hasResult: bool, oracle: Oracle<S, R>, bound: nat): seq<R>
    requires SettlesBy(oracle, bound)
  {
    if hasResult then Drain(Start(MakeTasks(source), |source|), oracle, bound).results else []
  }

  /** Whatever the failures, a crawl that ends returns one result per source item when results
      are collected, and none otherwise. */
  lemma CrawlResultsCount<S(!new), R>(source: seq<S>, hasResult: bool, oracle: Oracle<S, R>, bound: nat)
    requires SettlesBy(oracle, bound)
    ensures |CrawlResults(source, hasResult, oracle, bound)| == if hasResult then |source| else 0
  {
    if hasResult {
      var p: Progress<S, R> := Start(MakeTasks(source), |source|);
      DrainConserves(p, oracle, bound);
      var d := Drain(p, oracle, bound);
      assert |d.finished| == |multiset(d.finished)| == |MakeTasks(source)|;
    }
  }

  /** When no task ever raises, the results are the source items' values in source order. */
  lemma CrawlResultsInOrder<S(!new), R>(source: seq<S>, oracle: Oracle<S, R>, bound: nat)
    requires NeverRaises(oracle)
    ensures SettlesBy(oracle, bound)
    ensures CrawlResults(source, true, oracle, bound) ==
            seq(|source|, i requires 0 <= i < |source| => oracle(Task(i, source[i]), i).value)
  {
    var p: Progress<S, R> := Start(MakeTasks(source), |source|);
    DrainNeverRaises(p, oracle, bound);
    ValuesAt(MakeTasks(source), oracle, 0);
  }

  /** `QSpider(source, task_cls, has_result).crawl()` with one worker. */
  method CrawlFresh<S(!new), R>(source: seq<S>, hasResult: bool, oracle: Oracle<S, R>, bound: nat)
    returns (results: seq<R>)
    requires SettlesBy(oracle, bound)
    ensures !hasResult ==> results == []
    ensures hasResult ==> |results| == |source|
    ensures hasResult && NeverRaises(oracle) ==>
      results == seq(|source|, i requires 0 <= i < |source| => oracle(Task(i, source[i]), i).value)
  {
    var spider := new QSpider<S, R>(source, hasResult);
    assert spider.taskQueue.queue == MakeTasks(source);
    CrawlResultsCount(source, hasResult, oracle, bound);
    results := spider.Crawl(oracle, bound);
    assert results == CrawlResults(source, hasResult, oracle, bound);
    CrawlResultsCount(source, hasResult, oracle, bound);
    if NeverRaises(oracle) {
      CrawlResultsInOrder(source, oracle, bound);
    }
  }
}
