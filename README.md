# qspider: the sequential core of the task engine, in Dafny

qspider runs one `Task` per item of a source on a pool of threads. The pool shares one `TaskQueue`: a
FIFO with a hand-kept size counter `qsize` and a snapshot `tot_size`. Each `Worker` loop takes a task,
runs it, calls `task_done` and pushes the value into the result queue when the task returns. When the
task raises, the loop puts the same task back at the tail. `QSpider` builds the tasks and the queues.
`crawl` waits for the workers and drains the result queue into a list. `test` runs one task directly.
`format_class_name` builds the class name that the scaffolding generator writes into a new spider file.

This model covers the sequential core: one worker and no other thread. The lock then does nothing.

- `tasks.dfy` (module `Tasks`): a task is its position in `QSpider.tasks` plus its source item.
  `Task.run` is user code, so it is an oracle. The oracle gives the outcome of the worker's n-th
  `run` call on a task: `Returned(value)` or `Raised`. `SettlesBy(oracle, bound)` says every call
  numbered `bound` or later returns. This is the hypothesis under which the worker loop ends.
- `worker_loop.dfy` (module `WorkerLoop`): the worker's loop as a function on its state. `Step` is one
  iteration and `Drain` is the loop run until the queue is empty. The lemmas about `Drain` cover three
  cases: every task finishes once whatever the failures; the queue is drained in FIFO order when
  nothing raises; the queue is never drained when everything raises.
- `core.dfy` (module `Core`): `TaskQueue`, the result queue (`Fifo`), `Worker` and `QSpider` as
  classes whose methods update their fields. `Worker.Run` is a `while` loop proved against `Drain`.
  `QSpider.Crawl` drains the result queue with a `while` loop.
- `utils.dfy` (module `Utils`): `format_class_name` over an ASCII model of `str.capitalize`.

The stdlib `Queue.task_done` raises `ValueError` when it is called with no unmatched put left (the
queue's unfinished count is 0). `TaskQueue.TaskDone` models this with that count. In `Worker.run`, that
`ValueError` would land in the same `except` branch as a raising task, so the model re-adds the task
there too. For a freshly built spider the count never runs short (`DrainNeverRaises` assumes
exactly that).

`qspider/core.py` has no shared counter, no completed count, no separate failed-task queue or retry
rounds, and no process-backed workers: a failing task always goes back into the same queue
(qspider/core.py:82-83).

The source's default arguments are kept: `TaskQueue(tasks=[])`, `Worker(task_queue, res_queue=None)`,
`QSpider(source, task_cls, has_result=False)` and `test(index=0)`.

## Model

| member | source | states |
|---|---|---|
| `Tasks.Describe` | qspider/core.py:59-60 | `str(task)` is `Task{source=` + the source's text + `}`: its length, prefix, middle and closing brace |
| `Tasks.DescribeInjective` | qspider/core.py:59-60 | two tasks with different source texts get different descriptions |
| `Core.TaskQueue.constructor` | qspider/core.py:13-19 | after adding the tasks one by one, the queue holds exactly the given list in order, `qsize == tot_size == len(tasks)`, and the stdlib queue counts every task unfinished |
| `Core.TaskQueue.Add` | qspider/core.py:21-30 | the task goes to the tail, `qsize` and the unfinished count rise by one, earlier entries and `tot_size` are unchanged, and `qsize == len(queue)` is kept |
| `Core.TaskQueue.Get` | qspider/core.py:32-44 | on a non-empty queue it returns the head and removes only that; on an empty one it returns None and changes nothing; `qsize == len(queue)` and `tot_size` are kept |
| `Core.TaskQueue.TaskDone` | qspider/core.py:46-48 | `task_done` raises exactly when no task is unfinished; otherwise it lowers the unfinished count and counts one call; the queue is untouched |
| `Core.Fifo.constructor` | qspider/core.py:116 | the result queue starts empty |
| `Core.Fifo.Put` | qspider/core.py:80-81 | a pushed result goes to the tail |
| `Core.Fifo.Empty` | qspider/core.py:138 | `empty()` holds exactly when no result is queued |
| `Core.Fifo.Get` | qspider/core.py:139 | `get()` on a non-empty result queue returns the head and removes only it |
| `Core.Worker.constructor` | qspider/core.py:65-68 | the worker shares the given task queue and result queue (which may be None) |
| `Core.Worker.Dispatch` | qspider/core.py:76-84 | one pass through the try/except leaves the queues in the state `Step` gives: on a return, `task_done` and then a push if a result queue exists; on a raise, the same task at the tail with no `task_done`, so `qsize` is unchanged |
| `Core.Worker.Run` | qspider/core.py:70-84 | the loop stops only when `get` returns None, so the task queue ends empty; `tot_size` is unchanged; `task_done` was called once per finished task; the result queue gained the results of `Drain`, in order |
| `WorkerLoop.Step` | qspider/core.py:72-84 | one iteration makes one `run` call; a raise moves the head to the tail and finishes nothing and pushes nothing; a return whose `task_done` goes through finishes the head, records its value and shortens the queue by one |
| `WorkerLoop.StepConserves` | qspider/core.py:72-84 | an iteration loses and duplicates no task (pending plus finished is the same multiset); it pairs each finished task with one result, only extends results and finished tasks, and never lets the unfinished count fall behind the queue |
| `WorkerLoop.Drain` | qspider/core.py:70-84 | once failures stop, the loop ends, and it ends only with an empty queue |
| `WorkerLoop.DrainConserves` | qspider/core.py:70-84 | at the end of the loop the finished tasks are a permutation of the tasks that were pending, with one result per finished task, after what was already finished or pushed |
| `WorkerLoop.ValuesAt` | qspider/core.py:76-81 | with a never-raising `run`, the i-th value is that of the i-th task, run as the i-th call |
| `WorkerLoop.DrainNeverRaises` | qspider/core.py:70-84 | when no run raises, the queue drains in FIFO order: one run per task, results in queue order, and the finished tasks are the queue itself |
| `WorkerLoop.FailingTaskStaysPending` | qspider/core.py:76-84 | a task whose every run raises is still pending and not finished after any number of iterations, whatever the other tasks do |
| `WorkerLoop.AlwaysRaisingNeverDrains` | qspider/core.py:76-84 | when every run raises, no number of iterations finishes a task or pushes a result, and the queue keeps the same tasks, so a non-empty queue never drains |
| `Core.PyIndex` | qspider/core.py:143 | Python list indexing: an index is valid exactly when `-len <= index < len`, and a negative one counts from the end |
| `Core.QSpider.constructor` | qspider/core.py:104-116 | one task per source item, at the item's position; the task queue holds them in source order with `tot_size == len(source)`; a fresh empty result queue exists exactly when `has_result` is set |
| `Core.QSpider.Crawl` | qspider/core.py:96-140 | with `has_result`, the call returns only when the timer's gate opens, i.e. the drain leaves exactly `tot_size` results queued; after one worker has drained the task queue, `tot_size` is unchanged, the unfinished count is the one `Drain` leaves and `task_done` was called once per finished task; the returned list is empty without `has_result`; with it, the list has `tot_size` entries, the queued results followed by those of `Drain`, and the result queue is left empty |
| `Core.QSpider.Test` | qspider/core.py:142-143 | `test(index)` runs only `tasks[index]` (negative indices from the end), raises IndexError outside the list, and, being a function, touches neither queue |
| `Core.CrawlResultsCount` | qspider/core.py:114-140 | whatever the failures, a crawl that ends returns one result per source item with `has_result`, and none without |
| `Core.CrawlResultsInOrder` | qspider/core.py:114-140 | when no task ever raises, the crawl's results are the source items' values in source order |
| `Core.CrawlFresh` | qspider/core.py:104-140 | `QSpider(source, task_cls, has_result).crawl()` with one worker returns `[]` without `has_result`, otherwise one result per source item, and the items' values in source order when nothing raises |
| `Utils.Upper` | qspider/utils.py:25 | the upper-case form is never a lower-case letter and changes only lower-case letters |
| `Utils.Lower` | qspider/utils.py:25 | the lower-case form is never an upper-case letter and changes only upper-case letters |
| `Utils.UpperLowerAgree` | qspider/utils.py:25 | two characters have the same upper-case form exactly when they have the same lower-case form |
| `Utils.LowerAll` | qspider/utils.py:25 | `str.lower` keeps the length and lower-cases each character |
| `Utils.Capitalize` | qspider/utils.py:25 | `str.capitalize` keeps the length, upper-cases the first character and lower-cases the rest |
| `Utils.CapitalizeIdempotent` | qspider/utils.py:25 | capitalizing twice is capitalizing once |
| `Utils.FormatClassName` | qspider/utils.py:24-25 | the class name has length `len(name) + 6`, ends with `Spider`, is exactly `Spider` for an empty name, and starts with the name's first character upper-cased followed by the rest of the name lower-cased |
| `Utils.ClassNameIgnoresCase` | qspider/utils.py:24-25 | two names give the same class name exactly when they differ at most in ASCII letter case |

## Left out

- Threads, the `Lock`, `start`/`join` and interleavings of several workers (qspider/core.py:27-43, 63-66, 121-134): the model runs one worker with no other thread, so the lock does nothing.
- Core.QSpider.Crawl: runs one worker, not `num_threads` of them. With several threads the order of the results depends on scheduling, so the exact result list is stated only for one worker.
- `num_threads` and `_get_num_threads` (qspider/core.py:112, 121, 145-147): the count reads interactive input and only matters for the thread pool.
- `Timer` and `display_progress` (qspider/core.py:86-101, qspider/utils.py:6-22): wall-clock time, float rates and terminal output. With `has_result` false, `Timer` calls `qsize()` on None and its thread dies; this crash is not modelled.
- Core.QSpider.Crawl: the timer's stop condition `res_queue.qsize() == tot_size` (qspider/core.py:96-100), which `crawl` waits for, is modelled as a precondition on the count of results the drain leaves queued. A run in which the count only passes through `tot_size` between two polls, and a `crawl` that blocks forever because the count never reaches it (a second crawl of the same spider, say), are not modelled.
- The diagnostic and info prints (qspider/core.py:84, 117, 120): output only.
- `genqspider` and `get_resource_path` (qspider/core.py:153-169, qspider/utils.py:27-30): argument parsing, file checks, reads and writes. Only `format_class_name`, which `genqspider` uses, is modelled.
- qspider/decorators.py, qspider/__init__.py, qspider/examples.py, the templates and setup.py are not part of this model. They are wrappers, re-exports, network examples, text templates and packaging.
- `Raised` stands for an `Exception` subclass raised by `run`, the only kind the `except Exception` of qspider/core.py:82 catches. A `BaseException` that is not an `Exception` (`SystemExit`, `KeyboardInterrupt`) ends the worker thread and drops the task it held; this is not modelled.
- `Task.run` is an oracle of the task and the worker's call count. The worker loop is proved to end when every call from some number on returns (`SettlesBy`). The endless retry of a task that always raises is stated by `WorkerLoop.AlwaysRaisingNeverDrains`, not by a method that runs forever.
- `task_cls` is taken to build a task that keeps its source item. An exception raised while the tasks are built is not modelled.
- Core.TaskQueue.Get: requires `qsize == len(queue)`, the class invariant that every method keeps. With the counter out of step, the stdlib `get` would block, and that is not modelled.
- Core.Fifo.Get: requires a non-empty queue. With one thread, the stdlib `get` on an empty queue blocks forever, and `crawl` tests `empty()` before every `get`.
- `if not task` (qspider/core.py:73): every task is taken to be truthy. A task class whose `__bool__` or `__len__` makes it false would stop the worker early; this is not modelled.
- `Task.__str__` receives `str(task_source)` already rendered: `str` of an arbitrary Python object is not modelled.
- `str.capitalize` and `str.lower` are modelled on ASCII letters only. Unicode title case and multi-character case mappings are not modelled.
- Core.QSpider.Test: takes the call number for the oracle as a parameter, since `test` runs outside any worker.
