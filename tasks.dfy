/** Tasks of a QSpider and the behaviour of their `run` method, seen from the engine. */
module Tasks {

  /** A task built from one source item. The Python object's identity is its position `id`
      in `QSpider.tasks`: a task that fails is re-queued as the same value. */
  datatype Task<S> = Task(id: nat, source: S)

  /** What one call of `Task.run` does: it returns a value or raises an exception. */
  datatype Outcome<R> = Returned(value: R) | Raised

  /** `Task.run` is user code (network requests, parsing): the model takes it as an oracle that
      gives the outcome of the call numbered `call` (counting the worker's `run` calls from 0)
      on task `t`. Any single-worker execution of the real program is described by one oracle. */
  type Oracle<!S, R> = (Task<S>, nat) -> Outcome<R>

  /** Every call numbered `bound` or later returns: failures stop after finitely many calls. */
  ghost predicate SettlesBy<S(!new), R>(oracle: Oracle<S, R>, bound: nat)
  {
    forall t: Task<S>, call: nat :: bound <= call ==> oracle(t, call).Returned?
  }

  /** No call of `run` ever raises. */
  ghost predicate NeverRaises<S(!new), R>(oracle: Oracle<S, R>)
  {
    forall t: Task<S>, call: nat :: oracle(t, call).Returned?
  }

  /** Every call of `run` raises. */
  ghost predicate AlwaysRaises<S(!new), R>(oracle: Oracle<S, R>)
  {
    forall t: Task<S>, call: nat :: oracle(t, call).Raised?
  }

  const Prefix := "Task{source="

  /** `Task.__str__`, given the text `str(task_source)` of the task's source. */
  function Describe(shown: string): (r: string)
    ensures |r| == |shown| + 13
    ensures r[..12] == Prefix && r[12..|r| - 1] == shown && r[|r| - 1] == '}'
  {
    Prefix + shown + "}"
  }

  /** Distinct source texts give distinct descriptions, so the diagnostic line names the task. */
  lemma DescribeInjective(a: string, b: string)
    requires Describe(a) == Describe(b)
    ensures a == b
  {
  }
}
