/** Vocabulary shared by the models of the controllers. */
module Kube {

  datatype Option<+T> = None | Some(value: T)

  /** How a pass ends. `RequeueAfter` is a result that only sets the delay: callers that test the
      `Requeue` flag read it like `Done`. */
  datatype Outcome = Done | RequeueAfter | Requeue | Failed

  datatype StrategyType = Backplane | Hypershift | Grc

  /** The key of a namespaced object. */
  datatype Key = Key(namespace: string, name: string)
}
