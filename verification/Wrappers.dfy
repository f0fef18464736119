/** Small types and functions that several modules share. */
module Wrappers {
  datatype Option<+T> = None | Some(value: T)

  type TaskId = nat

  function Min(a: nat, b: nat): nat { if a < b then a else b }
  function Max(a: nat, b: nat): nat { if a > b then a else b }

  /** The part of the task table that is reached through `with_task`: what `X` says of each task. */
  class Tasks<X> {
    var tasks: map<TaskId, X>
    constructor () ensures tasks == map[] { tasks := map[]; }
  }
}
