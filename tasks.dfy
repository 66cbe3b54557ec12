/** The task queue the page decorator appends to. Only the append it relies
    on is modelled. */
module Tasks {
  import opened Pipelines

  /** An ordered queue of tasks, drained later in first-in first-out order. */
  class TaskQueue {
    var tasks: seq<Task>

    constructor ()
      ensures tasks == []
    {
      tasks := [];
    }

    /** Appends one task; earlier entries stay where they were. */
    method Enqueue(task: Task)
      modifies this
      ensures tasks == old(tasks) + [task]
    {
      tasks := tasks + [task];
    }
  }
}
