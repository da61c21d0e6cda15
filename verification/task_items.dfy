/** What a queue stores (core/queue.go, core/task.go). A task is a closure in the
    source and an opaque number here; so is the random TaskID. */
module TaskItems {
  type Task = nat
  type TaskID = nat

  datatype TaskTraits = TaskTraits(priority: int)

  datatype TaskItem = TaskItem(task: Task, traits: TaskTraits, id: TaskID)

  /** TaskItem{} */
  const ZERO_ITEM := TaskItem(0, TaskTraits(0), 0)

  const DEFAULT_QUEUE_CAP: nat := 16
  const COMPACT_MIN_CAP: nat := 64
  const COMPACT_SHRINK_FACTOR: nat := 4
  const MAX_UINT64 := 0xFFFF_FFFF_FFFF_FFFF

  datatype Option<+T> = None | Some(value: T)
}
