/** The records of the to-do list demo. */
module TaskTypes {

  datatype Priority = Low | Medium | High

  /** A to-do item; `createdAt` is its creation time in milliseconds. */
  datatype Task = Task(
    id: string,
    title: string,
    description: string,
    completed: bool,
    createdAt: int,
    priority: Priority)

  datatype SortOption = ByPriority | ByDate | ByTitle

  datatype FilterOption = All | Completed | Active
}
