/**
  The domain records the command line works with: projects, tasks with their
  due dates, the task view it prints (with the project's name resolved) and
  saved filters. Their fields are the ones the conversions from the wire
  records and the renderers' fixtures use.
*/
module Models {
  import opened Wrappers
  import opened Ints

  datatype Project = Project(id: string, name: string, color: string, isShared: bool, isFavorite: bool)

  datatype Due = Due(date: Option<string>, isRecurring: Option<bool>, datetime: Option<string>)

  datatype Task = Task(
    id: string,
    content: string,
    description: Option<string>,
    projectId: Option<string>,
    due: Option<Due>,
    isCompleted: bool,
    createdAt: string,
    order: i32,
    priority: u8,
    labels: seq<string>)

  /** A task as it is printed: the project's name is resolved and only the due date is kept. */
  datatype TaskOutput = TaskOutput(
    id: string,
    content: string,
    description: Option<string>,
    projectId: Option<string>,
    projectName: Option<string>,
    dueDate: Option<string>,
    isCompleted: bool,
    createdAt: string,
    order: i32,
    priority: u8,
    labels: seq<string>)

  datatype Filter = Filter(id: string, name: string, query: string)
}
