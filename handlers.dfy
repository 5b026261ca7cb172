/**
  The decisions the command-line handlers make before and between their
  calls to the Sync client: checking the priority, choosing the task's text,
  splitting label and section lists, resolving project names, filtering
  tasks and sections, refusing edits that change nothing, and moving a task
  before updating it. Printing is left to the caller.
*/
module Handlers {
  import opened Wrappers
  import opened Ints
  import opened Text
  import opened Json
  import opened Errors
  import opened Models
  import opened SyncModels
  import opened Commands
  import opened SyncClient

  // ---------------------------------------------------------------- arguments

  /** `validate_priority`: Todoist priorities run from 1 (normal) to 4 (urgent). */
  function ValidatePriority(priority: u8): (ok: bool)
    ensures ok <==> 1 <= priority <= 4
  {
    1 <= priority <= 4
  }

  function PriorityError(priority: u8): TodoError
  {
    InvalidInput("Invalid priority " + Decimal(priority) + ". Priority must be between 1 and 4.")
  }

  /** A given priority must be valid; no priority is fine. */
  function CheckPriority(priority: Option<u8>): (r: Result<Option<u8>>)
    ensures r.Ok? <==> priority.None? || ValidatePriority(priority.value)
    ensures r.Ok? ==> r.value == priority
    ensures r.Err? ==> r.error == PriorityError(priority.value)
  {
    if priority.Some? && !ValidatePriority(priority.value) then Err(PriorityError(priority.value)) else Ok(priority)
  }

  /** The invalid priorities are told apart by their messages. */
  lemma PriorityErrorInjective(a: u8, b: u8)
    requires PriorityError(a) == PriorityError(b)
    ensures a == b
  {
    var p := "Invalid priority ";
    var q := ". Priority must be between 1 and 4.";
    var ma, mb := PriorityError(a).msg, PriorityError(b).msg;
    assert ma == p + Decimal(a) + q && mb == p + Decimal(b) + q;
    assert ma[|p|..|ma| - |q|] == Decimal(a);
    assert mb[|p|..|mb| - |q|] == Decimal(b);
    DecimalInjective(a, b);
  }

  /** The task text: the title if there is one, else the content. */
  function TaskText(title: Option<string>, content: Option<string>): (r: Option<string>)
    ensures r.Some? <==> title.Some? || content.Some?
    ensures title.Some? ==> r == title
    ensures title.None? ==> r == content
  {
    if title.Some? then title else content
  }

  /** A comma-separated list as the handlers read it: every piece, trimmed, in order. */
  function Pieces(s: string): (r: seq<string>)
    ensures |r| == |Split(s, ',')|
    ensures forall i :: 0 <= i < |r| ==> r[i] == Trim(Split(s, ',')[i])
  {
    SplitTrim(s, ',')
  }

  function Labels(labels: Option<string>): (r: Option<seq<string>>)
    ensures r.Some? <==> labels.Some?
    ensures labels.Some? ==> r.value == Pieces(labels.value)
  {
    if labels.Some? then Some(Pieces(labels.value)) else None
  }

  /** A list of ids that are already trimmed and hold no comma reads back as those ids. */
  lemma PiecesOfJoin(ids: seq<string>)
    requires |ids| > 0
    requires forall i :: 0 <= i < |ids| ==> ',' !in ids[i] && Trim(ids[i]) == ids[i]
    ensures Pieces(Join(ids, ",")) == ids
  {
    SplitJoin(ids, ',');
  }

  /** No piece starts or ends with whitespace. */
  lemma PiecesTrimmed(s: string)
    ensures forall i :: 0 <= i < |Pieces(s)| ==> (Pieces(s)[i] == [] || (!IsWhitespace(Pieces(s)[i][0])
      && !IsWhitespace(Pieces(s)[i][|Pieces(s)[i]| - 1])))
  {
    forall i | 0 <= i < |Pieces(s)|
      ensures Pieces(s)[i] == [] || (!IsWhitespace(Pieces(s)[i][0]) && !IsWhitespace(Pieces(s)[i][|Pieces(s)[i]| - 1]))
    {
      assert Pieces(s)[i] == Trim(Split(s, ',')[i]);
    }
  }

  // ---------------------------------------------------------------- add_task and edit_task

  /** What `add_task` passes on to the client. */
  datatype TaskRequest = TaskRequest(
    content: string,
    description: Option<string>,
    projectId: Option<string>,
    sectionId: Option<string>,
    dueString: Option<string>,
    priority: Option<u8>,
    labels: Option<seq<string>>)

  /**
    `add_task`'s checks: a task needs a title or content, and a given priority
    must be valid; the title wins over the content. No section is ever passed.
  */
  function AddTaskRequest(title: Option<string>, content: Option<string>, description: Option<string>,
    projectId: Option<string>, dueDate: Option<string>, priority: Option<u8>, labels: Option<string>): (r: Result<TaskRequest>)
    ensures title.None? && content.None? ==> r == Err(InvalidInput("Task title or content required"))
    ensures TaskText(title, content).Some? ==> (r.Ok? <==> CheckPriority(priority).Ok?)
    ensures TaskText(title, content).Some? && CheckPriority(priority).Err? ==> r == Err(CheckPriority(priority).error)
    ensures r.Ok? ==> r.value == TaskRequest(TaskText(title, content).value, description, projectId, None, dueDate,
      priority, Labels(labels))
  {
    var text := TaskText(title, content);
    if text.None? then Err(InvalidInput("Task title or content required"))
    else
      var p :- CheckPriority(priority);
      Ok(TaskRequest(text.value, description, projectId, None, dueDate, p, Labels(labels)))
  }

  /** `add_task`: checks its arguments, then submits one `item_add`; nothing is sent when a check fails. */
  method AddTask(client: TodoistSyncClient, ids: IdSupply, title: Option<string>, content: Option<string>,
    description: Option<string>, projectId: Option<string>, dueDate: Option<string>, priority: Option<u8>,
    labels: Option<string>, reply: Reply) returns (batches: seq<seq<Command>>, r: Result<string>)
    modifies ids
    ensures var q := AddTaskRequest(title, content, description, projectId, dueDate, priority, labels);
      q.Err? ==> batches == [] && r == Err(q.error)
    ensures var q := AddTaskRequest(title, content, description, projectId, dueDate, priority, labels);
      q.Ok? ==> (&& batches == [[Command("item_add", IdOf(old(ids.next)), Some(IdOf(old(ids.next) + 1)),
          ItemAddOf(q.value.content, q.value.description, q.value.projectId, q.value.sectionId, q.value.dueString,
            q.value.priority, q.value.labels).ToJson())]]
        && IdReturned(reply, "task", r))
  {
    var q := AddTaskRequest(title, content, description, projectId, dueDate, priority, labels);
    if q.Err? {
      return [], Err(q.error);
    }
    var t := q.value;
    var batch;
    batch, r := client.AddTask(ids, t.content, t.description, t.projectId, t.sectionId, t.dueString, t.priority, t.labels, reply);
    batches := [batch];
  }

  /** The batch was accepted and every command in it succeeded. */
  ghost predicate Accepted(reply: Reply)
  {
    WriteReply(reply).Ok? && AllOk(WriteReply(reply).value.syncStatus)
  }

  /** The move that `edit_task` sends first: one `item_move` into the project's top level. */
  method MoveTask(client: TodoistSyncClient, ids: IdSupply, taskId: string, projectId: string, reply: Reply)
    returns (batch: seq<Command>, r: Result<()>)
    modifies ids
    ensures ids.next == old(ids.next) + 1
    ensures batch == [Command("item_move", IdOf(old(ids.next)), None, JObject(Members(MoveFields(taskId, projectId, None))))]
    ensures Done(reply, r) && (r.Ok? <==> Accepted(reply))
  {
    var builder := new CommandBuilder(ids);
    builder.ItemMove(taskId, projectId, None);
    var response;
    batch, response := client.Execute(builder, reply);
    r := if response.Err? then Err(response.error) else Ok(());
  }

  /**
    `edit_task`: checks the priority, moves the task first when a project is
    given, and only then updates its fields. A failed move stops the edit; the
    update never carries a description.
  */
  method EditTask(client: TodoistSyncClient, ids: IdSupply, taskId: string, title: Option<string>, content: Option<string>,
    projectId: Option<string>, dueDate: Option<string>, priority: Option<u8>, labels: Option<string>,
    moveReply: Reply, updateReply: Reply) returns (batches: seq<seq<Command>>, r: Result<()>)
    modifies ids
    ensures CheckPriority(priority).Err? ==> batches == [] && r == Err(CheckPriority(priority).error)
    ensures CheckPriority(priority).Ok? && projectId.Some? ==> (|batches| >= 1
      && batches[0] == [Command("item_move", IdOf(old(ids.next)), None, JObject(Members(MoveFields(taskId, projectId.value, None))))])
    ensures CheckPriority(priority).Ok? && projectId.Some? && !Accepted(moveReply) ==> (|batches| == 1 && r.Err? && Done(moveReply, r))
    ensures CheckPriority(priority).Ok? && (projectId.None? || Accepted(moveReply)) ==> (
      && |batches| == (if projectId.Some? then 2 else 1)
      && batches[|batches| - 1] == [Command("item_update", IdOf(old(ids.next) + |batches| - 1), None,
          ItemUpdateOf(taskId, TaskText(title, content), None, priority, dueDate, Labels(labels)).ToJson())]
      && Done(updateReply, r))
  {
    var checked := CheckPriority(priority);
    if checked.Err? {
      return [], Err(checked.error);
    }
    var update;
    if projectId.Some? {
      var batch, moved := MoveTask(client, ids, taskId, projectId.value, moveReply);
      if moved.Err? {
        return [batch], moved;
      }
      update, r := client.UpdateTask(ids, taskId, TaskText(title, content), None, priority, dueDate, Labels(labels), updateReply);
      batches := [batch, update];
    } else {
      update, r := client.UpdateTask(ids, taskId, TaskText(title, content), None, priority, dueDate, Labels(labels), updateReply);
      batches := [update];
    }
  }

  // ---------------------------------------------------------------- edit_project, edit_section, edit_label, edit_filter

  const NO_NAME: string := "No fields to update. Provide at least --name."
  const NO_LABEL_FIELDS: string := "No fields to update. Provide at least --name or --color."
  const NO_FILTER_FIELDS: string := "Error: No fields to update. Provide at least --name, --query, or --color."

  /** `edit_project`: a name is required; only the name is sent. */
  method EditProject(client: TodoistSyncClient, ids: IdSupply, projectId: string, name: Option<string>, reply: Reply)
    returns (batches: seq<seq<Command>>, r: Result<()>)
    modifies ids
    ensures name.None? ==> batches == [] && r == Err(InvalidInput(NO_NAME))
    ensures name.Some? ==> (&& batches == [[Command("project_update", IdOf(old(ids.next)), None,
        JObject(Members(ProjectUpdateFields(projectId, name, None, None))))]]
      && Done(reply, r))
  {
    if name.None? {
      return [], Err(InvalidInput(NO_NAME));
    }
    var builder := new CommandBuilder(ids);
    builder.ProjectUpdate(projectId, name, None, None);
    var batch, response := client.Execute(builder, reply);
    batches := [batch];
    assert batch == [Command("project_update", IdOf(old(ids.next)), None,
        JObject(Members(ProjectUpdateFields(projectId, name, None, None))))];
    r := if response.Err? then Err(response.error) else Ok(());
    assert Done(reply, r);
  }

  /** `edit_section`: a name is required. */
  method EditSection(client: TodoistSyncClient, ids: IdSupply, sectionId: string, name: Option<string>, reply: Reply)
    returns (batches: seq<seq<Command>>, r: Result<()>)
    modifies ids
    ensures name.None? ==> batches == [] && r == Err(InvalidInput(NO_NAME))
    ensures name.Some? ==> (&& batches == [[Command("section_update", IdOf(old(ids.next)), None,
        JObject(map["id" := JString(sectionId), "name" := JString(name.value)]))]]
      && Done(reply, r))
  {
    if name.None? {
      return [], Err(InvalidInput(NO_NAME));
    }
    var batch;
    batch, r := client.UpdateSection(ids, sectionId, name.value, reply);
    batches := [batch];
  }

  /** `edit_label`: a name or a colour is required. */
  method EditLabel(client: TodoistSyncClient, ids: IdSupply, labelId: string, name: Option<string>, color: Option<string>,
    reply: Reply) returns (batches: seq<seq<Command>>, r: Result<()>)
    modifies ids
    ensures name.None? && color.None? ==> batches == [] && r == Err(InvalidInput(NO_LABEL_FIELDS))
    ensures name.Some? || color.Some? ==> (&& batches == [[Command("label_update", IdOf(old(ids.next)), None,
        JObject(Members(LabelUpdateFields(labelId, name, color))))]]
      && Done(reply, r))
  {
    if name.None? && color.None? {
      return [], Err(InvalidInput(NO_LABEL_FIELDS));
    }
    var batch;
    batch, r := client.UpdateLabel(ids, labelId, name, color, reply);
    batches := [batch];
  }

  /** `edit_filter`: a name, a query or a colour is required. */
  method EditFilter(client: TodoistSyncClient, ids: IdSupply, filterId: string, name: Option<string>,
    query: Option<string>, color: Option<string>, reply: Reply) returns (batches: seq<seq<Command>>, r: Result<()>)
    modifies ids
    ensures name.None? && query.None? && color.None? ==> batches == [] && r == Err(InvalidInput(NO_FILTER_FIELDS))
    ensures name.Some? || query.Some? || color.Some? ==> (&& batches == [[Command("filter_update", IdOf(old(ids.next)),
        None, JObject(Members(FilterUpdateFields(filterId, name, query, color))))]]
      && Done(reply, r))
  {
    if name.None? && query.None? && color.None? {
      return [], Err(InvalidInput(NO_FILTER_FIELDS));
    }
    var batch;
    batch, r := client.UpdateFilter(ids, filterId, name, query, color, reply);
    batches := [batch];
  }

  // ---------------------------------------------------------------- get_tasks and get_task

  /**
    The `project_map` lookup table: project id to name. Collecting the pairs in
    order, a later project with the same id replaces an earlier one.
  */
  function ProjectNames(projects: seq<Project>): (names: map<string, string>)
    ensures forall i :: 0 <= i < |projects| ==> projects[i].id in names
    ensures |names| <= |projects|
    decreases |projects|
  {
    if projects == [] then map[]
    else
      var last := projects[|projects| - 1];
      ProjectNames(projects[..|projects| - 1])[last.id := last.name]
  }

  /** An id is in the table exactly when some project has it, and maps to the name of the last such project. */
  lemma {:induction false} ProjectNamesSpec(projects: seq<Project>, id: string)
    ensures id in ProjectNames(projects) <==> exists i :: 0 <= i < |projects| && projects[i].id == id
    ensures id in ProjectNames(projects) ==> exists i :: (0 <= i < |projects| && projects[i].id == id
      && ProjectNames(projects)[id] == projects[i].name
      && forall k :: i < k < |projects| ==> projects[k].id != id)
    decreases |projects|
  {
    if projects != [] {
      var n := |projects| - 1;
      var init := projects[..n];
      ProjectNamesSpec(init, id);
      assert ProjectNames(projects) == ProjectNames(init)[projects[n].id := projects[n].name];
      if projects[n].id != id {
        if id in ProjectNames(init) {
          var i :| 0 <= i < n && init[i].id == id && ProjectNames(init)[id] == init[i].name
            && forall k :: i < k < n ==> init[k].id != id;
          assert projects[i] == init[i];
          forall k | i < k < |projects|
            ensures projects[k].id != id
          {
            if k < n {
              assert projects[k] == init[k];
            }
          }
        } else {
          forall i | 0 <= i < |projects|
            ensures projects[i].id != id
          {
            if i < n {
              assert projects[i] == init[i];
            }
          }
        }
      }
    }
  }

  /** The name of the task's project, when it has one that is known. */
  function ProjectNameOf(projectId: Option<string>, names: map<string, string>): (r: Option<string>)
    ensures r.Some? <==> projectId.Some? && projectId.value in names
    ensures r.Some? ==> r.value == names[projectId.value]
  {
    if projectId.Some? && projectId.value in names then Some(names[projectId.value]) else None
  }

  /** A task as it is printed: its project's name resolved and only the due date kept. */
  function ToOutput(t: Task, names: map<string, string>): (o: TaskOutput)
    ensures o.id == t.id && o.content == t.content && o.description == t.description && o.projectId == t.projectId
    ensures o.isCompleted == t.isCompleted && o.createdAt == t.createdAt && o.order == t.order
    ensures o.priority == t.priority && o.labels == t.labels
    ensures o.projectName == ProjectNameOf(t.projectId, names)
    ensures o.dueDate == (if t.due.Some? then t.due.value.date else None)
  {
    TaskOutput(t.id, t.content, t.description, t.projectId, ProjectNameOf(t.projectId, names),
      if t.due.Some? then t.due.value.date else None,
      t.isCompleted, t.createdAt, t.order, t.priority, t.labels)
  }

  /** The `get_tasks` filter: the content or the project name contains the filter text, ignoring case. */
  predicate Matches(t: TaskOutput, filter: string)
    ensures filter == "" ==> Matches(t, filter)
  {
    assert filter == "" ==> OccursAt(ToLower(t.content), ToLower(filter), 0);
    || Contains(ToLower(t.content), ToLower(filter))
    || (t.projectName.Some? && Contains(ToLower(t.projectName.value), ToLower(filter)))
  }

  /** The tasks that `Matches` keeps, in their order. */
  function Keep(ts: seq<TaskOutput>, filter: string): (r: seq<TaskOutput>)
    ensures |r| <= |ts|
    ensures forall i :: 0 <= i < |r| ==> Matches(r[i], filter) && r[i] in ts
    decreases |ts|
  {
    if ts == [] then []
    else (if Matches(ts[0], filter) then [ts[0]] else []) + Keep(ts[1..], filter)
  }

  /** Every task the filter matches is kept. */
  lemma {:induction false} KeepComplete(ts: seq<TaskOutput>, filter: string, t: TaskOutput)
    requires t in ts && Matches(t, filter)
    ensures t in Keep(ts, filter)
    decreases |ts|
  {
    if ts[0] != t {
      KeepComplete(ts[1..], filter, t);
    }
  }

  /** Keeping all tasks of a list that all match changes nothing. */
  lemma {:induction false} KeepAll(ts: seq<TaskOutput>, filter: string)
    requires forall i :: 0 <= i < |ts| ==> Matches(ts[i], filter)
    ensures Keep(ts, filter) == ts
    decreases |ts|
  {
    if ts != [] {
      KeepAll(ts[1..], filter);
    }
  }

  /** Filtering distributes over concatenation, so the kept tasks stay in order. */
  lemma {:induction false} KeepAppend(a: seq<TaskOutput>, b: seq<TaskOutput>, filter: string)
    ensures Keep(a + b, filter) == Keep(a, filter) + Keep(b, filter)
    decreases |a|
  {
    if a != [] {
      assert (a + b)[0] == a[0] && (a + b)[1..] == a[1..] + b;
      KeepAppend(a[1..], b, filter);
      var head := if Matches(a[0], filter) then [a[0]] else [];
      assert Keep(a + b, filter) == head + (Keep(a[1..], filter) + Keep(b, filter));
      assert Keep(a, filter) == head + Keep(a[1..], filter);
    } else {
      assert a + b == b;
    }
  }

  /** `get_tasks`: every task with its project's name, then the filter if one is given. */
  function GetTasks(tasks: seq<Task>, projects: seq<Project>, filter: Option<string>): (r: seq<TaskOutput>)
    ensures filter.None? ==> (|r| == |tasks|
      && forall i :: 0 <= i < |tasks| ==> r[i] == ToOutput(tasks[i], ProjectNames(projects)))
    ensures filter.Some? ==> forall i :: 0 <= i < |r| ==> Matches(r[i], filter.value)
    ensures filter.Some? ==> r == Keep(seq(|tasks|, i requires 0 <= i < |tasks| => ToOutput(tasks[i], ProjectNames(projects))), filter.value)
  {
    var names := ProjectNames(projects);
    var outputs := seq(|tasks|, i requires 0 <= i < |tasks| => ToOutput(tasks[i], names));
    if filter.Some? then Keep(outputs, filter.value) else outputs
  }

  /** The filter is ASCII-case-insensitive on both sides. */
  lemma MatchesIgnoresCase(t: TaskOutput, filter: string)
    ensures Matches(t, filter) <==> Matches(t, ToLower(filter))
  {
    LowerIdempotent(filter);
  }

  lemma LowerIdempotent(s: string)
    ensures ToLower(ToLower(s)) == ToLower(s)
  {
  }

  /** An empty filter keeps every task. */
  lemma EmptyFilterKeepsAll(ts: seq<TaskOutput>)
    ensures Keep(ts, "") == ts
  {
    forall i | 0 <= i < |ts|
      ensures Matches(ts[i], "")
    {
      assert OccursAt(ToLower(ts[i].content), ToLower(""), 0);
    }
    KeepAll(ts, "");
  }

  /** The index of the first task with the given id, if any. */
  function FindTask(tasks: seq<Task>, id: string): (r: Option<nat>)
    ensures r.Some? ==> (r.value < |tasks| && tasks[r.value].id == id
      && forall k :: 0 <= k < r.value ==> tasks[k].id != id)
    ensures r.None? ==> forall k :: 0 <= k < |tasks| ==> tasks[k].id != id
    decreases |tasks|
  {
    if tasks == [] then None
    else if tasks[0].id == id then Some(0)
    else
      var rest := FindTask(tasks[1..], id);
      if rest.Some? then Some(rest.value + 1) else None
  }

  /** `get_task`: the first task with the id, printed with its project's name; an unknown id is invalid input. */
  function GetTask(tasks: seq<Task>, projects: seq<Project>, id: string): (r: Result<TaskOutput>)
    ensures r.Err? <==> forall k :: 0 <= k < |tasks| ==> tasks[k].id != id
    ensures r.Err? ==> r.error == InvalidInput("Task " + id + " not found")
    ensures r.Ok? ==> exists k :: (0 <= k < |tasks| && tasks[k].id == id
      && (forall j :: 0 <= j < k ==> tasks[j].id != id) && r.value == ToOutput(tasks[k], ProjectNames(projects)))
  {
    var found := FindTask(tasks, id);
    if found.None? then Err(InvalidInput("Task " + id + " not found"))
    else Ok(ToOutput(tasks[found.value], ProjectNames(projects)))
  }

  // ---------------------------------------------------------------- get_sections

  /** The sections of one project, in their order. */
  function InProject(sections: seq<SyncSection>, projectId: string): (r: seq<SyncSection>)
    ensures |r| <= |sections|
    decreases |sections|
  {
    if sections == [] then []
    else
      var n := |sections| - 1;
      InProject(sections[..n], projectId) + (if sections[n].projectId == projectId then [sections[n]] else [])
  }

  /** A section is kept exactly when it belongs to the project. */
  lemma {:induction false} InProjectSpec(sections: seq<SyncSection>, projectId: string, s: SyncSection)
    ensures s in InProject(sections, projectId) <==> s in sections && s.projectId == projectId
    decreases |sections|
  {
    if sections != [] {
      var n := |sections| - 1;
      InProjectSpec(sections[..n], projectId, s);
      assert sections == sections[..n] + [sections[n]];
    }
  }

  /**
    `get_sections`' `retain`: keeps, in place and in order, the sections of the
    project at the front of `a`, and returns how many there are.
  */
  method Retain(a: array<SyncSection>, projectId: string) returns (n: nat)
    modifies a
    ensures n <= a.Length && a[..n] == InProject(old(a[..]), projectId)
  {
    ghost var s := a[..];
    n := 0;
    var i := 0;
    while i < a.Length
      invariant n <= i <= a.Length
      invariant a[..n] == InProject(s[..i], projectId)
      invariant forall k :: i <= k < a.Length ==> a[k] == s[k]
    {
      var x := a[i];
      assert s[..i + 1] == s[..i] + [x];
      if x.projectId == projectId {
        ghost var kept := a[..n];
        a[n] := x;
        assert a[..n + 1] == kept + [x];
        n := n + 1;
      }
      i := i + 1;
    }
    assert s[..a.Length] == s;
  }

  /** `get_sections`: all sections, or those of the given project. */
  method GetSections(a: array<SyncSection>, projectId: Option<string>) returns (n: nat)
    modifies a
    ensures projectId.None? ==> n == a.Length && a[..] == old(a[..])
    ensures projectId.Some? ==> n <= a.Length && a[..n] == InProject(old(a[..]), projectId.value)
  {
    if projectId.Some? {
      n := Retain(a, projectId.value);
    } else {
      n := a.Length;
    }
  }

  // ---------------------------------------------------------------- reorder_sections

  /** `reorder_sections`' pairs: the i-th trimmed id gets order i. */
  function SectionOrders(sectionIds: string): (r: seq<(string, i64)>)
    ensures |r| == |Pieces(sectionIds)|
    ensures forall i :: 0 <= i < |r| ==> r[i].0 == Pieces(sectionIds)[i] && (InI64(i) ==> r[i].1 == i)
  {
    var ids := Pieces(sectionIds);
    seq(|ids|, i requires 0 <= i < |ids| => (ids[i], WrapI64(i)))
  }
}
