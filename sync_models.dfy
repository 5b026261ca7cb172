/**
  The records of the Todoist Sync API as the client reads and writes them,
  the derived JSON decoders and encoders serde generates for them (field
  aliases, `#[serde(default)]`, `Option` fields), and the conversions from the
  wire project and task to the domain records.
*/
module SyncModels {
  import opened Wrappers
  import opened Ints
  import opened Json
  import opened Models

  datatype SyncDue = SyncDue(date: Option<string>, isRecurring: bool, datetime: Option<string>, timezone: Option<string>)

  datatype SyncProject = SyncProject(
    id: string,
    name: string,
    color: string,
    shared: bool,
    favorite: bool,
    sortOrder: i64,
    isArchived: bool,
    isDeleted: bool,
    createdAt: string,
    updatedAt: string)

  datatype SyncTask = SyncTask(
    id: string,
    projectId: Option<string>,
    sectionId: Option<string>,
    content: string,
    description: Option<string>,
    priority: u8,
    due: Option<SyncDue>,
    labels: seq<string>,
    order: i64,
    indentation: i64,
    isCompleted: bool,
    isArchived: bool,
    isDeleted: bool,
    createdAt: string,
    updatedAt: string)

  datatype SyncSection = SyncSection(
    id: string,
    projectId: string,
    name: string,
    order: i64,
    isArchived: bool,
    isDeleted: bool,
    createdAt: string,
    archivedAt: Option<string>,
    isCollapsed: Option<bool>)

  datatype SyncLabel = SyncLabel(id: string, name: string, color: string, isFavorite: bool)

  datatype SyncFilter = SyncFilter(id: string, name: string, query: string)

  /** The answer to a read request: a new sync token and the resources asked for. */
  datatype SyncReadResponse = SyncReadResponse(
    syncToken: string,
    fullSync: bool,
    projects: seq<SyncProject>,
    items: seq<SyncTask>,
    sections: seq<SyncSection>,
    labels: seq<SyncLabel>,
    filters: seq<SyncFilter>)

  /** The answer to a batch of commands: a status per command uuid and the ids given to temporary ids. */
  datatype SyncWriteResponse = SyncWriteResponse(
    syncToken: string,
    syncStatus: map<string, Json>,
    tempIdMapping: map<string, string>)

  // ---------------------------------------------------------------- decoders

  function DecodeDue(j: Json): (r: Decoded<SyncDue>)
    ensures r.Decoded? ==> j.JObject?
  {
    if !j.JObject? then Malformed(InvalidType(j, "struct SyncDue"))
    else
      var m := j.fields;
      var date :- Optional(m, "date", AsString);
      var isRecurring :- Defaulted(m, "is_recurring", None, false, AsBool);
      var datetime :- Optional(m, "datetime", AsString);
      var timezone :- Optional(m, "timezone", AsString);
      Decoded(SyncDue(date, isRecurring, datetime, timezone))
  }

  function DecodeProject(j: Json): (r: Decoded<SyncProject>)
    ensures r.Decoded? ==> j.JObject? && "id" in j.fields && j.fields["id"] == JString(r.value.id)
    ensures r.Decoded? ==> "name" in j.fields && j.fields["name"] == JString(r.value.name)
    ensures r.Decoded? ==> (Absent(j.fields, "color", None) ==> r.value.color == "")
    ensures r.Decoded? ==> (Absent(j.fields, "shared", Some("is_shared")) ==> !r.value.shared)
    ensures r.Decoded? ==> (Absent(j.fields, "favorite", Some("is_favorite")) ==> !r.value.favorite)
    ensures r.Decoded? ==> (Absent(j.fields, "sort_order", Some("child_order")) ==> r.value.sortOrder == 0)
    ensures r.Decoded? ==> (Absent(j.fields, "is_archived", None) ==> !r.value.isArchived)
    ensures r.Decoded? ==> (Absent(j.fields, "is_deleted", None) ==> !r.value.isDeleted)
    ensures r.Decoded? ==> (Absent(j.fields, "created_at", Some("added_at")) ==> r.value.createdAt == "")
    ensures r.Decoded? ==> (Absent(j.fields, "updated_at", None) ==> r.value.updatedAt == "")
  {
    if !j.JObject? then Malformed(InvalidType(j, "struct SyncProject"))
    else
      var m := j.fields;
      var id :- Required(m, "id", AsString);
      var name :- Required(m, "name", AsString);
      var color :- Defaulted(m, "color", None, "", AsString);
      var shared :- Defaulted(m, "shared", Some("is_shared"), false, AsBool);
      var favorite :- Defaulted(m, "favorite", Some("is_favorite"), false, AsBool);
      var sortOrder :- Defaulted(m, "sort_order", Some("child_order"), 0, AsI64);
      var isArchived :- Defaulted(m, "is_archived", None, false, AsBool);
      var isDeleted :- Defaulted(m, "is_deleted", None, false, AsBool);
      var createdAt :- Defaulted(m, "created_at", Some("added_at"), "", AsString);
      var updatedAt :- Defaulted(m, "updated_at", None, "", AsString);
      Decoded(SyncProject(id, name, color, shared, favorite, sortOrder, isArchived, isDeleted, createdAt, updatedAt))
  }

  function DecodeTask(j: Json): (r: Decoded<SyncTask>)
    ensures r.Decoded? ==> j.JObject? && "id" in j.fields && j.fields["id"] == JString(r.value.id)
    ensures r.Decoded? ==> "content" in j.fields && j.fields["content"] == JString(r.value.content)
    ensures r.Decoded? ==> (Absent(j.fields, "project_id", None) ==> r.value.projectId.None?)
    ensures r.Decoded? ==> (Absent(j.fields, "section_id", None) ==> r.value.sectionId.None?)
    ensures r.Decoded? ==> (Absent(j.fields, "description", None) ==> r.value.description.None?)
    ensures r.Decoded? ==> (Absent(j.fields, "priority", None) ==> r.value.priority == 0)
    ensures r.Decoded? ==> (Absent(j.fields, "due", None) ==> r.value.due.None?)
    ensures r.Decoded? ==> (Absent(j.fields, "labels", None) ==> r.value.labels == [])
    ensures r.Decoded? ==> (Absent(j.fields, "order", Some("child_order")) ==> r.value.order == 0)
    ensures r.Decoded? ==> (Absent(j.fields, "indentation", None) ==> r.value.indentation == 0)
    ensures r.Decoded? ==> (Absent(j.fields, "is_completed", Some("checked")) ==> !r.value.isCompleted)
    ensures r.Decoded? ==> (Absent(j.fields, "is_archived", None) ==> !r.value.isArchived)
    ensures r.Decoded? ==> (Absent(j.fields, "is_deleted", None) ==> !r.value.isDeleted)
    ensures r.Decoded? ==> (Absent(j.fields, "created_at", Some("added_at")) ==> r.value.createdAt == "")
    ensures r.Decoded? ==> (Absent(j.fields, "updated_at", None) ==> r.value.updatedAt == "")
  {
    if !j.JObject? then Malformed(InvalidType(j, "struct SyncTask"))
    else
      var head :- DecodeTaskHead(j.fields);
      var tail :- DecodeTaskTail(j.fields);
      Decoded(SyncTask(head.0, head.1, head.2, head.3, head.4, head.5, head.6,
        tail.0, tail.1, tail.2, tail.3, tail.4, tail.5, tail.6, tail.7))
  }

  /** The task's fields from `id` to `due`, decoded in declaration order. */
  function DecodeTaskHead(m: map<string, Json>):
    (r: Decoded<(string, Option<string>, Option<string>, string, Option<string>, u8, Option<SyncDue>)>)
    ensures r.Decoded? ==> "id" in m && m["id"] == JString(r.value.0) && "content" in m && m["content"] == JString(r.value.3)
    ensures r.Decoded? ==> (Absent(m, "project_id", None) ==> r.value.1.None?)
    ensures r.Decoded? ==> (Absent(m, "section_id", None) ==> r.value.2.None?)
    ensures r.Decoded? ==> (Absent(m, "description", None) ==> r.value.4.None?)
    ensures r.Decoded? ==> (Absent(m, "priority", None) ==> r.value.5 == 0)
    ensures r.Decoded? ==> (Absent(m, "due", None) ==> r.value.6.None?)
  {
    var id :- Required(m, "id", AsString);
    var projectId :- Optional(m, "project_id", AsString);
    var sectionId :- Optional(m, "section_id", AsString);
    var content :- Required(m, "content", AsString);
    var description :- Optional(m, "description", AsString);
    var priority :- Defaulted(m, "priority", None, 0, AsU8);
    var due :- Optional(m, "due", DecodeDue);
    Decoded((id, projectId, sectionId, content, description, priority, due))
  }

  /** The task's fields from `labels` to `updated_at`, decoded in declaration order. */
  function DecodeTaskTail(m: map<string, Json>): (r: Decoded<(seq<string>, i64, i64, bool, bool, bool, string, string)>)
    ensures r.Decoded? ==> (Absent(m, "labels", None) ==> r.value.0 == [])
    ensures r.Decoded? ==> (Absent(m, "order", Some("child_order")) ==> r.value.1 == 0)
    ensures r.Decoded? ==> (Absent(m, "indentation", None) ==> r.value.2 == 0)
    ensures r.Decoded? ==> (Absent(m, "is_completed", Some("checked")) ==> !r.value.3)
    ensures r.Decoded? ==> (Absent(m, "is_archived", None) ==> !r.value.4)
    ensures r.Decoded? ==> (Absent(m, "is_deleted", None) ==> !r.value.5)
    ensures r.Decoded? ==> (Absent(m, "created_at", Some("added_at")) ==> r.value.6 == "")
    ensures r.Decoded? ==> (Absent(m, "updated_at", None) ==> r.value.7 == "")
  {
    var labels :- Defaulted(m, "labels", None, [], AsStrings);
    var order :- Defaulted(m, "order", Some("child_order"), 0, AsI64);
    var indentation :- Defaulted(m, "indentation", None, 0, AsI64);
    var isCompleted :- Defaulted(m, "is_completed", Some("checked"), false, AsBool);
    var isArchived :- Defaulted(m, "is_archived", None, false, AsBool);
    var isDeleted :- Defaulted(m, "is_deleted", None, false, AsBool);
    var createdAt :- Defaulted(m, "created_at", Some("added_at"), "", AsString);
    var updatedAt :- Defaulted(m, "updated_at", None, "", AsString);
    Decoded((labels, order, indentation, isCompleted, isArchived, isDeleted, createdAt, updatedAt))
  }

  function DecodeSection(j: Json): (r: Decoded<SyncSection>)
    ensures r.Decoded? ==> j.JObject? && "project_id" in j.fields && j.fields["project_id"] == JString(r.value.projectId)
    ensures r.Decoded? ==> (Absent(j.fields, "is_archived", None) ==> !r.value.isArchived)
    ensures r.Decoded? ==> (Absent(j.fields, "is_deleted", None) ==> !r.value.isDeleted)
    ensures r.Decoded? ==> (Absent(j.fields, "archived_at", None) ==> r.value.archivedAt.None?)
    ensures r.Decoded? ==> (Absent(j.fields, "is_collapsed", None) ==> r.value.isCollapsed.None?)
  {
    if !j.JObject? then Malformed(InvalidType(j, "struct SyncSection"))
    else
      var m := j.fields;
      var id :- Required(m, "id", AsString);
      var projectId :- Required(m, "project_id", AsString);
      var name :- Required(m, "name", AsString);
      var order :- Required(m, "order", AsI64);
      var isArchived :- Defaulted(m, "is_archived", None, false, AsBool);
      var isDeleted :- Defaulted(m, "is_deleted", None, false, AsBool);
      var createdAt :- Required(m, "created_at", AsString);
      var archivedAt :- Optional(m, "archived_at", AsString);
      var isCollapsed :- Optional(m, "is_collapsed", AsBool);
      Decoded(SyncSection(id, projectId, name, order, isArchived, isDeleted, createdAt, archivedAt, isCollapsed))
  }

  function DecodeLabel(j: Json): (r: Decoded<SyncLabel>)
    ensures r.Decoded? ==> j.JObject? && "color" in j.fields && j.fields["color"] == JString(r.value.color)
    ensures r.Decoded? ==> (Absent(j.fields, "is_favorite", None) ==> !r.value.isFavorite)
  {
    if !j.JObject? then Malformed(InvalidType(j, "struct SyncLabel"))
    else
      var m := j.fields;
      var id :- Required(m, "id", AsString);
      var name :- Required(m, "name", AsString);
      var color :- Required(m, "color", AsString);
      var isFavorite :- Defaulted(m, "is_favorite", None, false, AsBool);
      Decoded(SyncLabel(id, name, color, isFavorite))
  }

  function DecodeFilter(j: Json): (r: Decoded<SyncFilter>)
    ensures r.Decoded? <==> (j.JObject? && "id" in j.fields && j.fields["id"].JString?
      && "name" in j.fields && j.fields["name"].JString? && "query" in j.fields && j.fields["query"].JString?)
  {
    if !j.JObject? then Malformed(InvalidType(j, "struct SyncFilter"))
    else
      var m := j.fields;
      var id :- Required(m, "id", AsString);
      var name :- Required(m, "name", AsString);
      var query :- Required(m, "query", AsString);
      Decoded(SyncFilter(id, name, query))
  }

  function DecodeReadResponse(j: Json): (r: Decoded<SyncReadResponse>)
    ensures r.Decoded? ==> j.JObject? && "sync_token" in j.fields && j.fields["sync_token"] == JString(r.value.syncToken)
  {
    if !j.JObject? then Malformed(InvalidType(j, "struct SyncReadResponse"))
    else
      var m := j.fields;
      var syncToken :- Required(m, "sync_token", AsString);
      var fullSync :- Defaulted(m, "full_sync", None, false, AsBool);
      var projects :- Defaulted(m, "projects", None, [], (v: Json) => AsSeq(v, DecodeProject));
      var items :- Defaulted(m, "items", None, [], (v: Json) => AsSeq(v, DecodeTask));
      var sections :- Defaulted(m, "sections", None, [], (v: Json) => AsSeq(v, DecodeSection));
      var labels :- Defaulted(m, "labels", None, [], (v: Json) => AsSeq(v, DecodeLabel));
      var filters :- Defaulted(m, "filters", None, [], (v: Json) => AsSeq(v, DecodeFilter));
      Decoded(SyncReadResponse(syncToken, fullSync, projects, items, sections, labels, filters))
  }

  function DecodeWriteResponse(j: Json): (r: Decoded<SyncWriteResponse>)
    ensures r.Decoded? ==> j.JObject? && "sync_token" in j.fields && j.fields["sync_token"] == JString(r.value.syncToken)
  {
    if !j.JObject? then Malformed(InvalidType(j, "struct SyncWriteResponse"))
    else
      var m := j.fields;
      var syncToken :- Required(m, "sync_token", AsString);
      var syncStatus :- Defaulted(m, "sync_status", None, map[], AsValueMap);
      var tempIdMapping :- Defaulted(m, "temp_id_mapping", None, map[], AsStringMap);
      Decoded(SyncWriteResponse(syncToken, syncStatus, tempIdMapping))
  }

  // ---------------------------------------------------------------- encoders

  /** The derived `Serialize`: every field under its primary name, `None` as `null`. */
  function EncodeDue(d: SyncDue): (r: Json)
    ensures r.JObject? && r.fields.Keys == {"date", "is_recurring", "datetime", "timezone"}
  {
    JObject(map[
      "date" := OptString(d.date),
      "is_recurring" := JBool(d.isRecurring),
      "datetime" := OptString(d.datetime),
      "timezone" := OptString(d.timezone)])
  }

  function EncodeProject(p: SyncProject): (r: Json)
    ensures r.JObject? && r.fields.Keys == {"id", "name", "color", "shared", "favorite", "sort_order", "is_archived",
      "is_deleted", "created_at", "updated_at"}
  {
    JObject(map[
      "id" := JString(p.id),
      "name" := JString(p.name),
      "color" := JString(p.color),
      "shared" := JBool(p.shared),
      "favorite" := JBool(p.favorite),
      "sort_order" := JNumber(p.sortOrder),
      "is_archived" := JBool(p.isArchived),
      "is_deleted" := JBool(p.isDeleted),
      "created_at" := JString(p.createdAt),
      "updated_at" := JString(p.updatedAt)])
  }

  function EncodeTask(t: SyncTask): (r: Json)
    ensures r.JObject?
  {
    JObject(map[
      "id" := JString(t.id),
      "project_id" := OptString(t.projectId),
      "section_id" := OptString(t.sectionId),
      "content" := JString(t.content),
      "description" := OptString(t.description),
      "priority" := JNumber(t.priority),
      "due" := (if t.due.Some? then EncodeDue(t.due.value) else JNull),
      "labels" := Strings(t.labels),
      "order" := JNumber(t.order),
      "indentation" := JNumber(t.indentation),
      "is_completed" := JBool(t.isCompleted),
      "is_archived" := JBool(t.isArchived),
      "is_deleted" := JBool(t.isDeleted),
      "created_at" := JString(t.createdAt),
      "updated_at" := JString(t.updatedAt)])
  }

  function EncodeSection(c: SyncSection): (r: Json)
    ensures r.JObject? && r.fields.Keys == {"id", "project_id", "name", "order", "is_archived", "is_deleted", "created_at",
      "archived_at", "is_collapsed"}
  {
    JObject(map[
      "id" := JString(c.id),
      "project_id" := JString(c.projectId),
      "name" := JString(c.name),
      "order" := JNumber(c.order),
      "is_archived" := JBool(c.isArchived),
      "is_deleted" := JBool(c.isDeleted),
      "created_at" := JString(c.createdAt),
      "archived_at" := OptString(c.archivedAt),
      "is_collapsed" := (if c.isCollapsed.Some? then JBool(c.isCollapsed.value) else JNull)])
  }

  function EncodeLabel(l: SyncLabel): (r: Json)
    ensures r.JObject? && r.fields.Keys == {"id", "name", "color", "is_favorite"}
  {
    JObject(map[
      "id" := JString(l.id),
      "name" := JString(l.name),
      "color" := JString(l.color),
      "is_favorite" := JBool(l.isFavorite)])
  }

  function EncodeFilter(f: SyncFilter): (r: Json)
    ensures r.JObject? && r.fields.Keys == {"id", "name", "query"}
  {
    JObject(map["id" := JString(f.id), "name" := JString(f.name), "query" := JString(f.query)])
  }

  // ---------------------------------------------------------------- conversions

  /** `From<SyncProject> for Project`. */
  function ToProject(p: SyncProject): (r: Project)
    ensures r.id == p.id && r.name == p.name && r.color == p.color
    ensures r.isShared == p.shared && r.isFavorite == p.favorite
  {
    Project(p.id, p.name, p.color, p.shared, p.favorite)
  }

  /** The due date as the domain task carries it: the recurrence flag becomes optional, the time zone is dropped. */
  function ToDue(d: SyncDue): (r: Due)
    ensures r.date == d.date && r.datetime == d.datetime && r.isRecurring == Some(d.isRecurring)
  {
    Due(d.date, Some(d.isRecurring), d.datetime)
  }

  /** `From<SyncTask> for Task`; `order as i32` keeps the low 32 bits of the order. */
  function ToTask(t: SyncTask): (r: Task)
    ensures r.id == t.id && r.content == t.content && r.description == t.description
    ensures r.projectId == t.projectId && r.isCompleted == t.isCompleted && r.createdAt == t.createdAt
    ensures r.priority == t.priority && r.labels == t.labels
    ensures r.due.Some? <==> t.due.Some?
    ensures t.due.Some? ==> r.due.value == ToDue(t.due.value)
    ensures (r.order - t.order) % TWO_32 == 0
    ensures InI32(t.order) ==> r.order == t.order
  {
    Task(t.id, t.content, t.description, t.projectId,
      if t.due.Some? then Some(ToDue(t.due.value)) else None,
      t.isCompleted, t.createdAt, WrapI32(t.order), t.priority, t.labels)
  }

  // ---------------------------------------------------------------- properties

  /** A due date survives encoding and decoding. */
  lemma DueRoundTrip(d: SyncDue)
    ensures DecodeDue(EncodeDue(d)) == Decoded(d)
  {
  }

  /** The encoded project has no legacy alias keys. */
  lemma ProjectEncodingAliases(p: SyncProject)
    ensures var m := EncodeProject(p).fields;
      "is_shared" !in m && "is_favorite" !in m && "child_order" !in m && "added_at" !in m
  {
  }

  /** The encoded project holds every field under its primary key. */
  lemma ProjectEncodingValues(p: SyncProject)
    ensures var m := EncodeProject(p).fields;
      && "id" in m && m["id"] == JString(p.id)
      && "name" in m && m["name"] == JString(p.name)
      && "color" in m && m["color"] == JString(p.color)
      && "shared" in m && m["shared"] == JBool(p.shared)
      && "favorite" in m && m["favorite"] == JBool(p.favorite)
      && "sort_order" in m && m["sort_order"] == JNumber(p.sortOrder)
      && "is_archived" in m && m["is_archived"] == JBool(p.isArchived)
      && "is_deleted" in m && m["is_deleted"] == JBool(p.isDeleted)
      && "created_at" in m && m["created_at"] == JString(p.createdAt)
      && "updated_at" in m && m["updated_at"] == JString(p.updatedAt)
  {
  }

  /** A project survives encoding and decoding. */
  lemma ProjectRoundTrip(p: SyncProject)
    ensures DecodeProject(EncodeProject(p)) == Decoded(p)
  {
    ProjectEncodingAliases(p);
    ProjectEncodingValues(p);
  }

  /** The encoded task has no legacy alias keys. */
  lemma TaskEncodingAliases(t: SyncTask)
    ensures var m := EncodeTask(t).fields;
      "child_order" !in m && "checked" !in m && "added_at" !in m
  {
  }

  /** The encoded task holds its identity and placement under their primary keys. */
  lemma TaskEncodingHead(t: SyncTask)
    ensures var m := EncodeTask(t).fields;
      && "id" in m && m["id"] == JString(t.id)
      && "project_id" in m && m["project_id"] == OptString(t.projectId)
      && "section_id" in m && m["section_id"] == OptString(t.sectionId)
      && "content" in m && m["content"] == JString(t.content)
  {
  }

  /** The encoded task holds its description, priority and due date under their primary keys. */
  lemma TaskEncodingBody(t: SyncTask)
    ensures var m := EncodeTask(t).fields;
      && "description" in m && m["description"] == OptString(t.description)
      && "priority" in m && m["priority"] == JNumber(t.priority)
      && "due" in m && m["due"] == (if t.due.Some? then EncodeDue(t.due.value) else JNull)
  {
  }

  /** The encoded task holds its labels, ordering, flags and time stamps under their primary keys. */
  lemma TaskEncodingTail(t: SyncTask)
    ensures var m := EncodeTask(t).fields;
      && "labels" in m && m["labels"] == Strings(t.labels)
      && "order" in m && m["order"] == JNumber(t.order)
      && "indentation" in m && m["indentation"] == JNumber(t.indentation)
      && "is_completed" in m && m["is_completed"] == JBool(t.isCompleted)
      && "is_archived" in m && m["is_archived"] == JBool(t.isArchived)
      && "is_deleted" in m && m["is_deleted"] == JBool(t.isDeleted)
      && "created_at" in m && m["created_at"] == JString(t.createdAt)
      && "updated_at" in m && m["updated_at"] == JString(t.updatedAt)
  {
  }

  /** A task survives encoding and decoding. */
  lemma TaskRoundTrip(t: SyncTask)
    ensures DecodeTask(EncodeTask(t)) == Decoded(t)
  {
    TaskEncodingAliases(t);
    TaskEncodingHead(t);
    TaskEncodingBody(t);
    TaskEncodingTail(t);
    DecodeTaskFields(EncodeTask(t).fields, t);
  }

  /** Any object holding a task's fields under their primary keys, and none of the aliases, decodes to that task. */
  lemma DecodeTaskFields(m: map<string, Json>, t: SyncTask)
    requires "child_order" !in m && "checked" !in m && "added_at" !in m
    requires "id" in m && m["id"] == JString(t.id)
    requires "project_id" in m && m["project_id"] == OptString(t.projectId)
    requires "section_id" in m && m["section_id"] == OptString(t.sectionId)
    requires "content" in m && m["content"] == JString(t.content)
    requires "description" in m && m["description"] == OptString(t.description)
    requires "priority" in m && m["priority"] == JNumber(t.priority)
    requires "due" in m && m["due"] == (if t.due.Some? then EncodeDue(t.due.value) else JNull)
    requires "labels" in m && m["labels"] == Strings(t.labels)
    requires "order" in m && m["order"] == JNumber(t.order)
    requires "indentation" in m && m["indentation"] == JNumber(t.indentation)
    requires "is_completed" in m && m["is_completed"] == JBool(t.isCompleted)
    requires "is_archived" in m && m["is_archived"] == JBool(t.isArchived)
    requires "is_deleted" in m && m["is_deleted"] == JBool(t.isDeleted)
    requires "created_at" in m && m["created_at"] == JString(t.createdAt)
    requires "updated_at" in m && m["updated_at"] == JString(t.updatedAt)
    ensures DecodeTask(JObject(m)) == Decoded(t)
  {
    DecodeTaskHeadFields(m, t);
    DecodeTaskTailFields(m, t);
  }

  lemma DecodeTaskHeadFields(m: map<string, Json>, t: SyncTask)
    requires "id" in m && m["id"] == JString(t.id)
    requires "project_id" in m && m["project_id"] == OptString(t.projectId)
    requires "section_id" in m && m["section_id"] == OptString(t.sectionId)
    requires "content" in m && m["content"] == JString(t.content)
    requires "description" in m && m["description"] == OptString(t.description)
    requires "priority" in m && m["priority"] == JNumber(t.priority)
    requires "due" in m && m["due"] == (if t.due.Some? then EncodeDue(t.due.value) else JNull)
    ensures DecodeTaskHead(m) == Decoded((t.id, t.projectId, t.sectionId, t.content, t.description, t.priority, t.due))
  {
    if t.due.Some? {
      DueRoundTrip(t.due.value);
    }
  }

  lemma DecodeTaskTailFields(m: map<string, Json>, t: SyncTask)
    requires "child_order" !in m && "checked" !in m && "added_at" !in m
    requires "labels" in m && m["labels"] == Strings(t.labels)
    requires "order" in m && m["order"] == JNumber(t.order)
    requires "indentation" in m && m["indentation"] == JNumber(t.indentation)
    requires "is_completed" in m && m["is_completed"] == JBool(t.isCompleted)
    requires "is_archived" in m && m["is_archived"] == JBool(t.isArchived)
    requires "is_deleted" in m && m["is_deleted"] == JBool(t.isDeleted)
    requires "created_at" in m && m["created_at"] == JString(t.createdAt)
    requires "updated_at" in m && m["updated_at"] == JString(t.updatedAt)
    ensures DecodeTaskTail(m) == Decoded((t.labels, t.order, t.indentation, t.isCompleted, t.isArchived, t.isDeleted, t.createdAt, t.updatedAt))
  {
    StringsRoundTrip(t.labels);
  }

  /**
    A task written with the legacy keys `checked`, `child_order` and `added_at`
    decodes exactly as the same task written with `is_completed`, `order` and
    `created_at`.
  */
  lemma TaskLegacyKeys(m: map<string, Json>, completed: Json, order: Json, created: Json)
    requires "is_completed" !in m && "checked" !in m
    requires "order" !in m && "child_order" !in m
    requires "created_at" !in m && "added_at" !in m
    ensures DecodeTask(JObject(m["checked" := completed]["child_order" := order]["added_at" := created]))
         == DecodeTask(JObject(m["is_completed" := completed]["order" := order]["created_at" := created]))
  {
    TaskHeadLegacy(m, completed, order, created);
    TaskTailLegacy(m, completed, order, created);
  }

  lemma TaskHeadLegacy(m: map<string, Json>, completed: Json, order: Json, created: Json)
    ensures DecodeTaskHead(m["checked" := completed]["child_order" := order]["added_at" := created])
         == DecodeTaskHead(m["is_completed" := completed]["order" := order]["created_at" := created])
  {
    var legacy := m["checked" := completed]["child_order" := order]["added_at" := created];
    var current := m["is_completed" := completed]["order" := order]["created_at" := created];
    RequiredLocal(legacy, current, "id", AsString);
    OptionalLocal(legacy, current, "project_id", AsString);
    OptionalLocal(legacy, current, "section_id", AsString);
    RequiredLocal(legacy, current, "content", AsString);
    OptionalLocal(legacy, current, "description", AsString);
    DefaultedLocal(legacy, current, "priority", None, 0, AsU8);
    OptionalLocal(legacy, current, "due", DecodeDue);
  }

  lemma TaskTailLegacy(m: map<string, Json>, completed: Json, order: Json, created: Json)
    requires "is_completed" !in m && "checked" !in m
    requires "order" !in m && "child_order" !in m
    requires "created_at" !in m && "added_at" !in m
    ensures DecodeTaskTail(m["checked" := completed]["child_order" := order]["added_at" := created])
         == DecodeTaskTail(m["is_completed" := completed]["order" := order]["created_at" := created])
  {
    var legacy := m["checked" := completed]["child_order" := order]["added_at" := created];
    var current := m["is_completed" := completed]["order" := order]["created_at" := created];
    TaskTailRenamed(m, completed, order, created);
    TaskTailKept(m, completed, order, created);
    TaskTailSameFields(legacy, current);
  }

  /** The renamed task fields read alike under either spelling. */
  lemma TaskTailRenamed(m: map<string, Json>, completed: Json, order: Json, created: Json)
    requires "is_completed" !in m && "checked" !in m
    requires "order" !in m && "child_order" !in m
    requires "created_at" !in m && "added_at" !in m
    ensures var legacy := m["checked" := completed]["child_order" := order]["added_at" := created];
      var current := m["is_completed" := completed]["order" := order]["created_at" := created];
      && Defaulted(legacy, "order", Some("child_order"), 0, AsI64) == Defaulted(current, "order", Some("child_order"), 0, AsI64)
      && Defaulted(legacy, "is_completed", Some("checked"), false, AsBool) == Defaulted(current, "is_completed", Some("checked"), false, AsBool)
      && Defaulted(legacy, "created_at", Some("added_at"), "", AsString) == Defaulted(current, "created_at", Some("added_at"), "", AsString)
  {
    var legacy := m["checked" := completed]["child_order" := order]["added_at" := created];
    var current := m["is_completed" := completed]["order" := order]["created_at" := created];
    DefaultedAlias(legacy, current, "order", "child_order", 0, AsI64);
    DefaultedAlias(legacy, current, "is_completed", "checked", false, AsBool);
    DefaultedAlias(legacy, current, "created_at", "added_at", "", AsString);
  }

  /** The task fields that were not renamed read alike under either spelling. */
  lemma TaskTailKept(m: map<string, Json>, completed: Json, order: Json, created: Json)
    ensures var legacy := m["checked" := completed]["child_order" := order]["added_at" := created];
      var current := m["is_completed" := completed]["order" := order]["created_at" := created];
      && Defaulted(legacy, "labels", None, [], AsStrings) == Defaulted(current, "labels", None, [], AsStrings)
      && Defaulted(legacy, "indentation", None, 0, AsI64) == Defaulted(current, "indentation", None, 0, AsI64)
      && Defaulted(legacy, "is_archived", None, false, AsBool) == Defaulted(current, "is_archived", None, false, AsBool)
      && Defaulted(legacy, "is_deleted", None, false, AsBool) == Defaulted(current, "is_deleted", None, false, AsBool)
      && Defaulted(legacy, "updated_at", None, "", AsString) == Defaulted(current, "updated_at", None, "", AsString)
  {
    var legacy := m["checked" := completed]["child_order" := order]["added_at" := created];
    var current := m["is_completed" := completed]["order" := order]["created_at" := created];
    DefaultedLocal(legacy, current, "labels", None, [], AsStrings);
    DefaultedLocal(legacy, current, "indentation", None, 0, AsI64);
    DefaultedLocal(legacy, current, "is_archived", None, false, AsBool);
    DefaultedLocal(legacy, current, "is_deleted", None, false, AsBool);
    DefaultedLocal(legacy, current, "updated_at", None, "", AsString);
  }

  /** Two objects whose task-tail fields read alike decode to the same tail. */
  lemma TaskTailSameFields(m1: map<string, Json>, m2: map<string, Json>)
    requires Defaulted(m1, "labels", None, [], AsStrings) == Defaulted(m2, "labels", None, [], AsStrings)
    requires Defaulted(m1, "order", Some("child_order"), 0, AsI64) == Defaulted(m2, "order", Some("child_order"), 0, AsI64)
    requires Defaulted(m1, "indentation", None, 0, AsI64) == Defaulted(m2, "indentation", None, 0, AsI64)
    requires Defaulted(m1, "is_completed", Some("checked"), false, AsBool) == Defaulted(m2, "is_completed", Some("checked"), false, AsBool)
    requires Defaulted(m1, "is_archived", None, false, AsBool) == Defaulted(m2, "is_archived", None, false, AsBool)
    requires Defaulted(m1, "is_deleted", None, false, AsBool) == Defaulted(m2, "is_deleted", None, false, AsBool)
    requires Defaulted(m1, "created_at", Some("added_at"), "", AsString) == Defaulted(m2, "created_at", Some("added_at"), "", AsString)
    requires Defaulted(m1, "updated_at", None, "", AsString) == Defaulted(m2, "updated_at", None, "", AsString)
    ensures DecodeTaskTail(m1) == DecodeTaskTail(m2)
  {
  }

  /** Giving a task's completion under both its name and its legacy name is an error. */
  lemma TaskDuplicateCompleted(m: map<string, Json>)
    requires "is_completed" in m && "checked" in m
    ensures DecodeTask(JObject(m)).Malformed?
  {
  }

  /**
    A project written with the legacy keys `is_shared`, `is_favorite`,
    `child_order` and `added_at` decodes exactly as the same project written
    with `shared`, `favorite`, `sort_order` and `created_at`.
  */
  lemma ProjectLegacyKeys(m: map<string, Json>, shared: Json, favorite: Json, order: Json, created: Json)
    requires "shared" !in m && "is_shared" !in m
    requires "favorite" !in m && "is_favorite" !in m
    requires "sort_order" !in m && "child_order" !in m
    requires "created_at" !in m && "added_at" !in m
    ensures DecodeProject(JObject(m["is_shared" := shared]["is_favorite" := favorite]["child_order" := order]["added_at" := created]))
         == DecodeProject(JObject(m["shared" := shared]["favorite" := favorite]["sort_order" := order]["created_at" := created]))
  {
    ProjectRenamed(m, shared, favorite, order, created);
    ProjectKept(m, shared, favorite, order, created);
    ProjectSameFields(m["is_shared" := shared]["is_favorite" := favorite]["child_order" := order]["added_at" := created], m["shared" := shared]["favorite" := favorite]["sort_order" := order]["created_at" := created]);
  }

  /** The renamed project fields read alike under either spelling. */
  lemma ProjectRenamed(m: map<string, Json>, shared: Json, favorite: Json, order: Json, created: Json)
    requires "shared" !in m && "is_shared" !in m
    requires "favorite" !in m && "is_favorite" !in m
    requires "sort_order" !in m && "child_order" !in m
    requires "created_at" !in m && "added_at" !in m
    ensures var legacy := m["is_shared" := shared]["is_favorite" := favorite]["child_order" := order]["added_at" := created];
      var current := m["shared" := shared]["favorite" := favorite]["sort_order" := order]["created_at" := created];
      && Defaulted(legacy, "shared", Some("is_shared"), false, AsBool) == Defaulted(current, "shared", Some("is_shared"), false, AsBool)
      && Defaulted(legacy, "favorite", Some("is_favorite"), false, AsBool) == Defaulted(current, "favorite", Some("is_favorite"), false, AsBool)
      && Defaulted(legacy, "sort_order", Some("child_order"), 0, AsI64) == Defaulted(current, "sort_order", Some("child_order"), 0, AsI64)
      && Defaulted(legacy, "created_at", Some("added_at"), "", AsString) == Defaulted(current, "created_at", Some("added_at"), "", AsString)
  {
    var legacy := m["is_shared" := shared]["is_favorite" := favorite]["child_order" := order]["added_at" := created];
    var current := m["shared" := shared]["favorite" := favorite]["sort_order" := order]["created_at" := created];
    DefaultedAlias(legacy, current, "shared", "is_shared", false, AsBool);
    DefaultedAlias(legacy, current, "favorite", "is_favorite", false, AsBool);
    DefaultedAlias(legacy, current, "sort_order", "child_order", 0, AsI64);
    DefaultedAlias(legacy, current, "created_at", "added_at", "", AsString);
  }

  /** The project fields that were not renamed read alike under either spelling. */
  lemma ProjectKept(m: map<string, Json>, shared: Json, favorite: Json, order: Json, created: Json)
    ensures var legacy := m["is_shared" := shared]["is_favorite" := favorite]["child_order" := order]["added_at" := created];
      var current := m["shared" := shared]["favorite" := favorite]["sort_order" := order]["created_at" := created];
      && Required(legacy, "id", AsString) == Required(current, "id", AsString)
      && Required(legacy, "name", AsString) == Required(current, "name", AsString)
      && Defaulted(legacy, "color", None, "", AsString) == Defaulted(current, "color", None, "", AsString)
      && Defaulted(legacy, "is_archived", None, false, AsBool) == Defaulted(current, "is_archived", None, false, AsBool)
      && Defaulted(legacy, "is_deleted", None, false, AsBool) == Defaulted(current, "is_deleted", None, false, AsBool)
      && Defaulted(legacy, "updated_at", None, "", AsString) == Defaulted(current, "updated_at", None, "", AsString)
  {
    var legacy := m["is_shared" := shared]["is_favorite" := favorite]["child_order" := order]["added_at" := created];
    var current := m["shared" := shared]["favorite" := favorite]["sort_order" := order]["created_at" := created];
    ProjectLegacyAgree(m, shared, favorite, order, created);
    RequiredLocal(legacy, current, "id", AsString);
    RequiredLocal(legacy, current, "name", AsString);
    DefaultedLocal(legacy, current, "color", None, "", AsString);
    DefaultedLocal(legacy, current, "is_archived", None, false, AsBool);
    DefaultedLocal(legacy, current, "is_deleted", None, false, AsBool);
    DefaultedLocal(legacy, current, "updated_at", None, "", AsString);
  }

  /** Two objects whose project fields read alike decode to the same project. */
  lemma ProjectSameFields(m1: map<string, Json>, m2: map<string, Json>)
    requires Required(m1, "id", AsString) == Required(m2, "id", AsString)
    requires Required(m1, "name", AsString) == Required(m2, "name", AsString)
    requires Defaulted(m1, "color", None, "", AsString) == Defaulted(m2, "color", None, "", AsString)
    requires Defaulted(m1, "shared", Some("is_shared"), false, AsBool) == Defaulted(m2, "shared", Some("is_shared"), false, AsBool)
    requires Defaulted(m1, "favorite", Some("is_favorite"), false, AsBool) == Defaulted(m2, "favorite", Some("is_favorite"), false, AsBool)
    requires Defaulted(m1, "sort_order", Some("child_order"), 0, AsI64) == Defaulted(m2, "sort_order", Some("child_order"), 0, AsI64)
    requires Defaulted(m1, "is_archived", None, false, AsBool) == Defaulted(m2, "is_archived", None, false, AsBool)
    requires Defaulted(m1, "is_deleted", None, false, AsBool) == Defaulted(m2, "is_deleted", None, false, AsBool)
    requires Defaulted(m1, "created_at", Some("added_at"), "", AsString) == Defaulted(m2, "created_at", Some("added_at"), "", AsString)
    requires Defaulted(m1, "updated_at", None, "", AsString) == Defaulted(m2, "updated_at", None, "", AsString)
    ensures DecodeProject(JObject(m1)) == DecodeProject(JObject(m2))
  {
  }

  /** The legacy and the current spelling of a project agree on every key but the renamed ones. */
  lemma ProjectLegacyAgree(m: map<string, Json>, shared: Json, favorite: Json, order: Json, created: Json)
    ensures var legacy := m["is_shared" := shared]["is_favorite" := favorite]["child_order" := order]["added_at" := created];
      var current := m["shared" := shared]["favorite" := favorite]["sort_order" := order]["created_at" := created];
      && SameField(legacy, current, "id") && SameField(legacy, current, "name") && SameField(legacy, current, "color")
      && SameField(legacy, current, "is_archived") && SameField(legacy, current, "is_deleted") && SameField(legacy, current, "updated_at")
  {
  }

  /** A read response that carries only its sync token has no resources and is not a full sync. */
  lemma ReadResponseDefaults(m: map<string, Json>, token: string)
    requires "sync_token" in m && m["sync_token"] == JString(token)
    requires "full_sync" !in m && "projects" !in m && "items" !in m
    requires "sections" !in m && "labels" !in m && "filters" !in m
    ensures DecodeReadResponse(JObject(m)) == Decoded(SyncReadResponse(token, false, [], [], [], [], []))
  {
  }

  /** A write response that carries only its sync token has no statuses and no id mapping. */
  lemma WriteResponseDefaults(m: map<string, Json>, token: string)
    requires "sync_token" in m && m["sync_token"] == JString(token)
    requires "sync_status" !in m && "temp_id_mapping" !in m
    ensures DecodeWriteResponse(JObject(m)) == Decoded(SyncWriteResponse(token, map[], map[]))
  {
  }

  /** A due date without `is_recurring`, `datetime` or `timezone` is not recurring and has neither. */
  lemma DueDefaults(m: map<string, Json>)
    requires "is_recurring" !in m && "datetime" !in m && "timezone" !in m
    requires "date" !in m || m["date"] == JNull || m["date"].JString?
    ensures DecodeDue(JObject(m)).Decoded?
    ensures var d := DecodeDue(JObject(m)).value;
      !d.isRecurring && d.datetime.None? && d.timezone.None?
      && d.date == (if "date" in m && m["date"].JString? then Some(m["date"].s) else None)
  {
  }

  /** A project that carries only `id` and `name` has every other field at its default. */
  lemma ProjectDefaults(m: map<string, Json>, id: string, name: string)
    requires m == map["id" := JString(id), "name" := JString(name)]
    ensures DecodeProject(JObject(m)) == Decoded(SyncProject(id, name, "", false, false, 0, false, false, "", ""))
  {
  }

  /** A task that carries only `id` and `content` has no project, section, description, due date or labels. */
  lemma TaskDefaults(m: map<string, Json>, id: string, content: string)
    requires m == map["id" := JString(id), "content" := JString(content)]
    ensures DecodeTask(JObject(m)) == Decoded(SyncTask(id, None, None, content, None, 0, None, [], 0, 0, false, false, false, "", ""))
  {
    assert DecodeTaskHead(m) == Decoded((id, None, None, content, None, 0, None));
    assert DecodeTaskTail(m) == Decoded(([], 0, 0, false, false, false, "", ""));
  }

  /** A section without its flags and optional fields is neither archived nor deleted and has no archive time or collapsed state. */
  lemma SectionDefaults(m: map<string, Json>, id: string, projectId: string, name: string, order: i64, createdAt: string)
    requires m == map["id" := JString(id), "project_id" := JString(projectId), "name" := JString(name),
      "order" := JNumber(order), "created_at" := JString(createdAt)]
    ensures DecodeSection(JObject(m)) == Decoded(SyncSection(id, projectId, name, order, false, false, createdAt, None, None))
  {
  }

  /** A label without `is_favorite` is not a favourite. */
  lemma LabelDefaults(m: map<string, Json>, id: string, name: string, color: string)
    requires m == map["id" := JString(id), "name" := JString(name), "color" := JString(color)]
    ensures DecodeLabel(JObject(m)) == Decoded(SyncLabel(id, name, color, false))
  {
  }

  /** The encoded section holds every field under its key. */
  lemma SectionEncodingValues(c: SyncSection)
    ensures var m := EncodeSection(c).fields;
      && "id" in m && m["id"] == JString(c.id)
      && "project_id" in m && m["project_id"] == JString(c.projectId)
      && "name" in m && m["name"] == JString(c.name)
      && "order" in m && m["order"] == JNumber(c.order)
      && "is_archived" in m && m["is_archived"] == JBool(c.isArchived)
      && "is_deleted" in m && m["is_deleted"] == JBool(c.isDeleted)
      && "created_at" in m && m["created_at"] == JString(c.createdAt)
      && "archived_at" in m && m["archived_at"] == OptString(c.archivedAt)
      && "is_collapsed" in m && m["is_collapsed"] == (if c.isCollapsed.Some? then JBool(c.isCollapsed.value) else JNull)
  {
  }

  /** A section survives encoding and decoding. */
  lemma SectionRoundTrip(c: SyncSection)
    ensures DecodeSection(EncodeSection(c)) == Decoded(c)
  {
    SectionEncodingValues(c);
  }

  /** A label survives encoding and decoding. */
  lemma LabelRoundTrip(l: SyncLabel)
    ensures DecodeLabel(EncodeLabel(l)) == Decoded(l)
  {
  }

  /** A filter survives encoding and decoding. */
  lemma FilterRoundTrip(f: SyncFilter)
    ensures DecodeFilter(EncodeFilter(f)) == Decoded(f)
  {
  }
}
