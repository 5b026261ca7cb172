/**
  The Todoist Sync API client: the sync token it holds, how it turns a server
  reply into a response or an error, the check that every command in a batch
  succeeded, and the helpers that submit one command and pull out the real id
  the server gave a new resource. The network is a parameter: each request's
  reply is given as its status, its body and what the body parses to.
*/
module SyncClient {
  import opened Wrappers
  import opened Ints
  import opened Json
  import opened Errors
  import opened SyncModels
  import opened Commands

  const SYNC_URL: string := "https://api.todoist.com/api/v1/sync"
  const READ_PARSE_ERROR: string := "Failed to parse sync response: "
  const WRITE_PARSE_ERROR: string := "Failed to parse command response: "

  /** The server's reply to one request: its status, its body, and what the body parses to as JSON. */
  datatype Reply = Reply(status: u16, body: string, parsed: JsonParse)

  /** A 2xx status. */
  predicate IsSuccess(status: int)
  {
    200 <= status <= 299
  }

  /**
    A reply as `sync` and `execute_commands` read it: a non-2xx status is an
    HTTP error carrying the body, unparsed; a 2xx body that is not the expected
    record is an API error starting with `what`.
  */
  function Classify<T>(reply: Reply, dec: Json -> Decoded<T>, what: string): (r: Result<T>)
    ensures !IsSuccess(reply.status) ==> r == Err(Http(reply.status, reply.body))
    ensures r.Ok? <==> IsSuccess(reply.status) && reply.parsed.Parsed? && dec(reply.parsed.value).Decoded?
    ensures r.Ok? ==> r.value == dec(reply.parsed.value).value
    ensures r.Err? && IsSuccess(reply.status) ==> (r.error.Api? && |what| <= |r.error.msg|
      && r.error.msg[..|what|] == what)
  {
    if !IsSuccess(reply.status) then Err(Http(reply.status, reply.body))
    else
      match reply.parsed
      case SyntaxError(reason) => Err(Api(what + reason))
      case Parsed(j) =>
        match dec(j)
        case Malformed(reason) => Err(Api(what + reason))
        case Decoded(v) => Ok(v)
  }

  function ReadReply(reply: Reply): (r: Result<SyncReadResponse>)
    ensures !IsSuccess(reply.status) ==> r == Err(Http(reply.status, reply.body))
    ensures r.Ok? ==> (reply.parsed.Parsed? && reply.parsed.value.JObject? && "sync_token" in reply.parsed.value.fields
      && reply.parsed.value.fields["sync_token"] == JString(r.value.syncToken))
    ensures r.Err? && IsSuccess(reply.status) ==> (r.error.Api? && |READ_PARSE_ERROR| <= |r.error.msg|
      && r.error.msg[..|READ_PARSE_ERROR|] == READ_PARSE_ERROR)
  {
    Classify(reply, DecodeReadResponse, READ_PARSE_ERROR)
  }

  function WriteReply(reply: Reply): (r: Result<SyncWriteResponse>)
    ensures !IsSuccess(reply.status) ==> r == Err(Http(reply.status, reply.body))
    ensures r.Ok? ==> (reply.parsed.Parsed? && reply.parsed.value.JObject? && "sync_token" in reply.parsed.value.fields
      && reply.parsed.value.fields["sync_token"] == JString(r.value.syncToken))
    ensures r.Err? && IsSuccess(reply.status) ==> (r.error.Api? && |WRITE_PARSE_ERROR| <= |r.error.msg|
      && r.error.msg[..|WRITE_PARSE_ERROR|] == WRITE_PARSE_ERROR)
  {
    Classify(reply, DecodeWriteResponse, WRITE_PARSE_ERROR)
  }

  /** Every command's status is the string "ok". */
  predicate AllOk(status: map<string, Json>)
  {
    forall u :: u in status ==> status[u] == JString("ok")
  }

  function CommandFailed(uuid: string, status: Json): TodoError
  {
    Api("Command " + uuid + " failed: " + Display(status))
  }

  /** `e` reports one command in `status` whose status is not "ok". */
  ghost predicate IsCommandFailure(status: map<string, Json>, e: TodoError)
  {
    exists u :: u in status && status[u] != JString("ok") && e == CommandFailed(u, status[u])
  }

  /** What submitting a batch gives: the reply's error, or the response once every command succeeded. */
  ghost predicate StatusChecked(w: Result<SyncWriteResponse>, r: Result<SyncWriteResponse>)
  {
    && (w.Err? ==> r == w)
    && (w.Ok? && AllOk(w.value.syncStatus) ==> r == w)
    && (w.Ok? && !AllOk(w.value.syncStatus) ==> r.Err? && IsCommandFailure(w.value.syncStatus, r.error))
  }

  /**
    What an `add_*` helper gives for `reply`: the batch's error, an API error when
    the server mapped no temporary id, else one of the ids it mapped to.
  */
  ghost predicate IdReturned(reply: Reply, what: string, r: Result<string>)
  {
    var w := WriteReply(reply);
    if w.Err? then r == Err(w.error)
    else if !AllOk(w.value.syncStatus) then r.Err? && IsCommandFailure(w.value.syncStatus, r.error)
    else if w.value.tempIdMapping == map[] then r == Err(Api("Failed to get " + what + " ID from response"))
    else r.Ok? && r.value in w.value.tempIdMapping.Values
  }

  /** What a helper that submits one command and returns nothing gives for `reply`. */
  ghost predicate Done(reply: Reply, r: Result<()>)
  {
    var w := WriteReply(reply);
    if w.Err? then r == Err(w.error)
    else if !AllOk(w.value.syncStatus) then r.Err? && IsCommandFailure(w.value.syncStatus, r.error)
    else r == Ok(())
  }

  /** The batch as one JSON array, as the `commands` form field carries it. */
  function Batch(commands: seq<Command>): (j: Json)
    ensures j.JArray? && |j.items| == |commands|
  {
    EncodeAll(commands, EncodeCommand)
  }

  /** The checked status of a batch: Ok exactly when every status is "ok", else the failure of one command. */
  method CheckSyncStatus(status: map<string, Json>) returns (r: Result<()>)
    ensures r.Ok? <==> AllOk(status)
    ensures r.Err? ==> IsCommandFailure(status, r.error)
  {
    var pending := status.Keys;
    while pending != {}
      invariant pending <= status.Keys
      invariant forall u :: u in status && u !in pending ==> status[u] == JString("ok")
      decreases pending
    {
      var u :| u in pending;
      if status[u] != JString("ok") {
        return Err(CommandFailed(u, status[u]));
      }
      pending := pending - {u};
    }
    r := Ok(());
  }

  /** The real id of a new resource: some id the server mapped a temporary id to. */
  method TakeMappedId(mapping: map<string, string>, what: string) returns (r: Result<string>)
    ensures r.Err? <==> mapping == map[]
    ensures r.Err? ==> r.error == Api("Failed to get " + what + " ID from response")
    ensures r.Ok? ==> r.value in mapping.Values
  {
    if mapping == map[] {
      return Err(Api("Failed to get " + what + " ID from response"));
    }
    var t :| t in mapping.Keys;
    r := Ok(mapping[t]);
  }

  /** `update_filter_order`'s arguments: one `FilterOrderArgs` per pair, in order. */
  function FilterOrders(pairs: seq<(string, i64)>): (r: seq<FilterOrderArgs>)
    ensures |r| == |pairs|
    ensures forall i :: 0 <= i < |pairs| ==> r[i].id == pairs[i].0 && r[i].order == pairs[i].1
  {
    seq(|pairs|, i requires 0 <= i < |pairs| => NewFilterOrderArgs(pairs[i].0, pairs[i].1))
  }

  /** The arguments `add_project` builds: the name and whichever attributes are given. */
  function ProjectAddOf(name: string, color: Option<string>, favorite: Option<bool>): ProjectAddArgs
  {
    ProjectAddArgs(name, color, favorite)
  }

  /** The arguments `add_task` builds. */
  function ItemAddOf(content: string, description: Option<string>, projectId: Option<string>, sectionId: Option<string>,
    dueString: Option<string>, priority: Option<u8>, labels: Option<seq<string>>): ItemAddArgs
  {
    ItemAddArgs(content, description, projectId, sectionId, dueString, priority, labels)
  }

  /** The arguments `update_task` builds; it never sets `due_datetime` or `due_lang`. */
  function ItemUpdateOf(id: string, content: Option<string>, description: Option<string>, priority: Option<u8>,
    dueString: Option<string>, labels: Option<seq<string>>): ItemUpdateArgs
  {
    ItemUpdateArgs(id, content, description, priority, dueString, None, None, labels)
  }

  /** The arguments `add_label` builds. */
  function LabelAddOf(name: string, color: Option<string>): LabelAddArgs
  {
    LabelAddArgs(name, color)
  }

  /** The arguments `add_filter` builds. */
  function FilterAddOf(name: string, query: string, color: Option<string>): FilterAddArgs
  {
    FilterAddArgs(name, query, color)
  }

  /**
    The helpers build their arguments with `new` and one setter per optional
    attribute: the records above, each argument in its own field.
  */
  lemma HelperArgs(name: string, content: string, query: string, id: string, description: Option<string>,
    projectId: Option<string>, sectionId: Option<string>, dueString: Option<string>, priority: Option<u8>,
    labels: Option<seq<string>>, color: Option<string>, favorite: Option<bool>, newContent: Option<string>)
    ensures ProjectAddOf(name, color, favorite) == NewProjectAddArgs(name).WithColor(color).WithFavorite(favorite)
    ensures ItemAddOf(content, description, projectId, sectionId, dueString, priority, labels)
      == NewItemAddArgs(content).WithDescription(description).WithProjectId(projectId).WithSectionId(sectionId)
        .WithDueString(dueString).WithPriority(priority).WithLabels(labels)
    ensures ItemUpdateOf(id, newContent, description, priority, dueString, labels)
      == NewItemUpdateArgs(id).WithContent(newContent).WithDescription(description).WithPriority(priority)
        .WithDueString(dueString).WithLabels(labels)
    ensures LabelAddOf(name, color) == NewLabelAddArgs(name).WithColor(color)
    ensures FilterAddOf(name, query, color) == NewFilterAddArgs(name, query).WithColor(color)
  {
  }

  /** `TodoistSyncClient`: the API token and the sync token of the last full read, if one was kept. */
  class TodoistSyncClient {
    const token: string
    const syncUrl: string
    var syncToken: Option<string>

    /** `new`: the given API token, the Sync endpoint, and no sync token. */
    constructor(token: string)
      ensures this.token == token && syncUrl == SYNC_URL && syncToken == None
    {
      this.token := token;
      syncUrl := SYNC_URL;
      syncToken := None;
    }

    /** The `Authorization` header. */
    function AuthHeader(): (h: string)
      ensures |h| == 7 + |token| && h[..7] == "Bearer " && h[7..] == token
    {
      "Bearer " + token
    }

    /** `get_sync_token`. */
    function GetSyncToken(): (t: Option<string>)
      reads this
      ensures t == syncToken
    {
      syncToken
    }

    /** `set_sync_token`: keeps `t`; nothing else changes. */
    method SetSyncToken(t: string)
      modifies this
      ensures syncToken == Some(t)
    {
      syncToken := Some(t);
    }

    /** The token a read sends: the one held, or "*" (read everything) when none is held. */
    function ReadToken(): (t: string)
      reads this
      ensures syncToken.Some? ==> t == syncToken.value
      ensures syncToken.None? ==> t == "*"
    {
      if syncToken.Some? then syncToken.value else "*"
    }

    /** `sync`: sends the read token and the resource types, and classifies the reply. The client is unchanged. */
    method Sync(resourceTypes: seq<string>, reply: Reply) returns (sentToken: string, sentTypes: Json, r: Result<SyncReadResponse>)
      ensures sentToken == ReadToken() && sentTypes == Strings(resourceTypes)
      ensures r == ReadReply(reply)
    {
      sentToken := if syncToken.Some? then syncToken.value else "*";
      sentTypes := Strings(resourceTypes);
      r := ReadReply(reply);
    }

    /** `execute_commands`: sends the batch and classifies the reply. The client is unchanged. */
    method ExecuteCommands(commands: seq<Command>, reply: Reply) returns (sent: Json, r: Result<SyncWriteResponse>)
      ensures sent == Batch(commands) && r == WriteReply(reply)
    {
      sent := Batch(commands);
      r := WriteReply(reply);
    }

    /** `execute_commands_with_status`: the response only when every command in it succeeded. */
    method ExecuteCommandsWithStatus(commands: seq<Command>, reply: Reply) returns (sent: Json, r: Result<SyncWriteResponse>)
      ensures sent == Batch(commands)
      ensures StatusChecked(WriteReply(reply), r)
    {
      var response;
      sent, response := ExecuteCommands(commands, reply);
      if response.Err? {
        return sent, Err(response.error);
      }
      var checked := CheckSyncStatus(response.value.syncStatus);
      if checked.Err? {
        return sent, Err(checked.error);
      }
      r := response;
    }

    /** `execute`: submits what the builder built, as one batch. */
    method Execute(builder: CommandBuilder, reply: Reply) returns (batch: seq<Command>, r: Result<SyncWriteResponse>)
      requires builder.Valid()
      ensures batch == builder.commands
      ensures StatusChecked(WriteReply(reply), r)
    {
      batch := builder.Build();
      var sent;
      sent, r := ExecuteCommandsWithStatus(batch, reply);
    }

    /** `add_project`: submits one `project_add` command and returns the id the server gave the new project. */
    method AddProject(ids: IdSupply, name: string, color: Option<string>, favorite: Option<bool>, reply: Reply) returns (batch: seq<Command>, r: Result<string>)
      modifies ids
      ensures ids.next == old(ids.next) + 2
      ensures batch == [Command("project_add", IdOf(old(ids.next)), Some(IdOf(old(ids.next) + 1)), ProjectAddOf(name, color, favorite).ToJson())]
      ensures IdReturned(reply, "project", r)
    {
      var args := ProjectAddOf(name, color, favorite);
      var builder := new CommandBuilder(ids);
      builder.ProjectAdd(args);
      var response;
      batch, response := Execute(builder, reply);
      if response.Err? {
        return batch, Err(response.error);
      }
      r := TakeMappedId(response.value.tempIdMapping, "project");
    }

    /** `add_task`: submits one `item_add` command and returns the id the server gave the new task. */
    method AddTask(ids: IdSupply, content: string, description: Option<string>, projectId: Option<string>, sectionId: Option<string>, dueString: Option<string>, priority: Option<u8>, labels: Option<seq<string>>, reply: Reply) returns (batch: seq<Command>, r: Result<string>)
      modifies ids
      ensures ids.next == old(ids.next) + 2
      ensures batch == [Command("item_add", IdOf(old(ids.next)), Some(IdOf(old(ids.next) + 1)), ItemAddOf(content, description, projectId, sectionId, dueString, priority, labels).ToJson())]
      ensures IdReturned(reply, "task", r)
    {
      var args := ItemAddOf(content, description, projectId, sectionId, dueString, priority, labels);
      var builder := new CommandBuilder(ids);
      builder.ItemAdd(args);
      var response;
      batch, response := Execute(builder, reply);
      if response.Err? {
        return batch, Err(response.error);
      }
      r := TakeMappedId(response.value.tempIdMapping, "task");
    }

    /** `update_task`: submits one `item_update` command. */
    method UpdateTask(ids: IdSupply, id: string, content: Option<string>, description: Option<string>, priority: Option<u8>, dueString: Option<string>, labels: Option<seq<string>>, reply: Reply) returns (batch: seq<Command>, r: Result<()>)
      modifies ids
      ensures ids.next == old(ids.next) + 1
      ensures batch == [Command("item_update", IdOf(old(ids.next)), None, ItemUpdateOf(id, content, description, priority, dueString, labels).ToJson())]
      ensures Done(reply, r)
    {
      var args := ItemUpdateOf(id, content, description, priority, dueString, labels);
      var builder := new CommandBuilder(ids);
      builder.ItemUpdate(args);
      var response;
      batch, response := Execute(builder, reply);
      if response.Err? {
        return batch, Err(response.error);
      }
      r := Ok(());
    }

    /** `complete_task`: submits one `item_complete` command. */
    method CompleteTask(ids: IdSupply, id: string, reply: Reply) returns (batch: seq<Command>, r: Result<()>)
      modifies ids
      ensures ids.next == old(ids.next) + 1
      ensures batch == [Command("item_complete", IdOf(old(ids.next)), None, IdArgs(id))]
      ensures Done(reply, r)
    {
      var builder := new CommandBuilder(ids);
      builder.ItemComplete(id);
      var response;
      batch, response := Execute(builder, reply);
      if response.Err? {
        return batch, Err(response.error);
      }
      r := Ok(());
    }

    /** `delete_task`: submits one `item_delete` command. */
    method DeleteTask(ids: IdSupply, id: string, reply: Reply) returns (batch: seq<Command>, r: Result<()>)
      modifies ids
      ensures ids.next == old(ids.next) + 1
      ensures batch == [Command("item_delete", IdOf(old(ids.next)), None, IdArgs(id))]
      ensures Done(reply, r)
    {
      var builder := new CommandBuilder(ids);
      builder.ItemDelete(id);
      var response;
      batch, response := Execute(builder, reply);
      if response.Err? {
        return batch, Err(response.error);
      }
      r := Ok(());
    }

    /** `add_section`: submits one `section_add` command and returns the id the server gave the new section. */
    method AddSection(ids: IdSupply, name: string, projectId: string, reply: Reply) returns (batch: seq<Command>, r: Result<string>)
      modifies ids
      ensures ids.next == old(ids.next) + 2
      ensures batch == [Command("section_add", IdOf(old(ids.next)), Some(IdOf(old(ids.next) + 1)), NewSectionAddArgs(name, projectId).ToJson())]
      ensures IdReturned(reply, "section", r)
    {
      var args := NewSectionAddArgs(name, projectId);
      var builder := new CommandBuilder(ids);
      builder.SectionAdd(args);
      var response;
      batch, response := Execute(builder, reply);
      if response.Err? {
        return batch, Err(response.error);
      }
      r := TakeMappedId(response.value.tempIdMapping, "section");
    }

    /** `update_section`: submits one `section_update` command. */
    method UpdateSection(ids: IdSupply, id: string, name: string, reply: Reply) returns (batch: seq<Command>, r: Result<()>)
      modifies ids
      ensures ids.next == old(ids.next) + 1
      ensures batch == [Command("section_update", IdOf(old(ids.next)), None, JObject(map["id" := JString(id), "name" := JString(name)]))]
      ensures Done(reply, r)
    {
      var builder := new CommandBuilder(ids);
      builder.SectionUpdate(id, name);
      var response;
      batch, response := Execute(builder, reply);
      if response.Err? {
        return batch, Err(response.error);
      }
      r := Ok(());
    }

    /** `delete_section`: submits one `section_delete` command. */
    method DeleteSection(ids: IdSupply, id: string, reply: Reply) returns (batch: seq<Command>, r: Result<()>)
      modifies ids
      ensures ids.next == old(ids.next) + 1
      ensures batch == [Command("section_delete", IdOf(old(ids.next)), None, IdArgs(id))]
      ensures Done(reply, r)
    {
      var builder := new CommandBuilder(ids);
      builder.SectionDelete(id);
      var response;
      batch, response := Execute(builder, reply);
      if response.Err? {
        return batch, Err(response.error);
      }
      r := Ok(());
    }

    /** `add_label`: submits one `label_add` command and returns the id the server gave the new label. */
    method AddLabel(ids: IdSupply, name: string, color: Option<string>, reply: Reply) returns (batch: seq<Command>, r: Result<string>)
      modifies ids
      ensures ids.next == old(ids.next) + 2
      ensures batch == [Command("label_add", IdOf(old(ids.next)), Some(IdOf(old(ids.next) + 1)), LabelAddOf(name, color).ToJson())]
      ensures IdReturned(reply, "label", r)
    {
      var args := LabelAddOf(name, color);
      var builder := new CommandBuilder(ids);
      builder.LabelAdd(args);
      var response;
      batch, response := Execute(builder, reply);
      if response.Err? {
        return batch, Err(response.error);
      }
      r := TakeMappedId(response.value.tempIdMapping, "label");
    }

    /** `update_label`: submits one `label_update` command. */
    method UpdateLabel(ids: IdSupply, id: string, name: Option<string>, color: Option<string>, reply: Reply) returns (batch: seq<Command>, r: Result<()>)
      modifies ids
      ensures ids.next == old(ids.next) + 1
      ensures batch == [Command("label_update", IdOf(old(ids.next)), None, JObject(Members(LabelUpdateFields(id, name, color))))]
      ensures Done(reply, r)
    {
      var builder := new CommandBuilder(ids);
      builder.LabelUpdate(id, name, color);
      var response;
      batch, response := Execute(builder, reply);
      if response.Err? {
        return batch, Err(response.error);
      }
      r := Ok(());
    }

    /** `delete_label`: submits one `label_delete` command. */
    method DeleteLabel(ids: IdSupply, id: string, reply: Reply) returns (batch: seq<Command>, r: Result<()>)
      modifies ids
      ensures ids.next == old(ids.next) + 1
      ensures batch == [Command("label_delete", IdOf(old(ids.next)), None, IdArgs(id))]
      ensures Done(reply, r)
    {
      var builder := new CommandBuilder(ids);
      builder.LabelDelete(id);
      var response;
      batch, response := Execute(builder, reply);
      if response.Err? {
        return batch, Err(response.error);
      }
      r := Ok(());
    }

    /** `add_filter`: submits one `filter_add` command and returns the id the server gave the new filter. */
    method AddFilter(ids: IdSupply, name: string, query: string, color: Option<string>, reply: Reply) returns (batch: seq<Command>, r: Result<string>)
      modifies ids
      ensures ids.next == old(ids.next) + 2
      ensures batch == [Command("filter_add", IdOf(old(ids.next)), Some(IdOf(old(ids.next) + 1)), FilterAddOf(name, query, color).ToJson())]
      ensures IdReturned(reply, "filter", r)
    {
      var args := FilterAddOf(name, query, color);
      var builder := new CommandBuilder(ids);
      builder.FilterAdd(args);
      var response;
      batch, response := Execute(builder, reply);
      if response.Err? {
        return batch, Err(response.error);
      }
      r := TakeMappedId(response.value.tempIdMapping, "filter");
    }

    /** `update_filter`: submits one `filter_update` command. */
    method UpdateFilter(ids: IdSupply, id: string, name: Option<string>, query: Option<string>, color: Option<string>, reply: Reply) returns (batch: seq<Command>, r: Result<()>)
      modifies ids
      ensures ids.next == old(ids.next) + 1
      ensures batch == [Command("filter_update", IdOf(old(ids.next)), None, JObject(Members(FilterUpdateFields(id, name, query, color))))]
      ensures Done(reply, r)
    {
      var builder := new CommandBuilder(ids);
      builder.FilterUpdate(id, name, query, color);
      var response;
      batch, response := Execute(builder, reply);
      if response.Err? {
        return batch, Err(response.error);
      }
      r := Ok(());
    }

    /** `delete_filter`: submits one `filter_delete` command. */
    method DeleteFilter(ids: IdSupply, id: string, reply: Reply) returns (batch: seq<Command>, r: Result<()>)
      modifies ids
      ensures ids.next == old(ids.next) + 1
      ensures batch == [Command("filter_delete", IdOf(old(ids.next)), None, IdArgs(id))]
      ensures Done(reply, r)
    {
      var builder := new CommandBuilder(ids);
      builder.FilterDelete(id);
      var response;
      batch, response := Execute(builder, reply);
      if response.Err? {
        return batch, Err(response.error);
      }
      r := Ok(());
    }

    /** `update_filter_order`: submits one `filter_update_orders` command with the pairs as `FilterOrderArgs`, in order. */
    method UpdateFilterOrder(ids: IdSupply, pairs: seq<(string, i64)>, reply: Reply) returns (batch: seq<Command>, r: Result<()>)
      modifies ids
      ensures ids.next == old(ids.next) + 1
      ensures batch == [Command("filter_update_orders", IdOf(old(ids.next)), None, FilterOrdersArgs(FilterOrders(pairs)))]
      ensures Done(reply, r)
    {
      var filters := FilterOrders(pairs);
      var builder := new CommandBuilder(ids);
      builder.FilterUpdateOrders(filters);
      var response;
      batch, response := Execute(builder, reply);
      if response.Err? {
        return batch, Err(response.error);
      }
      r := Ok(());
    }
  }
}
