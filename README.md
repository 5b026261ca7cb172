# todorust Sync core in Dafny

This project models the core of `todorust`, a command-line client for the
Todoist Sync API. It covers:

- **The command envelope and its builder.** A batch of write commands, each
  with a `type`, a fresh `uuid`, a `temp_id` for commands that create a
  resource, and JSON `args`. There are also the typed argument records behind
  them.
- **The sync client.** It holds one optional sync token. It classifies a reply
  by HTTP status and body, checks each command's status in a write response,
  and pulls the new resource id out of `temp_id_mapping`.
- **The on-disk cache.** One persisted slot with `load`, `save`, `clear`,
  `exists` and the freshness test `is_expired`.
- **The wire records.** `SyncProject`, `SyncTask`, `SyncSection`,
  `SyncLabel`, `SyncFilter`, `SyncDue` and the read and write responses, as
  they are decoded from JSON with serde's defaults and legacy field aliases.
  This includes the conversions to the domain `Project` and `Task`.
- **The CLI handlers' decision logic.** Priority validation, title/content
  selection, comma-split-and-trim lists, the task filter, project-name lookup,
  the in-place section filter, reorder numbering, and the "at least one field"
  checks. `edit_task` issues its move before its update.
- **The text renderers.** The checklist and structured output for tasks,
  projects, filters, labels and sections. The structured output groups by key
  with a hash map, then sorts the groups.
- **The CLI error messages.** `get_error_message`.

## How it is modelled

- JSON is a small datatype (`Json.Json`). Decoding a typed record out of a
  JSON value is modelled field by field, following what serde's derive does:
  - a missing required field is an error;
  - a `#[serde(default)]` field takes its default;
  - an alias is accepted in place of the primary key;
  - having both the primary key and its alias is a "duplicate field" error.
- Parsing text into JSON stays abstract. A reply's body comes with what it
  parses to (`Json.JsonParse`).
- `Option<T>` fields are written with a `skip_serializing_if` attribute, and
  serialisation drops them when they are `None` (`Json.Members`).
- Random UUIDs come from a counter (`Commands.IdSupply`): the n-th id is the
  decimal text of n, so ids drawn from one supply are pairwise distinct. A
  ghost `stamps` sequence in `CommandBuilder` records which number each
  command drew.
- The builder is a class holding `commands: seq<Command>`, and each builder
  method appends to it. The client is a class with its token as a field. The
  cache manager is a class whose `file` field is the persisted slot.
- The network, the clock and file-system faults are parameters:
  - a `Reply` carries a status, a body and the parsed body;
  - `now` is the seconds since the epoch, or `None` when the clock is before
    the epoch;
  - every file operation takes an `Option<string>` fault.
- `get_sections` keeps the array and its in-place `retain` loop. The
  structured renderers keep the loop that fills the hash map. Everything else
  is functions over values.
- Integer casts are written out:
  - `order as i32` wraps modulo 2^32 (`Ints.WrapI32`);
  - `i as i64` and the `u64 as i64` casts in `is_expired` wrap modulo 2^64.
- `Models.Task`, `Models.Due`, `Models.TaskOutput` and `Models.Filter` do not
  appear in `src/models.rs`. Their fields come from the conversion at
  `src/sync/models.rs:156-175`, the literal at `src/cli/handlers.rs:31-43`,
  and the formatter's use of them.
- `now - cache.cached_at` in `is_expired` wraps as a release build does
  (`Ints.WrapI64`). A debug build panics on that overflow instead; the model
  does not capture the panic.
- The API helpers `add_project`, `add_task`, `update_task` and the other
  `add_*`/`update_*`/`delete_*` methods sit inside `mod tests` at
  `src/sync/client.rs:151-494`, yet the handlers call them. They are modelled
  as methods of the client class (`SyncClient.TodoistSyncClient`) that the
  handlers call.
- The error datatype `Errors.TodoError` is the union of the variants the code
  uses:
  - `Http` carries a status and a body, as `src/sync/client.rs:65` builds it,
    although `src/error.rs:21-22` declares a single `u16`;
  - `Io` is matched at `src/cli/error.rs:41` but not declared in
    `src/error.rs`.
- The model follows the code as written:
  - A record that carries both a field and its alias is rejected, as serde's
    derive rejects it. It is not read as "the primary key, else the alias".
    See `SyncModels.TaskDuplicateCompleted`.
  - `order as i32` is modelled as wrap-around, not as a precondition that the
    order fits.
  - When two projects share an id, the project-name lookup in
    `get_tasks`/`get_task` keeps the last one, as collecting pairs into a
    `HashMap` does.

## Model

| member | source | states |
|---|---|---|
| Ints.WrapI32 | src/sync/models.rs:170 | `x as i32`: the i32 congruent to x modulo 2^32, equal to x when x fits |
| Ints.WrapI64 | src/cli/handlers.rs:425 | `x as i64`: the i64 congruent to x modulo 2^64, equal to x when x fits |
| Text.Decimal | src/cli/handlers.rs:173-176 | `{}` of an unsigned integer: a non-empty run of digits with no leading zero |
| Text.DecimalInjective | src/cli/handlers.rs:173-176 | distinct numbers print differently |
| Text.JoinSplit | src/cli/handlers.rs:421 | joining the pieces of `split(c)` with c gives back the string |
| Text.SplitJoin | src/cli/handlers.rs:421 | splitting a join of separator-free pieces gives back the pieces |
| Text.Trim | src/cli/handlers.rs:185 | `trim`: the middle of s left after removing leading and trailing whitespace, with no whitespace at either end |
| Text.SplitTrim | src/cli/handlers.rs:183-185 | `split(c).map(trim)`: one trimmed piece per piece of the split, in order |
| Text.ToLower | src/cli/handlers.rs:53 | lower-casing keeps the length and maps each character |
| Text.LeTotal | src/formatter.rs:69 | the `str` order compares any two strings |
| Text.LeAntisymmetric | src/formatter.rs:69 | two strings ordered both ways are equal |
| Text.LeTransitive | src/formatter.rs:69 | the `str` order is transitive |
| Text.SortedKeys | src/formatter.rs:68-69 | the keys of a map in strictly ascending `str` order, each exactly once |
| Text.SortedUnique | src/formatter.rs:68-69 | any strictly ascending listing of a key set is that sorted order, so sorting distinct keys has one outcome |
| Json.AsString | src/sync/models.rs:42-43 | a `String` field decodes exactly from a JSON string, to its text |
| Json.AsBool | src/sync/models.rs:46-55 | a `bool` field decodes exactly from a JSON boolean |
| Json.AsI64 | src/sync/models.rs:50-51 | an `i64` field decodes exactly from a JSON number in the i64 range |
| Json.AsU8 | src/sync/models.rs:73-74 | a `u8` field decodes exactly from a JSON number in 0..255 |
| Json.DecodeAll | src/sync/models.rs:17-26 | a `Vec` decodes iff every element does, element by element |
| Json.AsSeq | src/sync/models.rs:17-26 | a decoded `Vec` comes from an array of the same length |
| Json.AsStringMap | src/sync/models.rs:35-36 | a `HashMap<String, String>` comes from an object with the same keys whose values are those strings |
| Json.AsValueMap | src/sync/models.rs:33-34 | a `HashMap<String, Value>` is exactly the object's members |
| Json.Lookup | src/sync/models.rs:46-51 | a field with an alias: error iff both keys are present; absent iff neither is; otherwise the value under whichever key is present |
| Json.Required | src/sync/models.rs:42-43 | a field without `default`: the "missing field" error when absent, else the decoded value |
| Json.Defaulted | src/sync/models.rs:15-16 | a `#[serde(default)]` field with neither its key nor its alias present takes the default |
| Json.DefaultedPresent | src/sync/models.rs:15-16 | a defaulted field that is present decodes as its value |
| Json.DefaultedAlias | src/sync/models.rs:46-51 | a defaulted field given under its alias decodes as when given under its key |
| Json.Optional | src/sync/models.rs:66-67 | an absent or `null` `Option` field decodes as `None` |
| Json.Strings | src/sync/commands.rs:459-462 | a `Vec<String>` serialises to an array of those strings |
| Json.StringsRoundTrip | src/sync/models.rs:77-78 | decoding a serialised `Vec<String>` gives it back |
| Json.EncodeAll | src/sync/cache.rs:12-18 | a `Vec` serialises to an array of its serialised elements, in order |
| Json.EncodeAllRoundTrip | src/sync/cache.rs:12-18 | a serialised `Vec` decodes back when each element does |
| Json.Entry | src/sync/commands.rs:37-38 | a `skip_serializing_if = "Option::is_none"` field: present iff Some, with its value |
| Json.OptStr | src/sync/commands.rs:405-419 | an optional string argument is serialised iff Some, as that string |
| Json.OptBool | src/sync/commands.rs:467-473 | an optional boolean argument is serialised iff Some, as that boolean |
| Json.OptU8 | src/sync/commands.rs:405-419 | an optional priority is serialised iff Some, as that number |
| Json.OptStrings | src/sync/commands.rs:405-419 | optional labels are serialised iff Some, as that array |
| Json.SetMember | src/sync/commands.rs:118-120 | `args[key] = …` or its removal: sets or drops one key and keeps the others |
| Json.MembersAllNone | src/sync/commands.rs:405-419 | a record whose optional fields are all None serialises to no members |
| Json.MembersSnoc | src/sync/commands.rs:405-419 | serialising one more field adds it iff it is Some |
| Json.MembersOnly | src/sync/commands.rs:405-419 | a key no field has is never serialised |
| Json.MembersSpec | src/sync/commands.rs:405-419 | with distinct keys, each field is a member iff it is Some, with its value |
| Json.MembersReplace | src/sync/commands.rs:434-437 | replacing one field's value changes only that member |
| Json.SetMemberPastEntry | src/sync/commands.rs:422-437 | setting an optional member commutes with a leading required member |
| Json.Display | src/sync/client.rs:133-136 | `{}` of a `Value`, as the failed-command message prints it: non-empty, and its first character is `"`, `[` or `{` exactly for a string, an array or an object |
| SyncModels.DecodeDue | src/sync/models.rs:132-140 | a due date decodes only from an object |
| SyncModels.DecodeProject | src/sync/models.rs:40-60 | a decoded project's `id` and `name` are the record's strings under those keys; with neither key nor alias present, `color`, `created_at` and `updated_at` are empty, the flags false and `sort_order` 0 |
| SyncModels.DecodeTask | src/sync/models.rs:63-93 | a decoded task's `id` and `content` are the record's strings under those keys; an absent `project_id`, `section_id`, `description` or `due` is None, absent `labels` empty, absent `priority`, `order` and `indentation` 0, absent flags false and absent timestamps empty, aliases counted |
| SyncModels.DecodeTaskHead | src/sync/models.rs:64-76 | the first seven task fields: their `id` and `content` come from those keys; absent `project_id`, `section_id`, `description` and `due` are None and absent `priority` is 0 |
| SyncModels.DecodeTaskTail | src/sync/models.rs:77-92 | the remaining task fields: absent `labels` is empty, absent `order` (or `child_order`) and `indentation` 0, absent `is_completed` (or `checked`), `is_archived` and `is_deleted` false, absent `created_at` (or `added_at`) and `updated_at` empty |
| SyncModels.DecodeSection | src/sync/models.rs:96-111 | a decoded section's `project_id` is the record's string under that key; absent `is_archived` and `is_deleted` are false and absent `archived_at` and `is_collapsed` are None |
| SyncModels.DecodeLabel | src/sync/models.rs:114-121 | a decoded label's `color` is the record's string under that key; an absent `is_favorite` is false |
| SyncModels.DecodeFilter | src/sync/models.rs:124-129 | a filter decodes iff `id`, `name` and `query` are all strings |
| SyncModels.DecodeReadResponse | src/sync/models.rs:12-27 | a read response's token is the body's `sync_token` string |
| SyncModels.DecodeWriteResponse | src/sync/models.rs:30-37 | a write response's token is the body's `sync_token` string |
| SyncModels.ToProject | src/sync/models.rs:144-154 | `Project::from`: copies id, name and color, `is_shared` from `shared`, `is_favorite` from `favorite` |
| SyncModels.ToDue | src/sync/models.rs:163-167 | the due mapping copies date and datetime and wraps `is_recurring` in Some |
| SyncModels.ToTask | src/sync/models.rs:156-175 | `Task::from`: copies the listed fields, maps the due date iff present, and makes `order` the i32 wrap of `order`, equal to it when it fits |
| SyncModels.DueRoundTrip | src/sync/models.rs:131-140 | a serialised due date decodes back to itself |
| SyncModels.EncodeDue | src/sync/models.rs:131-140 | the derived `Serialize` writes exactly one member per field, under its own name; `DueRoundTrip` decodes it back |
| SyncModels.EncodeProject | src/sync/models.rs:40-60 | the derived `Serialize` writes exactly the ten primary keys and no alias; `ProjectRoundTrip` decodes it back |
| SyncModels.EncodeTask | src/sync/models.rs:63-93 | the derived `Serialize` writes an object; its members are stated by `TaskEncodingAliases`, `TaskEncodingHead`, `TaskEncodingBody` and `TaskEncodingTail`, and `TaskRoundTrip` decodes it back |
| SyncModels.EncodeSection | src/sync/models.rs:96-111 | the derived `Serialize` writes exactly one member per field; `SectionRoundTrip` decodes it back |
| SyncModels.EncodeLabel | src/sync/models.rs:114-121 | the derived `Serialize` writes exactly `id`, `name`, `color` and `is_favorite`; `LabelRoundTrip` decodes it back |
| SyncModels.EncodeFilter | src/sync/models.rs:124-129 | the derived `Serialize` writes exactly `id`, `name` and `query`; `FilterRoundTrip` decodes it back |
| SyncModels.ProjectEncodingAliases | src/sync/models.rs:46-57 | serialisation writes primary keys only, no alias |
| SyncModels.ProjectEncodingValues | src/sync/models.rs:40-60 | serialisation writes each project field under its own key |
| SyncModels.ProjectRoundTrip | src/sync/models.rs:40-60 | a serialised project decodes back to itself |
| SyncModels.TaskEncodingAliases | src/sync/models.rs:79-90 | serialisation writes primary keys only, no alias |
| SyncModels.TaskEncodingHead | src/sync/models.rs:64-70 | id, project_id, section_id and content are written under their keys |
| SyncModels.TaskEncodingBody | src/sync/models.rs:71-76 | description, priority and due are written under their keys |
| SyncModels.TaskEncodingTail | src/sync/models.rs:77-92 | labels, order, indentation, flags and timestamps are written under their keys |
| SyncModels.TaskRoundTrip | src/sync/models.rs:63-93 | a serialised task decodes back to itself |
| SyncModels.DecodeTaskFields | src/sync/models.rs:63-93 | a record holding every task field under its primary key, with no alias, decodes to that task |
| SyncModels.DecodeTaskHeadFields | src/sync/models.rs:64-76 | the first seven fields decode to their values |
| SyncModels.DecodeTaskTailFields | src/sync/models.rs:77-92 | the remaining fields decode to their values |
| SyncModels.TaskLegacyKeys | src/sync/models.rs:79-90 | a task given `checked`, `child_order` and `added_at` decodes as one given `is_completed`, `order` and `created_at` |
| SyncModels.TaskHeadLegacy | src/sync/models.rs:64-76 | the aliased keys do not affect the first seven fields |
| SyncModels.TaskTailLegacy | src/sync/models.rs:79-90 | the aliased keys give the same remaining fields as the primary keys |
| SyncModels.TaskDuplicateCompleted | src/sync/models.rs:83-84 | a task carrying both `is_completed` and `checked` is rejected |
| SyncModels.ProjectLegacyKeys | src/sync/models.rs:46-57 | a project given `is_shared`, `is_favorite`, `child_order` and `added_at` decodes as one given the primary keys |
| SyncModels.ReadResponseDefaults | src/sync/models.rs:13-27 | a read response with only `sync_token` has `full_sync` false and every resource list empty |
| SyncModels.WriteResponseDefaults | src/sync/models.rs:31-37 | a write response with only `sync_token` has empty `sync_status` and `temp_id_mapping` |
| SyncModels.DueDefaults | src/sync/models.rs:133-140 | a due date with only `date` is not recurring and has no datetime or timezone |
| SyncModels.ProjectDefaults | src/sync/models.rs:40-60 | a project with only `id` and `name` decodes with empty color and timestamps, false flags and sort order 0 |
| SyncModels.TaskDefaults | src/sync/models.rs:63-93 | a task with only `id` and `content` decodes with no project, section, description or due date, no labels, zero priority, order and indentation, false flags and empty timestamps |
| SyncModels.SectionDefaults | src/sync/models.rs:96-111 | a section with only its required fields is neither archived nor deleted and has no `archived_at` or `is_collapsed` |
| SyncModels.LabelDefaults | src/sync/models.rs:114-121 | a label without `is_favorite` is not a favourite |
| SyncModels.SectionEncodingValues | src/sync/models.rs:97-111 | serialisation writes each section field under its own key |
| SyncModels.SectionRoundTrip | src/sync/models.rs:97-111 | a serialised section decodes back to itself |
| SyncModels.LabelRoundTrip | src/sync/models.rs:115-121 | a serialised label decodes back to itself |
| SyncModels.FilterRoundTrip | src/sync/models.rs:125-129 | a serialised filter decodes back to itself |
| Commands.IdOf | src/sync/commands.rs:44-51 | a generated id is never empty |
| Commands.IdOfInjective | src/sync/commands.rs:44-51 | ids drawn at different points of the supply differ |
| Commands.IdSupply.constructor | src/sync/commands.rs:44-51 | the supply starts at 0 |
| Commands.IdSupply.Fresh | src/sync/commands.rs:44-51 | a fresh id differs from every id drawn before and advances the supply by one |
| Commands.DecodeCommand | src/sync/commands.rs:32-40 | a decoded command's `type` and `args` are the record's |
| Commands.EncodeCommand | src/sync/commands.rs:31-40 | `type`, `uuid` and `args` hold the command's values, and `temp_id` is present iff the command has one, with its value; `CommandRoundTrip` decodes it back |
| Commands.CommandKeysDistinct | src/sync/commands.rs:32-40 | the serialised keys `type`, `uuid`, `temp_id` and `args` are distinct |
| Commands.CommandRoundTrip | src/sync/commands.rs:32-40 | a serialised command decodes back to itself |
| Commands.CommandDefaults | src/sync/commands.rs:35-38 | a command without `uuid` gets a generated non-empty one, and one without `temp_id` gets None |
| Commands.ItemAddArgs.Fields | src/sync/commands.rs:405-419 | `item_add` arguments have seven distinct keys |
| Commands.ItemAddArgs.WithDescription | src/sync/commands.rs:434-437 | sets only `description`; the member is present iff Some |
| Commands.ItemAddArgs.WithProjectId | src/sync/commands.rs:439-442 | sets only `project_id` |
| Commands.ItemAddArgs.WithSectionId | src/sync/commands.rs:444-447 | sets only `section_id` |
| Commands.ItemAddArgs.WithDueString | src/sync/commands.rs:449-452 | sets only `due_string` |
| Commands.ItemAddArgs.WithPriority | src/sync/commands.rs:454-457 | sets only `priority` |
| Commands.ItemAddArgs.WithLabels | src/sync/commands.rs:459-462 | sets only `labels` |
| Commands.NewItemAddArgs | src/sync/commands.rs:422-432 | `new`: only `content` is serialised |
| Commands.ItemAddArgsJson | src/sync/commands.rs:405-419 | each field is a member iff Some, with its value |
| Commands.ProjectAddArgs.Fields | src/sync/commands.rs:467-473 | `project_add` arguments have three distinct keys |
| Commands.ProjectAddArgs.WithColor | src/sync/commands.rs:484-487 | sets only `color` |
| Commands.ProjectAddArgs.WithFavorite | src/sync/commands.rs:489-492 | sets only `favorite` |
| Commands.NewProjectAddArgs | src/sync/commands.rs:476-482 | `new`: only `name` is serialised |
| Commands.ProjectAddArgsJson | src/sync/commands.rs:467-473 | each field is a member iff Some, with its value |
| Commands.SectionAddArgs.Fields | src/sync/commands.rs:497-500 | `section_add` arguments have two distinct keys |
| Commands.NewSectionAddArgs | src/sync/commands.rs:503-505 | `new`: name and project id, both serialised |
| Commands.SectionAddArgsJson | src/sync/commands.rs:497-500 | both fields are members with their values |
| Commands.ItemUpdateArgs.Fields | src/sync/commands.rs:510-526 | `item_update` arguments have eight distinct keys |
| Commands.ItemUpdateArgs.WithContent | src/sync/commands.rs:542-545 | sets only `content` |
| Commands.ItemUpdateArgs.WithDescription | src/sync/commands.rs:547-550 | sets only `description` |
| Commands.ItemUpdateArgs.WithPriority | src/sync/commands.rs:552-555 | sets only `priority` |
| Commands.ItemUpdateArgs.WithDueString | src/sync/commands.rs:557-560 | sets only `due_string` |
| Commands.ItemUpdateArgs.WithDueDatetime | src/sync/commands.rs:562-565 | sets only `due_datetime` |
| Commands.ItemUpdateArgs.WithDueLang | src/sync/commands.rs:567-570 | sets only `due_lang` |
| Commands.ItemUpdateArgs.WithLabels | src/sync/commands.rs:572-575 | sets only `labels` |
| Commands.NewItemUpdateArgs | src/sync/commands.rs:529-540 | `new`: only `id` is serialised |
| Commands.ItemUpdateArgsJson | src/sync/commands.rs:510-526 | each field is a member iff Some, with its value |
| Commands.LabelAddArgs.Fields | src/sync/commands.rs:580-584 | `label_add` arguments have two distinct keys |
| Commands.LabelAddArgs.WithColor | src/sync/commands.rs:591-594 | sets only `color` |
| Commands.NewLabelAddArgs | src/sync/commands.rs:587-589 | `new`: only `name` is serialised |
| Commands.LabelAddArgsJson | src/sync/commands.rs:580-584 | each field is a member iff Some, with its value |
| Commands.FilterOrderArgs.Fields | src/sync/commands.rs:599-602 | filter order arguments have two distinct keys |
| Commands.NewFilterOrderArgs | src/sync/commands.rs:605-607 | `new`: id and order, both serialised |
| Commands.FilterOrderArgsJson | src/sync/commands.rs:599-602 | both fields are members with their values |
| Commands.FilterAddArgs.Fields | src/sync/commands.rs:612-617 | `filter_add` arguments have three distinct keys |
| Commands.FilterAddArgs.WithColor | src/sync/commands.rs:628-631 | sets only `color` |
| Commands.NewFilterAddArgs | src/sync/commands.rs:620-626 | `new`: name and query serialised, no color |
| Commands.FilterAddArgsJson | src/sync/commands.rs:612-617 | each field is a member iff Some, with its value |
| Commands.SectionOrderArgs.Fields | src/sync/commands.rs:636-639 | section order arguments have two distinct keys |
| Commands.NewSectionOrderArgs | src/sync/commands.rs:642-644 | `new`: id and order, both serialised |
| Commands.SectionOrderArgsJson | src/sync/commands.rs:636-639 | both fields are members with their values |
| Commands.MoveFields | src/sync/commands.rs:113-128 | `item_move` arguments: three distinct keys |
| Commands.ProjectUpdateFields | src/sync/commands.rs:144-168 | `project_update` arguments: four distinct keys |
| Commands.LabelUpdateFields | src/sync/commands.rs:301-316 | `label_update` arguments: three distinct keys |
| Commands.FilterUpdateFields | src/sync/commands.rs:354-378 | `filter_update` arguments: four distinct keys |
| Commands.MoveArgsJson | src/sync/commands.rs:113-128 | `args` has `id` and `project_id`, and `section_id` iff given |
| Commands.ProjectUpdateArgsJson | src/sync/commands.rs:144-168 | `args` has `id`, and `name`, `color` and `favorite` each iff given |
| Commands.LabelUpdateArgsJson | src/sync/commands.rs:301-316 | `args` has `id`, and `name` and `color` each iff given |
| Commands.FilterUpdateArgsJson | src/sync/commands.rs:354-378 | `args` has `id`, and `name`, `query` and `color` each iff given |
| Commands.IssuedSnoc | src/sync/commands.rs:67-76 | appending a command stamped with the next supply number keeps every uuid and temp id distinct |
| Commands.StampedDistinct | src/sync/commands.rs:44-51 | commands stamped from one supply have non-empty, pairwise distinct uuids and temp ids, and no uuid equals a temp id |
| Commands.CommandBuilder.constructor | src/sync/commands.rs:60-64 | `new` starts with no commands |
| Commands.CommandBuilder.Default | src/sync/commands.rs:397-401 | `default` starts with no commands |
| Commands.CommandBuilder.Push | src/sync/commands.rs:67-76 | appends one command with a fresh uuid, plus a fresh temp id exactly for creating kinds |
| Commands.CommandBuilder.ItemClose | src/sync/commands.rs:80-88 | appends one `item_close` command with `{id}` and no temp id |
| Commands.CommandBuilder.ItemReopen | src/sync/commands.rs:91-99 | appends one `item_reopen` command |
| Commands.CommandBuilder.ItemDelete | src/sync/commands.rs:102-110 | appends one `item_delete` command |
| Commands.CommandBuilder.ItemMove | src/sync/commands.rs:113-128 | appends one `item_move` command, with `section_id` iff given |
| Commands.CommandBuilder.ProjectAdd | src/sync/commands.rs:131-141 | appends one `project_add` command with a temp id |
| Commands.CommandBuilder.ProjectUpdate | src/sync/commands.rs:144-168 | appends one `project_update` command with only the given fields |
| Commands.CommandBuilder.ProjectDelete | src/sync/commands.rs:171-179 | appends one `project_delete` command |
| Commands.CommandBuilder.SectionAdd | src/sync/commands.rs:182-192 | appends one `section_add` command with a temp id |
| Commands.CommandBuilder.SectionUpdate | src/sync/commands.rs:195-203 | appends one `section_update` command with id and name |
| Commands.CommandBuilder.SectionDelete | src/sync/commands.rs:206-214 | appends one `section_delete` command |
| Commands.CommandBuilder.SectionArchive | src/sync/commands.rs:217-225 | appends one `section_archive` command |
| Commands.CommandBuilder.SectionUnarchive | src/sync/commands.rs:228-236 | appends one `section_unarchive` command |
| Commands.CommandBuilder.SectionMove | src/sync/commands.rs:239-250 | appends one `section_move` command with id and project id |
| Commands.CommandBuilder.SectionReorder | src/sync/commands.rs:253-261 | appends one `section_reorder` command carrying the sections |
| Commands.CommandBuilder.ItemComplete | src/sync/commands.rs:264-272 | appends one `item_complete` command |
| Commands.CommandBuilder.ItemUpdate | src/sync/commands.rs:275-285 | appends one `item_update` command with the serialised arguments |
| Commands.CommandBuilder.ItemAdd | src/sync/commands.rs:67-77 | appends one `item_add` command with a temp id and the serialised arguments |
| Commands.CommandBuilder.LabelAdd | src/sync/commands.rs:288-298 | appends one `label_add` command with a temp id |
| Commands.CommandBuilder.LabelUpdate | src/sync/commands.rs:301-316 | appends one `label_update` command with only the given fields |
| Commands.CommandBuilder.LabelDelete | src/sync/commands.rs:319-327 | appends one `label_delete` command |
| Commands.CommandBuilder.FilterUpdateOrders | src/sync/commands.rs:330-338 | appends one `filter_update_orders` command carrying the orders |
| Commands.CommandBuilder.FilterAdd | src/sync/commands.rs:341-351 | appends one `filter_add` command with a temp id |
| Commands.CommandBuilder.FilterUpdate | src/sync/commands.rs:354-378 | appends one `filter_update` command with only the given fields |
| Commands.CommandBuilder.FilterDelete | src/sync/commands.rs:381-389 | appends one `filter_delete` command |
| Commands.CommandBuilder.Build | src/sync/commands.rs:392-394 | returns the commands in call order, with non-empty distinct uuids, distinct temp ids, and a temp id exactly on creating kinds |
| SyncClient.Classify | src/sync/client.rs:61-69 | non-2xx gives `Http(status, body)`; Ok iff 2xx and the body parses and decodes; otherwise an `Api` error with the given prefix |
| SyncClient.ReadReply | src/sync/client.rs:61-69 | `sync`'s reply: non-2xx gives `Http(status, body)`; on success the token is the body's `sync_token`; a bad 2xx body is an `Api` error starting "Failed to parse sync response: " |
| SyncClient.WriteReply | src/sync/client.rs:105-113 | `execute_commands`' reply: non-2xx gives `Http(status, body)`; on success the token is the body's `sync_token`; a bad 2xx body is an `Api` error starting "Failed to parse command response: " |
| SyncClient.Batch | src/sync/client.rs:89-92 | the `commands` field is an array with one entry per command |
| SyncClient.CheckSyncStatus | src/sync/client.rs:128-139 | Ok iff every status is `"ok"`; otherwise an `Api` error naming a failing uuid and its status |
| SyncClient.TakeMappedId | src/sync/client.rs:273-277 | some value of `temp_id_mapping` when it is non-empty, else the "Failed to get … ID" error |
| SyncClient.FilterOrders | src/sync/client.rs:435-442 | maps each `(id, order)` pair to `FilterOrderArgs`, one to one, in order |
| SyncClient.HelperArgs | src/sync/client.rs:257-310 | each helper's argument record is `new` followed by its setters |
| SyncClient.TodoistSyncClient.constructor | src/sync/client.rs:24-31 | `new` keeps the API token, targets the Sync endpoint and holds no sync token |
| SyncClient.TodoistSyncClient.AuthHeader | src/sync/client.rs:34-36 | `"Bearer "` followed by the token |
| SyncClient.TodoistSyncClient.GetSyncToken | src/sync/client.rs:108-110 | the held sync token |
| SyncClient.TodoistSyncClient.SetSyncToken | src/sync/client.rs:113-115 | afterwards the held token is the given one |
| SyncClient.TodoistSyncClient.ReadToken | src/sync/client.rs:48 | a read sends the held token, or `"*"` when none is held |
| SyncClient.TodoistSyncClient.Sync | src/sync/client.rs:47-70 | sends the read token and the resource types, classifies the reply, and changes no state |
| SyncClient.TodoistSyncClient.ExecuteCommands | src/sync/client.rs:81-105 | sends the batch, classifies the reply, and changes no state |
| SyncClient.TodoistSyncClient.ExecuteCommandsWithStatus | src/sync/client.rs:118-125 | the reply's error, or the response once every status is ok, or a failing command's error |
| SyncClient.TodoistSyncClient.Execute | src/sync/client.rs:142-148 | submits exactly the builder's commands, with the status check |
| SyncClient.TodoistSyncClient.AddProject | src/sync/client.rs:257-278 | one `project_add` command; the error, or a mapped id |
| SyncClient.TodoistSyncClient.AddTask | src/sync/client.rs:281-310 | one `item_add` command; the error, or a mapped id |
| SyncClient.TodoistSyncClient.UpdateTask | src/sync/client.rs:313-334 | one `item_update` command; the error, or Ok |
| SyncClient.TodoistSyncClient.CompleteTask | src/sync/client.rs:337-343 | one `item_complete` command |
| SyncClient.TodoistSyncClient.DeleteTask | src/sync/client.rs:346-352 | one `item_delete` command |
| SyncClient.TodoistSyncClient.AddSection | src/sync/client.rs:355-373 | one `section_add` command; the error, or a mapped id |
| SyncClient.TodoistSyncClient.UpdateSection | src/sync/client.rs:376-382 | one `section_update` command |
| SyncClient.TodoistSyncClient.DeleteSection | src/sync/client.rs:385-391 | one `section_delete` command |
| SyncClient.TodoistSyncClient.AddLabel | src/sync/client.rs:394-409 | one `label_add` command; the error, or a mapped id |
| SyncClient.TodoistSyncClient.UpdateLabel | src/sync/client.rs:412-423 | one `label_update` command with only the given fields |
| SyncClient.TodoistSyncClient.DeleteLabel | src/sync/client.rs:426-432 | one `label_delete` command |
| SyncClient.TodoistSyncClient.UpdateFilterOrder | src/sync/client.rs:435-446 | one `filter_update_orders` command with the pairs mapped in order |
| SyncClient.TodoistSyncClient.AddFilter | src/sync/client.rs:449-469 | one `filter_add` command; the error, or a mapped id |
| SyncClient.TodoistSyncClient.UpdateFilter | src/sync/client.rs:472-484 | one `filter_update` command with only the given fields |
| SyncClient.TodoistSyncClient.DeleteFilter | src/sync/client.rs:487-493 | one `filter_delete` command |
| SyncCache.DecodeCacheData | src/sync/cache.rs:11-18 | cached data decodes only from an object holding all five lists |
| SyncCache.EncodeCacheData | src/sync/cache.rs:11-18 | the derived `Serialize` writes exactly the five lists; `CacheDataRoundTrip` decodes it back |
| SyncCache.EncodeCache | src/sync/cache.rs:4-9 | the derived `Serialize` writes exactly `sync_token`, `cached_at` and `data`; `CacheRoundTrip` decodes it back |
| SyncCache.DecodeCache | src/sync/cache.rs:4-9 | a decoded cache's token and timestamp are the record's |
| SyncCache.ReadCache | src/sync/cache.rs:38-42 | Ok iff the text parses and decodes, to that cache; otherwise `InvalidInput("Failed to parse cache: …")` |
| SyncCache.CacheDataSequences | src/sync/cache.rs:12-18 | each serialised list decodes back to itself |
| SyncCache.CacheDataEncodingValues | src/sync/cache.rs:12-18 | each list is written under its own key |
| SyncCache.DecodeCacheDataFields | src/sync/cache.rs:12-18 | an object whose five lists decode gives that data |
| SyncCache.CacheDataRoundTrip | src/sync/cache.rs:12-18 | serialised cache data decodes back to itself |
| SyncCache.CacheRoundTrip | src/sync/cache.rs:4-9 | a serialised cache decodes back to itself |
| SyncCache.SavedCacheReads | src/sync/cache.rs:45-54 | reading what `save` wrote gives back the same cache |
| SyncCache.IsExpired | src/sync/cache.rs:56-62 | with the clock, the threshold and the age in the i64 range, expired iff the age exceeds the threshold; a clock before the epoch counts as time 0 |
| SyncCache.ExpiredMeaning | src/sync/cache.rs:56-62 | with values in range, expired iff `now - cached_at > threshold` |
| SyncCache.ExpiryBoundary | src/sync/cache.rs:61 | an age equal to the threshold is fresh; one more second is expired |
| SyncCache.ExpiryExamples | src/sync/cache.rs:105-127 | under threshold 300, a cache stamped 1 is expired and one stamped now is fresh |
| SyncCache.WrappedThresholdExpires | src/sync/cache.rs:61 | a threshold of 2^64-1 wraps to -1 as i64, so even a cache stamped now is expired |
| SyncCache.CacheManager.constructor | src/sync/cache.rs:25-32 | a manager over the current file |
| SyncCache.CacheManager.Exists | src/sync/cache.rs:73-75 | true iff the file is present |
| SyncCache.CacheManager.Load | src/sync/cache.rs:34-43 | no file gives Ok(None); a read fault gives `Io`; otherwise the parsed cache or the parse error |
| SyncCache.CacheManager.Save | src/sync/cache.rs:45-54 | without a fault the file holds the serialised cache; with a fault, taken to happen before the file is opened, an `Io` error and the file unchanged |
| SyncCache.CacheManager.Clear | src/sync/cache.rs:65-70 | Ok with no file afterwards, also when there was none; a remove fault gives `Io` and changes nothing |
| SyncCache.SaveLoadClear | src/sync/cache.rs:140-159 | after save then clear, `exists` is false and `load` gives Ok(None) |
| CliError.ErrorMessage | src/cli/error.rs:8-44 | `get_error_message`: HTTP and configuration-not-found messages start "Error: "; every other variant ends with its own message, shown in full after a prefix |
| CliError.KnownStatusMessages | src/cli/error.rs:13-18 | 401, 403, 404 and 429 give messages naming Unauthorized, Forbidden, Not Found and Too Many Requests with their codes |
| CliError.OtherStatusMessage | src/cli/error.rs:19 | any other status n gives `"Error: Todoist API returned HTTP n."` |
| CliError.PrefixedMessage | src/cli/error.rs:22-24 | Api, Config, InvalidInput, Serialize and Io give their prefix followed by the message |
| CliError.ConfigNotFoundMessage | src/cli/error.rs:10-12 | the message contains "Configuration not found" |
| CliError.HttpMessageInjective | src/cli/error.rs:13-21 | different statuses give different messages |
| CliError.LeadingCharacters | src/cli/error.rs:8-45 | only the Http and ConfigNotFound messages start with "Error: "; the eighth character tells those two apart |
| CliError.MessageIdentifiesError | src/cli/error.rs:8-45 | two errors with the same message agree on everything the message shows, that is, all but the HTTP body |
| Handlers.ValidatePriority | src/cli/handlers.rs:438-440 | valid iff 1 <= p <= 4 |
| Handlers.CheckPriority | src/cli/handlers.rs:171-181 | Ok iff absent or valid, with the same value; otherwise the "Invalid priority" error |
| Handlers.PriorityErrorInjective | src/cli/handlers.rs:173-176 | the error message names the rejected priority |
| Handlers.TaskText | src/cli/handlers.rs:162-164 | the title if present, else the content |
| Handlers.Pieces | src/cli/handlers.rs:183-185 | the `','`-separated pieces, each trimmed, in order |
| Handlers.Labels | src/cli/handlers.rs:214-216 | labels given iff a labels string was given, as its pieces |
| Handlers.PiecesOfJoin | src/cli/handlers.rs:421 | comma-joined trimmed ids split back into the same ids |
| Handlers.PiecesTrimmed | src/cli/handlers.rs:185 | no piece starts or ends with whitespace |
| Handlers.AddTaskRequest | src/cli/handlers.rs:162-196 | no title and no content is an error; then an invalid priority is an error; otherwise the request carries the chosen text, no section and the label pieces |
| Handlers.AddTask | src/cli/handlers.rs:152-201 | a rejected request sends nothing; otherwise one `item_add` batch with the request, giving the client's id or error |
| Handlers.MoveTask | src/cli/handlers.rs:229-232 | one `item_move` batch; Ok iff the server accepts it |
| Handlers.EditTask | src/cli/handlers.rs:203-248 | an invalid priority sends nothing; a project id sends the move first, and a failed move stops there with the move's own error; the last batch is the `item_update` |
| Handlers.EditProject | src/cli/handlers.rs:294-313 | no name is an error with nothing sent; otherwise one `project_update` with only the name |
| Handlers.EditSection | src/cli/handlers.rs:315-328 | no name is an error; otherwise one `section_update` |
| Handlers.EditLabel | src/cli/handlers.rs:330-346 | neither name nor color is an error; otherwise one `label_update` with the given fields |
| Handlers.EditFilter | src/cli/handlers.rs:348-370 | no name, query or color is an error; otherwise one `filter_update` with the given fields |
| Handlers.ProjectNames | src/cli/handlers.rs:16-19 | every project's id is in the table, which has no more entries than there are projects; `ProjectNamesSpec` gives the converse and the name |
| Handlers.ProjectNamesSpec | src/cli/handlers.rs:16-19 | an id is mapped iff some project has it, and it maps to the name of the last such project |
| Handlers.ProjectNameOf | src/cli/handlers.rs:25-29 | a name iff the task has a project id that is mapped, and then that name |
| Handlers.ToOutput | src/cli/handlers.rs:22-45 | copies the task's fields, resolves the project name, and keeps only the due date |
| Handlers.Matches | src/cli/handlers.rs:52-59 | the filter closure; the empty filter matches every task |
| Handlers.Keep | src/cli/handlers.rs:48-59 | every kept task matches the filter and comes from the input |
| Handlers.KeepComplete | src/cli/handlers.rs:52-58 | every matching task is kept |
| Handlers.KeepAll | src/cli/handlers.rs:52-58 | when every task matches, all are kept in order |
| Handlers.KeepAppend | src/cli/handlers.rs:50-59 | filtering distributes over concatenation, so input order is kept |
| Handlers.GetTasks | src/cli/handlers.rs:6-66 | with no filter, one output per task in order; with one, exactly the matching outputs, in input order (`Keep`, with `KeepComplete` and `KeepAppend`) |
| Handlers.MatchesIgnoresCase | src/cli/handlers.rs:53-56 | the filter is matched case-insensitively |
| Handlers.EmptyFilterKeepsAll | src/cli/handlers.rs:48-59 | an empty filter keeps every task |
| Handlers.FindTask | src/cli/handlers.rs:124 | the first task with the id, or none exists |
| Handlers.GetTask | src/cli/handlers.rs:111-150 | `InvalidInput("Task … not found")` iff no task has the id; otherwise the first such task's output |
| Handlers.InProject | src/cli/handlers.rs:85-87 | no more sections than the input |
| Handlers.InProjectSpec | src/cli/handlers.rs:85-87 | a section is kept iff it is in the input with that project id |
| Handlers.Retain | src/cli/handlers.rs:86 | `retain` in place: the array's prefix becomes the matching sections, in order |
| Handlers.GetSections | src/cli/handlers.rs:77-91 | no project id keeps the array; otherwise it is retained to that project |
| Handlers.SectionOrders | src/cli/handlers.rs:420-426 | the i-th trimmed id gets order i |
| Formatter.Lines | src/formatter.rs:54-55 | joined lines: empty for no items, the one line for one item |
| Formatter.LinesSplit | src/formatter.rs:54-55 | newline-free lines joined by `"\n"` split back into those lines |
| Formatter.TaskHead | src/formatter.rs:47-51 | `"- [x] "` iff completed, `"- [ ] "` iff not, then the content |
| Formatter.ChecklistLine | src/formatter.rs:46-53 | a checklist line starts with the task head |
| Formatter.Checklist | src/formatter.rs:43-56 | the checklist of no tasks is empty |
| Formatter.ChecklistShowsProject | src/formatter.rs:48-52 | for the same head, two lines are equal iff the project names are, so `" (project)"` shows exactly when a name is present |
| Formatter.ChecklistLines | src/formatter.rs:43-56 | the checklist splits on `"\n"` into exactly one line per task, in order |
| Formatter.StructuredLine | src/formatter.rs:76-86 | the line is the bare task head iff priority <= 1 |
| Formatter.StructuredShowsPriority | src/formatter.rs:78-85 | for the same head, two lines are equal iff both priorities are <= 1 or they are equal |
| Formatter.GroupKey | src/formatter.rs:64 | the project name, or `"Inbox"` when there is none |
| Formatter.KeysOf | src/formatter.rs:63-66 | every record's key is a group key |
| Formatter.Having | src/formatter.rs:65 | a group holds no more records than the input |
| Formatter.HavingSpec | src/formatter.rs:63-66 | a record is in key k's group iff it is in the input with key k |
| Formatter.HavingAppend | src/formatter.rs:63-66 | grouping distributes over concatenation, keeping input order within a group |
| Formatter.HavingOutside | src/formatter.rs:63-66 | a key no record has has an empty group |
| Formatter.Grouping | src/formatter.rs:61-66 | the map's keys are exactly the records' keys |
| Formatter.GroupingSnoc | src/formatter.rs:65 | one more record appends it to its key's group |
| Formatter.GroupBy | src/formatter.rs:61-66 | the loop builds exactly the grouping of the records |
| Formatter.SortedGroups | src/formatter.rs:68-69 | every group exactly once, with its records, in strictly ascending key order |
| Formatter.GroupsOrdered | src/formatter.rs:68-69 | group keys are strictly ascending and distinct |
| Formatter.GroupsContents | src/formatter.rs:61-69 | each group is non-empty and holds exactly the records with its key |
| Formatter.GroupsCover | src/formatter.rs:61-69 | every record is in its own key's group and in no other |
| Formatter.Blocks | src/formatter.rs:71-92 | no groups render as empty |
| Formatter.Structured | src/formatter.rs:58-93 | `"## key\n\n"` and the group's lines for each sorted group, joined by `"\n\n"` |
| Formatter.InboxGroup | src/formatter.rs:64 | a task without a project name is in the `"Inbox"` group |
| Formatter.ProjectLine | src/formatter.rs:112-119 | a project line starts with `"- [ ] "` |
| Formatter.ProjectsChecklist | src/formatter.rs:109-123 | no projects render as empty |
| Formatter.ProjectLineShowsFlags | src/formatter.rs:113-118 | for the same name, two lines are equal iff favourite and shared agree |
| Formatter.ProjectMeta | src/formatter.rs:129-140 | the meta line is empty iff the project is neither favourite nor shared |
| Formatter.ProjectBlock | src/formatter.rs:142-145 | a block starts with the name heading, color and id lines |
| Formatter.ProjectsStructured | src/formatter.rs:125-149 | no projects render as empty |
| Formatter.ProjectBlockShowsFlags | src/formatter.rs:129-145 | for the same name, color and id, two blocks are equal iff favourite and shared agree |
| Formatter.FilterLine | src/formatter.rs:168 | a filter line starts with `"- [ ] name ("` |
| Formatter.FiltersChecklist | src/formatter.rs:165-171 | no filters render as empty |
| Formatter.FilterLineShowsQuery | src/formatter.rs:168 | for the same name, two lines are equal iff the queries are |
| Formatter.FilterBlock | src/formatter.rs:177-180 | a block starts with the name heading |
| Formatter.FiltersStructured | src/formatter.rs:173-184 | no filters render as empty |
| Formatter.AsFilter | src/formatter.rs:251-270 | a sync filter seen as a filter keeps id, name and query |
| Formatter.SyncFiltersChecklist | src/formatter.rs:251-257 | no filters render as empty |
| Formatter.SyncFiltersStructured | src/formatter.rs:259-270 | no filters render as empty |
| Formatter.SyncFiltersAsFilters | src/formatter.rs:251-270 | sync filters render exactly as the corresponding filters do |
| Formatter.LabelLine | src/formatter.rs:289-292 | a label line starts with `"- [ ] "` |
| Formatter.LabelsChecklist | src/formatter.rs:286-295 | no labels render as empty |
| Formatter.LabelBlock | src/formatter.rs:300-309 | a block starts with the name heading, color and id lines |
| Formatter.LabelsStructured | src/formatter.rs:297-313 | no labels render as empty |
| Formatter.LabelShowsFavorite | src/formatter.rs:290-308 | for the same name, color and id, lines and blocks are equal iff the favourite flags are |
| Formatter.SectionLine | src/formatter.rs:203 | a section line starts with `"- [ ] name (Project: "` |
| Formatter.SectionsChecklist | src/formatter.rs:200-206 | no sections render as empty |
| Formatter.SectionLineShowsProject | src/formatter.rs:203 | for the same name, two lines are equal iff the project ids are |
| Formatter.SectionKey | src/formatter.rs:215 | sections are grouped by project id |
| Formatter.SectionItem | src/formatter.rs:228 | an item starts with `"- [ ] name (ID: "` |
| Formatter.SectionsStructured | src/formatter.rs:208-235 | `"## Project: id\n\n"` and the group's items for each sorted group, joined by `"\n\n"` |

## Left out

- HTTP transport is not modelled: reqwest, form encoding, sending the
  `Authorization` header, and `async`. A reply's status, body and parsed body
  are inputs.
- JSON text is not modelled: parsing it and printing it, and so the
  formatter's JSON branches, which pretty-print
  (`src/formatter.rs:39-41, 105-107, 161-163, 196-198, 247-249, 282-284`).
- `SyncCache.CacheManager.Save`: the serialised text is abstract. So the
  "Failed to serialize cache" path (`src/sync/cache.rs:49-51`), which cannot
  fail for these records, is not modelled. `create_dir_all` and `write` both
  map to the one write fault, and a fault is modelled as happening before
  the file is opened. A write that fails part-way through, after `fs::write`
  has truncated the file, leaving it partly written, is not modelled.
- `Formattable` dispatch and `OutputFormat` are not modelled; each renderer
  is modelled directly. `println!` output and `handle_error`'s exit are not
  modelled either.
- Randomness: UUID v4 generation becomes a counter. So "distinct" is proved
  for ids drawn from one supply, not for random ids.
- Hash-map iteration order is not modelled:
  - `SyncClient.CheckSyncStatus` reports some failing command, not a
    particular one;
  - `SyncClient.TakeMappedId` returns some mapped id, not the one for the
    command's own temp id.
- `Formatter.SortedGroups`: the in-place `sort_by` over a vector of
  `(key, group)` pairs is modelled by its result, the groups in sorted key
  order. The keys are distinct, so that result is unique (`Text.SortedUnique`).
  The swaps are not modelled.
- `Text.ToLower`: `to_lowercase` is modelled on ASCII letters only; other
  characters are kept. Unicode case mapping is out of reach.
- `SyncModels.DecodeProject`, `SyncModels.DecodeTask`: their own contracts
  state the required fields and the default of each absent field. A present
  field's value is stated only by the round-trip, field and legacy-key lemmas
  beside them, not for arbitrary records.
- `SyncModels.EncodeTask`: its own contract says only that it writes an
  object. Its fifteen members are stated by the `TaskEncoding*` lemmas beside
  it, because stating them on the function makes the proof too costly.
- JSON numbers are integers (`Json.JNumber`): floating-point values cannot be
  represented, so a float where an integer is expected is not modelled.
- serde's error texts are simplified. The model reports the first bad field
  in declaration order; serde reports them in input order and appends
  " at line L column C". These texts reach `Api` messages through
  `SyncClient.Classify`.
- The `Request(reqwest::Error)` error and the `is_connect` hint
  (`src/cli/error.rs:25-31`) are not modelled; they depend on a foreign type.
- The client's read helpers `get_projects`, `get_tasks`, `get_sections`,
  `get_labels` and `get_filters` (`src/sync/client.rs:225-254`) are not
  modelled. The handlers take the lists they would return as parameters. The
  conversions those helpers apply are `SyncModels.ToProject` and
  `SyncModels.ToTask`.
- `client.reorder_sections`, which `reorder_sections` calls, is not defined in
  the client. `Handlers.SectionOrders` models the `(id, order)` pairs the
  handler builds, and nothing is sent.
- Several handlers are not modelled because each is one client call followed
  by `println!`, already covered by the client's modelled helpers:
  - `get_projects`, `get_filters`, `get_labels`;
  - `add_section`, `add_project`, `add_label`, `add_filter`;
  - `complete_task`, `reopen_task`, `delete_task`, `delete_project`,
    `delete_section`;
  - the stand-alone `move_task` (`src/cli/handlers.rs:404-418`), whose builder
    step is `Commands.CommandBuilder.ItemMove`.
- `generate_completions` is not modelled.
- The `url` field of `Project` (`src/models.rs:10`) is left out, because the
  conversion at `src/sync/models.rs:144-154` does not set it.
- Some files are not part of this model: `src/api.rs`, `src/main.rs`,
  `src/cli/mod.rs`, `src/config.rs`, `src/lib.rs`, `src/sync/mod.rs` and
  `tests/integration_test.rs`. They hold the deprecated REST client, argument
  parsing and dispatch, configuration I/O, and re-exports. The `limit` and
  `fields` options are not modelled; no handler implements them.
- The builder's by-value `mut self` chaining is modelled as a method on a
  shared builder object. Because each chain uses one fresh builder, the
  result is the same.
