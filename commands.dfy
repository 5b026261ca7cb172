/**
  Write commands of the Todoist Sync API: the command envelope, the argument
  records with their setters, and the builder that collects commands in call
  order. Command uuids and temporary ids come from a supply of generated
  identifiers that stands for random UUID generation.
*/
module Commands {
  import opened Wrappers
  import opened Ints
  import opened Text
  import opened Json

  // ---------------------------------------------------------------- identifiers

  /** The identifier the supply hands out as its `n`-th one. */
  function IdOf(n: nat): (s: string)
    ensures |s| > 0
  {
    Decimal(n)
  }

  lemma IdOfInjective(a: nat, b: nat)
    ensures IdOf(a) == IdOf(b) <==> a == b
  {
    DecimalInjective(a, b);
  }

  /** A source of identifiers that never repeats (UUID v4 generation). */
  class IdSupply {
    var next: nat

    constructor()
      ensures next == 0
    {
      next := 0;
    }

    /** A new identifier, different from every one handed out before. */
    method Fresh() returns (id: string)
      modifies this
      ensures id == IdOf(old(next)) && next == old(next) + 1
      ensures forall k :: 0 <= k < old(next) ==> IdOf(k) != id
    {
      id := IdOf(next);
      forall k | 0 <= k < next
        ensures IdOf(k) != id
      {
        IdOfInjective(k, next);
      }
      next := next + 1;
    }
  }

  // ---------------------------------------------------------------- the envelope

  /** One command: its operation name (`type`), its uuid, its temporary id and its arguments. */
  datatype Command = Command(kind: string, uuid: string, tempId: Option<string>, args: Json)

  /** The operations that create a resource and so carry a temporary id. */
  predicate Creates(kind: string)
  {
    kind == "item_add" || kind == "project_add" || kind == "section_add"
    || kind == "label_add" || kind == "filter_add"
  }

  /** The derived `Serialize`: `type`, `uuid`, `args`, and `temp_id` only when present. */
  function EncodeCommand(c: Command): (r: Json)
    ensures r.JObject? && "type" in r.fields && r.fields["type"] == JString(c.kind)
    ensures "uuid" in r.fields && r.fields["uuid"] == JString(c.uuid)
    ensures "args" in r.fields && r.fields["args"] == c.args
    ensures "temp_id" in r.fields <==> c.tempId.Some?
    ensures c.tempId.Some? ==> r.fields["temp_id"] == JString(c.tempId.value)
  {
    var fs := [("type", Some(JString(c.kind))), ("uuid", Some(JString(c.uuid))),
      ("temp_id", OptStr(c.tempId)), ("args", Some(c.args))];
    CommandKeysDistinct(c);
    MembersSpec(fs, 0);
    MembersSpec(fs, 1);
    MembersSpec(fs, 2);
    MembersSpec(fs, 3);
    JObject(Members(fs))
  }

  /**
    The derived `Deserialize`: `type` and `args` are required, a missing `uuid`
    is filled by the generator (here the identifier `generated`), a missing or null
    `temp_id` is `None`.
  */
  function DecodeCommand(j: Json, generated: string): (r: Decoded<Command>)
    ensures r.Decoded? ==> j.JObject? && "type" in j.fields && j.fields["type"] == JString(r.value.kind)
    ensures r.Decoded? ==> "args" in j.fields && j.fields["args"] == r.value.args
  {
    if !j.JObject? then Malformed(InvalidType(j, "struct Command"))
    else
      var m := j.fields;
      var kind :- Required(m, "type", AsString);
      var uuid :- Defaulted(m, "uuid", None, generated, AsString);
      var tempId :- Optional(m, "temp_id", AsString);
      var args :- Required(m, "args", (v: Json) => Decoded(v));
      Decoded(Command(kind, uuid, tempId, args))
  }

  lemma CommandKeysDistinct(c: Command)
    ensures DistinctKeys([("type", Some(JString(c.kind))), ("uuid", Some(JString(c.uuid))),
      ("temp_id", OptStr(c.tempId)), ("args", Some(c.args))])
  {
  }

  /** A command survives encoding and decoding, whatever identifier the generator would supply. */
  lemma CommandRoundTrip(c: Command, generated: string)
    ensures DecodeCommand(EncodeCommand(c), generated) == Decoded(c)
  {
    var fs := [("type", Some(JString(c.kind))), ("uuid", Some(JString(c.uuid))),
      ("temp_id", OptStr(c.tempId)), ("args", Some(c.args))];
    CommandKeysDistinct(c);
    MembersSpec(fs, 0);
    MembersSpec(fs, 1);
    MembersSpec(fs, 2);
    MembersSpec(fs, 3);
  }

  /** A command given without `uuid` and `temp_id` gets a generated, non-empty uuid and no temporary id. */
  lemma CommandDefaults(m: map<string, Json>, n: nat)
    requires "uuid" !in m && "temp_id" !in m
    requires "type" in m && m["type"].JString? && "args" in m
    ensures DecodeCommand(JObject(m), IdOf(n)) == Decoded(Command(m["type"].s, IdOf(n), None, m["args"]))
    ensures |DecodeCommand(JObject(m), IdOf(n)).value.uuid| > 0
  {
  }

  // ---------------------------------------------------------------- argument records

  /** Arguments of `item_add`: the content and the optional attributes of the new task. */
  datatype ItemAddArgs = ItemAddArgs(
    content: string,
    description: Option<string>,
    projectId: Option<string>,
    sectionId: Option<string>,
    dueString: Option<string>,
    priority: Option<u8>,
    labels: Option<seq<string>>)
  {
    /** The members the derived `Serialize` writes, in declaration order. */
    function Fields(): (fs: seq<(string, Option<Json>)>)
      ensures DistinctKeys(fs) && |fs| == 7
    {
      [("content", Some(JString(content))), ("description", OptStr(description)),
       ("project_id", OptStr(projectId)), ("section_id", OptStr(sectionId)),
       ("due_string", OptStr(dueString)), ("priority", OptU8(priority)),
       ("labels", OptStrings(labels))]
    }

    /** The serialized arguments. */
    function ToJson(): Json
    {
      JObject(Members(Fields()))
    }

    /** `.description(v)`: replaces `description` and, in the serialized form, only that member. */
    function WithDescription(v: Option<string>): (r: ItemAddArgs)
      ensures r == this.(description := v)
      ensures r.ToJson().fields == SetMember(ToJson().fields, "description", OptStr(v))
    {
      var r := this.(description := v);
      assert r.Fields() == Fields()[1 := ("description", OptStr(v))];
      MembersReplace(Fields(), 1, OptStr(v));
      r
    }

    /** `.project_id(v)`: replaces `project_id` and, in the serialized form, only that member. */
    function WithProjectId(v: Option<string>): (r: ItemAddArgs)
      ensures r == this.(projectId := v)
      ensures r.ToJson().fields == SetMember(ToJson().fields, "project_id", OptStr(v))
    {
      var r := this.(projectId := v);
      assert r.Fields() == Fields()[2 := ("project_id", OptStr(v))];
      MembersReplace(Fields(), 2, OptStr(v));
      r
    }

    /** `.section_id(v)`: replaces `section_id` and, in the serialized form, only that member. */
    function WithSectionId(v: Option<string>): (r: ItemAddArgs)
      ensures r == this.(sectionId := v)
      ensures r.ToJson().fields == SetMember(ToJson().fields, "section_id", OptStr(v))
    {
      var r := this.(sectionId := v);
      assert r.Fields() == Fields()[3 := ("section_id", OptStr(v))];
      MembersReplace(Fields(), 3, OptStr(v));
      r
    }

    /** `.due_string(v)`: replaces `due_string` and, in the serialized form, only that member. */
    function WithDueString(v: Option<string>): (r: ItemAddArgs)
      ensures r == this.(dueString := v)
      ensures r.ToJson().fields == SetMember(ToJson().fields, "due_string", OptStr(v))
    {
      var r := this.(dueString := v);
      assert r.Fields() == Fields()[4 := ("due_string", OptStr(v))];
      MembersReplace(Fields(), 4, OptStr(v));
      r
    }

    /** `.priority(v)`: replaces `priority` and, in the serialized form, only that member. */
    function WithPriority(v: Option<u8>): (r: ItemAddArgs)
      ensures r == this.(priority := v)
      ensures r.ToJson().fields == SetMember(ToJson().fields, "priority", OptU8(v))
    {
      var r := this.(priority := v);
      assert r.Fields() == Fields()[5 := ("priority", OptU8(v))];
      MembersReplace(Fields(), 5, OptU8(v));
      r
    }

    /** `.labels(v)`: replaces `labels` and, in the serialized form, only that member. */
    function WithLabels(v: Option<seq<string>>): (r: ItemAddArgs)
      ensures r == this.(labels := v)
      ensures r.ToJson().fields == SetMember(ToJson().fields, "labels", OptStrings(v))
    {
      var r := this.(labels := v);
      assert r.Fields() == Fields()[6 := ("labels", OptStrings(v))];
      MembersReplace(Fields(), 6, OptStrings(v));
      r
    }
  }

  /** `ItemAddArgs::new`: only the content is set. */
  function NewItemAddArgs(content: string): (r: ItemAddArgs)
    ensures r.content == content
    ensures r.ToJson().fields == map["content" := JString(content)]
  {
    var r := ItemAddArgs(content, None, None, None, None, None, None);
    MembersAllNone(r.Fields()[1..]);
    r
  }

  /** Serialized `item_add` arguments hold `content`, and every other member exactly when it is set. */
  lemma ItemAddArgsJson(a: ItemAddArgs)
    ensures var m := a.ToJson().fields;
      && Carries(m, "content", Some(JString(a.content)))
      && Carries(m, "description", OptStr(a.description))
      && Carries(m, "project_id", OptStr(a.projectId))
      && Carries(m, "section_id", OptStr(a.sectionId))
      && Carries(m, "due_string", OptStr(a.dueString))
      && Carries(m, "priority", OptU8(a.priority))
      && Carries(m, "labels", OptStrings(a.labels))
  {
    var fs := a.Fields();
    MembersSpec(fs, 0);
    MembersSpec(fs, 1);
    MembersSpec(fs, 2);
    MembersSpec(fs, 3);
    MembersSpec(fs, 4);
    MembersSpec(fs, 5);
    MembersSpec(fs, 6);
  }

  /** Arguments of `project_add`. */
  datatype ProjectAddArgs = ProjectAddArgs(
    name: string,
    color: Option<string>,
    favorite: Option<bool>)
  {
    /** The members the derived `Serialize` writes, in declaration order. */
    function Fields(): (fs: seq<(string, Option<Json>)>)
      ensures DistinctKeys(fs) && |fs| == 3
    {
      [("name", Some(JString(name))), ("color", OptStr(color)), ("favorite", OptBool(favorite))]
    }

    /** The serialized arguments. */
    function ToJson(): Json
    {
      JObject(Members(Fields()))
    }

    /** `.color(v)`: replaces `color` and, in the serialized form, only that member. */
    function WithColor(v: Option<string>): (r: ProjectAddArgs)
      ensures r == this.(color := v)
      ensures r.ToJson().fields == SetMember(ToJson().fields, "color", OptStr(v))
    {
      var r := this.(color := v);
      assert r.Fields() == Fields()[1 := ("color", OptStr(v))];
      MembersReplace(Fields(), 1, OptStr(v));
      r
    }

    /** `.favorite(v)`: replaces `favorite` and, in the serialized form, only that member. */
    function WithFavorite(v: Option<bool>): (r: ProjectAddArgs)
      ensures r == this.(favorite := v)
      ensures r.ToJson().fields == SetMember(ToJson().fields, "favorite", OptBool(v))
    {
      var r := this.(favorite := v);
      assert r.Fields() == Fields()[2 := ("favorite", OptBool(v))];
      MembersReplace(Fields(), 2, OptBool(v));
      r
    }
  }

  /** `ProjectAddArgs::new`: only the name is set. */
  function NewProjectAddArgs(name: string): (r: ProjectAddArgs)
    ensures r.name == name
    ensures r.ToJson().fields == map["name" := JString(name)]
  {
    var r := ProjectAddArgs(name, None, None);
    MembersAllNone(r.Fields()[1..]);
    r
  }

  /** Serialized `project_add` arguments hold `name`, and `color` and `favorite` exactly when set. */
  lemma ProjectAddArgsJson(a: ProjectAddArgs)
    ensures var m := a.ToJson().fields;
      && Carries(m, "name", Some(JString(a.name)))
      && Carries(m, "color", OptStr(a.color))
      && Carries(m, "favorite", OptBool(a.favorite))
  {
    var fs := a.Fields();
    MembersSpec(fs, 0);
    MembersSpec(fs, 1);
    MembersSpec(fs, 2);
  }

  /** Arguments of `section_add`. */
  datatype SectionAddArgs = SectionAddArgs(
    name: string,
    projectId: string)
  {
    /** The members the derived `Serialize` writes, in declaration order. */
    function Fields(): (fs: seq<(string, Option<Json>)>)
      ensures DistinctKeys(fs) && |fs| == 2
    {
      [("name", Some(JString(name))), ("project_id", Some(JString(projectId)))]
    }

    /** The serialized arguments. */
    function ToJson(): Json
    {
      JObject(Members(Fields()))
    }
  }

  /** `SectionAddArgs::new`: the name and the project. */
  function NewSectionAddArgs(name: string, projectId: string): (r: SectionAddArgs)
    ensures r.name == name
    ensures r.projectId == projectId
    ensures r.ToJson().fields == map["name" := JString(name)]["project_id" := JString(projectId)]
  {
    var r := SectionAddArgs(name, projectId);
    var fs := r.Fields();
    MembersAllNone(fs[2..]);
    assert fs[1..][1..] == fs[2..];
    assert Members(fs[1..]) == Entry(fs[1].0, fs[1].1) + Members(fs[2..]);
    r
  }

  /** Serialized `section_add` arguments hold the name and the project. */
  lemma SectionAddArgsJson(a: SectionAddArgs)
    ensures var m := a.ToJson().fields;
      && Carries(m, "name", Some(JString(a.name)))
      && Carries(m, "project_id", Some(JString(a.projectId)))
  {
    var fs := a.Fields();
    MembersSpec(fs, 0);
    MembersSpec(fs, 1);
  }

  /** Arguments of `item_update`: the task and the attributes to change. */
  datatype ItemUpdateArgs = ItemUpdateArgs(
    id: string,
    content: Option<string>,
    description: Option<string>,
    priority: Option<u8>,
    dueString: Option<string>,
    dueDatetime: Option<string>,
    dueLang: Option<string>,
    labels: Option<seq<string>>)
  {
    /** The members the derived `Serialize` writes, in declaration order. */
    function Fields(): (fs: seq<(string, Option<Json>)>)
      ensures DistinctKeys(fs) && |fs| == 8
    {
      [("id", Some(JString(id))), ("content", OptStr(content)),
       ("description", OptStr(description)), ("priority", OptU8(priority)),
       ("due_string", OptStr(dueString)), ("due_datetime", OptStr(dueDatetime)),
       ("due_lang", OptStr(dueLang)), ("labels", OptStrings(labels))]
    }

    /** The serialized arguments. */
    function ToJson(): Json
    {
      JObject(Members(Fields()))
    }

    /** `.content(v)`: replaces `content` and, in the serialized form, only that member. */
    function WithContent(v: Option<string>): (r: ItemUpdateArgs)
      ensures r == this.(content := v)
      ensures r.ToJson().fields == SetMember(ToJson().fields, "content", OptStr(v))
    {
      var r := this.(content := v);
      assert r.Fields() == Fields()[1 := ("content", OptStr(v))];
      MembersReplace(Fields(), 1, OptStr(v));
      r
    }

    /** `.description(v)`: replaces `description` and, in the serialized form, only that member. */
    function WithDescription(v: Option<string>): (r: ItemUpdateArgs)
      ensures r == this.(description := v)
      ensures r.ToJson().fields == SetMember(ToJson().fields, "description", OptStr(v))
    {
      var r := this.(description := v);
      assert r.Fields() == Fields()[2 := ("description", OptStr(v))];
      MembersReplace(Fields(), 2, OptStr(v));
      r
    }

    /** `.priority(v)`: replaces `priority` and, in the serialized form, only that member. */
    function WithPriority(v: Option<u8>): (r: ItemUpdateArgs)
      ensures r == this.(priority := v)
      ensures r.ToJson().fields == SetMember(ToJson().fields, "priority", OptU8(v))
    {
      var r := this.(priority := v);
      assert r.Fields() == Fields()[3 := ("priority", OptU8(v))];
      MembersReplace(Fields(), 3, OptU8(v));
      r
    }

    /** `.due_string(v)`: replaces `due_string` and, in the serialized form, only that member. */
    function WithDueString(v: Option<string>): (r: ItemUpdateArgs)
      ensures r == this.(dueString := v)
      ensures r.ToJson().fields == SetMember(ToJson().fields, "due_string", OptStr(v))
    {
      var r := this.(dueString := v);
      assert r.Fields() == Fields()[4 := ("due_string", OptStr(v))];
      MembersReplace(Fields(), 4, OptStr(v));
      r
    }

    /** `.due_datetime(v)`: replaces `due_datetime` and, in the serialized form, only that member. */
    function WithDueDatetime(v: Option<string>): (r: ItemUpdateArgs)
      ensures r == this.(dueDatetime := v)
      ensures r.ToJson().fields == SetMember(ToJson().fields, "due_datetime", OptStr(v))
    {
      var r := this.(dueDatetime := v);
      assert r.Fields() == Fields()[5 := ("due_datetime", OptStr(v))];
      MembersReplace(Fields(), 5, OptStr(v));
      r
    }

    /** `.due_lang(v)`: replaces `due_lang` and, in the serialized form, only that member. */
    function WithDueLang(v: Option<string>): (r: ItemUpdateArgs)
      ensures r == this.(dueLang := v)
      ensures r.ToJson().fields == SetMember(ToJson().fields, "due_lang", OptStr(v))
    {
      var r := this.(dueLang := v);
      assert r.Fields() == Fields()[6 := ("due_lang", OptStr(v))];
      MembersReplace(Fields(), 6, OptStr(v));
      r
    }

    /** `.labels(v)`: replaces `labels` and, in the serialized form, only that member. */
    function WithLabels(v: Option<seq<string>>): (r: ItemUpdateArgs)
      ensures r == this.(labels := v)
      ensures r.ToJson().fields == SetMember(ToJson().fields, "labels", OptStrings(v))
    {
      var r := this.(labels := v);
      assert r.Fields() == Fields()[7 := ("labels", OptStrings(v))];
      MembersReplace(Fields(), 7, OptStrings(v));
      r
    }
  }

  /** `ItemUpdateArgs::new`: only the task id is set. */
  function NewItemUpdateArgs(id: string): (r: ItemUpdateArgs)
    ensures r.id == id
    ensures r.ToJson().fields == map["id" := JString(id)]
  {
    var r := ItemUpdateArgs(id, None, None, None, None, None, None, None);
    MembersAllNone(r.Fields()[1..]);
    r
  }

  /** Serialized `item_update` arguments hold `id`, and every attribute exactly when it is set. */
  lemma ItemUpdateArgsJson(a: ItemUpdateArgs)
    ensures var m := a.ToJson().fields;
      && Carries(m, "id", Some(JString(a.id)))
      && Carries(m, "content", OptStr(a.content))
      && Carries(m, "description", OptStr(a.description))
      && Carries(m, "priority", OptU8(a.priority))
      && Carries(m, "due_string", OptStr(a.dueString))
      && Carries(m, "due_datetime", OptStr(a.dueDatetime))
      && Carries(m, "due_lang", OptStr(a.dueLang))
      && Carries(m, "labels", OptStrings(a.labels))
  {
    var fs := a.Fields();
    MembersSpec(fs, 0);
    MembersSpec(fs, 1);
    MembersSpec(fs, 2);
    MembersSpec(fs, 3);
    MembersSpec(fs, 4);
    MembersSpec(fs, 5);
    MembersSpec(fs, 6);
    MembersSpec(fs, 7);
  }

  /** Arguments of `label_add`. */
  datatype LabelAddArgs = LabelAddArgs(
    name: string,
    color: Option<string>)
  {
    /** The members the derived `Serialize` writes, in declaration order. */
    function Fields(): (fs: seq<(string, Option<Json>)>)
      ensures DistinctKeys(fs) && |fs| == 2
    {
      [("name", Some(JString(name))), ("color", OptStr(color))]
    }

    /** The serialized arguments. */
    function ToJson(): Json
    {
      JObject(Members(Fields()))
    }

    /** `.color(v)`: replaces `color` and, in the serialized form, only that member. */
    function WithColor(v: Option<string>): (r: LabelAddArgs)
      ensures r == this.(color := v)
      ensures r.ToJson().fields == SetMember(ToJson().fields, "color", OptStr(v))
    {
      var r := this.(color := v);
      assert r.Fields() == Fields()[1 := ("color", OptStr(v))];
      MembersReplace(Fields(), 1, OptStr(v));
      r
    }
  }

  /** `LabelAddArgs::new`: only the name is set. */
  function NewLabelAddArgs(name: string): (r: LabelAddArgs)
    ensures r.name == name
    ensures r.ToJson().fields == map["name" := JString(name)]
  {
    var r := LabelAddArgs(name, None);
    MembersAllNone(r.Fields()[1..]);
    r
  }

  /** Serialized `label_add` arguments hold `name`, and `color` exactly when set. */
  lemma LabelAddArgsJson(a: LabelAddArgs)
    ensures var m := a.ToJson().fields;
      && Carries(m, "name", Some(JString(a.name)))
      && Carries(m, "color", OptStr(a.color))
  {
    var fs := a.Fields();
    MembersSpec(fs, 0);
    MembersSpec(fs, 1);
  }

  /** One entry of `filter_update_orders`. */
  datatype FilterOrderArgs = FilterOrderArgs(
    id: string,
    order: i64)
  {
    /** The members the derived `Serialize` writes, in declaration order. */
    function Fields(): (fs: seq<(string, Option<Json>)>)
      ensures DistinctKeys(fs) && |fs| == 2
    {
      [("id", Some(JString(id))), ("order", Some(JNumber(order)))]
    }

    /** The serialized arguments. */
    function ToJson(): Json
    {
      JObject(Members(Fields()))
    }
  }

  /** `FilterOrderArgs::new`: the filter and its position. */
  function NewFilterOrderArgs(id: string, order: i64): (r: FilterOrderArgs)
    ensures r.id == id
    ensures r.order == order
    ensures r.ToJson().fields == map["id" := JString(id)]["order" := JNumber(order)]
  {
    var r := FilterOrderArgs(id, order);
    var fs := r.Fields();
    MembersAllNone(fs[2..]);
    assert fs[1..][1..] == fs[2..];
    assert Members(fs[1..]) == Entry(fs[1].0, fs[1].1) + Members(fs[2..]);
    r
  }

  /** A serialized filter order holds the id and the order. */
  lemma FilterOrderArgsJson(a: FilterOrderArgs)
    ensures var m := a.ToJson().fields;
      && Carries(m, "id", Some(JString(a.id)))
      && Carries(m, "order", Some(JNumber(a.order)))
  {
    var fs := a.Fields();
    MembersSpec(fs, 0);
    MembersSpec(fs, 1);
  }

  /** Arguments of `filter_add`. */
  datatype FilterAddArgs = FilterAddArgs(
    name: string,
    query: string,
    color: Option<string>)
  {
    /** The members the derived `Serialize` writes, in declaration order. */
    function Fields(): (fs: seq<(string, Option<Json>)>)
      ensures DistinctKeys(fs) && |fs| == 3
    {
      [("name", Some(JString(name))), ("query", Some(JString(query))), ("color", OptStr(color))]
    }

    /** The serialized arguments. */
    function ToJson(): Json
    {
      JObject(Members(Fields()))
    }

    /** `.color(v)`: replaces `color` and, in the serialized form, only that member. */
    function WithColor(v: Option<string>): (r: FilterAddArgs)
      ensures r == this.(color := v)
      ensures r.ToJson().fields == SetMember(ToJson().fields, "color", OptStr(v))
    {
      var r := this.(color := v);
      assert r.Fields() == Fields()[2 := ("color", OptStr(v))];
      MembersReplace(Fields(), 2, OptStr(v));
      r
    }
  }

  /** `FilterAddArgs::new`: the name and the query. */
  function NewFilterAddArgs(name: string, query: string): (r: FilterAddArgs)
    ensures r.name == name
    ensures r.query == query
    ensures r.ToJson().fields == map["name" := JString(name)]["query" := JString(query)]
  {
    var r := FilterAddArgs(name, query, None);
    var fs := r.Fields();
    MembersAllNone(fs[2..]);
    assert fs[1..][1..] == fs[2..];
    assert Members(fs[1..]) == Entry(fs[1].0, fs[1].1) + Members(fs[2..]);
    r
  }

  /** Serialized `filter_add` arguments hold `name` and `query`, and `color` exactly when set. */
  lemma FilterAddArgsJson(a: FilterAddArgs)
    ensures var m := a.ToJson().fields;
      && Carries(m, "name", Some(JString(a.name)))
      && Carries(m, "query", Some(JString(a.query)))
      && Carries(m, "color", OptStr(a.color))
  {
    var fs := a.Fields();
    MembersSpec(fs, 0);
    MembersSpec(fs, 1);
    MembersSpec(fs, 2);
  }

  /** One entry of `section_reorder`. */
  datatype SectionOrderArgs = SectionOrderArgs(
    id: string,
    order: i64)
  {
    /** The members the derived `Serialize` writes, in declaration order. */
    function Fields(): (fs: seq<(string, Option<Json>)>)
      ensures DistinctKeys(fs) && |fs| == 2
    {
      [("id", Some(JString(id))), ("order", Some(JNumber(order)))]
    }

    /** The serialized arguments. */
    function ToJson(): Json
    {
      JObject(Members(Fields()))
    }
  }

  /** `SectionOrderArgs::new`: the section and its position. */
  function NewSectionOrderArgs(id: string, order: i64): (r: SectionOrderArgs)
    ensures r.id == id
    ensures r.order == order
    ensures r.ToJson().fields == map["id" := JString(id)]["order" := JNumber(order)]
  {
    var r := SectionOrderArgs(id, order);
    var fs := r.Fields();
    MembersAllNone(fs[2..]);
    assert fs[1..][1..] == fs[2..];
    assert Members(fs[1..]) == Entry(fs[1].0, fs[1].1) + Members(fs[2..]);
    r
  }

  /** A serialized section order holds the id and the order. */
  lemma SectionOrderArgsJson(a: SectionOrderArgs)
    ensures var m := a.ToJson().fields;
      && Carries(m, "id", Some(JString(a.id)))
      && Carries(m, "order", Some(JNumber(a.order)))
  {
    var fs := a.Fields();
    MembersSpec(fs, 0);
    MembersSpec(fs, 1);
  }

  // ---------------------------------------------------------------- arguments built in place

  /** `{"id": id}`, the arguments of the commands that name only their target. */
  function IdArgs(id: string): Json
  {
    JObject(map["id" := JString(id)])
  }

  /** The members of `item_move`: the task, its new project and, when given, its new section. */
  function MoveFields(id: string, projectId: string, sectionId: Option<string>): (fs: seq<(string, Option<Json>)>)
    ensures DistinctKeys(fs) && |fs| == 3
  {
    [("id", Some(JString(id))), ("project_id", Some(JString(projectId))), ("section_id", OptStr(sectionId))]
  }

  /** The members of `project_update`: the project and the attributes given. */
  function ProjectUpdateFields(id: string, name: Option<string>, color: Option<string>, favorite: Option<bool>):
    (fs: seq<(string, Option<Json>)>)
    ensures DistinctKeys(fs) && |fs| == 4
  {
    [("id", Some(JString(id))), ("name", OptStr(name)), ("color", OptStr(color)), ("favorite", OptBool(favorite))]
  }

  /** The members of `label_update`: the label and the attributes given. */
  function LabelUpdateFields(id: string, name: Option<string>, color: Option<string>): (fs: seq<(string, Option<Json>)>)
    ensures DistinctKeys(fs) && |fs| == 3
  {
    [("id", Some(JString(id))), ("name", OptStr(name)), ("color", OptStr(color))]
  }

  /** The members of `filter_update`: the filter and the attributes given. */
  function FilterUpdateFields(id: string, name: Option<string>, query: Option<string>, color: Option<string>):
    (fs: seq<(string, Option<Json>)>)
    ensures DistinctKeys(fs) && |fs| == 4
  {
    [("id", Some(JString(id))), ("name", OptStr(name)), ("query", OptStr(query)), ("color", OptStr(color))]
  }

  /** `item_move` arguments hold the task and the project, and `section_id` exactly when a section is given. */
  lemma MoveArgsJson(id: string, projectId: string, sectionId: Option<string>)
    ensures var m := Members(MoveFields(id, projectId, sectionId));
      && Carries(m, "id", Some(JString(id)))
      && Carries(m, "project_id", Some(JString(projectId)))
      && Carries(m, "section_id", OptStr(sectionId))
  {
    var fs := MoveFields(id, projectId, sectionId);
    MembersSpec(fs, 0);
    MembersSpec(fs, 1);
    MembersSpec(fs, 2);
  }

  /** `project_update` arguments hold the id, and each of `name`, `color`, `favorite` exactly when given. */
  lemma ProjectUpdateArgsJson(id: string, name: Option<string>, color: Option<string>, favorite: Option<bool>)
    ensures var m := Members(ProjectUpdateFields(id, name, color, favorite));
      && Carries(m, "id", Some(JString(id)))
      && Carries(m, "name", OptStr(name))
      && Carries(m, "color", OptStr(color))
      && Carries(m, "favorite", OptBool(favorite))
  {
    var fs := ProjectUpdateFields(id, name, color, favorite);
    MembersSpec(fs, 0);
    MembersSpec(fs, 1);
    MembersSpec(fs, 2);
    MembersSpec(fs, 3);
  }

  /** `label_update` arguments hold the id, and each of `name`, `color` exactly when given. */
  lemma LabelUpdateArgsJson(id: string, name: Option<string>, color: Option<string>)
    ensures var m := Members(LabelUpdateFields(id, name, color));
      && Carries(m, "id", Some(JString(id)))
      && Carries(m, "name", OptStr(name))
      && Carries(m, "color", OptStr(color))
  {
    var fs := LabelUpdateFields(id, name, color);
    MembersSpec(fs, 0);
    MembersSpec(fs, 1);
    MembersSpec(fs, 2);
  }

  /** `filter_update` arguments hold the id, and each of `name`, `query`, `color` exactly when given. */
  lemma FilterUpdateArgsJson(id: string, name: Option<string>, query: Option<string>, color: Option<string>)
    ensures var m := Members(FilterUpdateFields(id, name, query, color));
      && Carries(m, "id", Some(JString(id)))
      && Carries(m, "name", OptStr(name))
      && Carries(m, "query", OptStr(query))
      && Carries(m, "color", OptStr(color))
  {
    var fs := FilterUpdateFields(id, name, query, color);
    MembersSpec(fs, 0);
    MembersSpec(fs, 1);
    MembersSpec(fs, 2);
    MembersSpec(fs, 3);
  }

  /** `{"sections": [...]}` for `section_reorder`. */
  function SectionReorderArgs(sections: seq<SectionOrderArgs>): Json
  {
    JObject(map["sections" := JArray(seq(|sections|, i requires 0 <= i < |sections| => sections[i].ToJson()))])
  }

  /** `{"filters": [...]}` for `filter_update_orders`. */
  function FilterOrdersArgs(filters: seq<FilterOrderArgs>): Json
  {
    JObject(map["filters" := JArray(seq(|filters|, i requires 0 <= i < |filters| => filters[i].ToJson()))])
  }

  // ---------------------------------------------------------------- the builder

  /** How many identifiers a command used: its uuid, and its temporary id if it has one. */
  function Width(c: Command): nat
  {
    if c.tempId.Some? then 2 else 1
  }

  /**
    `cs` were given identifiers in order from the supply: command `i` got
    `IdOf(stamps[i])` as uuid and `IdOf(stamps[i] + 1)` as temporary id, and no
    later command reused a number.
  */
  ghost predicate Stamped(cs: seq<Command>, stamps: seq<nat>)
  {
    && |stamps| == |cs|
    && (forall i :: 0 <= i < |cs| ==> cs[i].uuid == IdOf(stamps[i]))
    && (forall i :: 0 <= i < |cs| && cs[i].tempId.Some? ==> cs[i].tempId.value == IdOf(stamps[i] + 1))
    && (forall i, j :: 0 <= i < j < |cs| ==> stamps[i] + Width(cs[i]) <= stamps[j])
  }

  /**
    The history a builder holds after drawing up to (not including) `next` from
    its supply: stamped, within the numbers drawn, and with a temporary id
    exactly on the creating commands.
  */
  ghost predicate Issued(cs: seq<Command>, stamps: seq<nat>, next: nat)
  {
    && Stamped(cs, stamps)
    && (forall i :: 0 <= i < |cs| ==> stamps[i] + Width(cs[i]) <= next)
    && (forall i :: 0 <= i < |cs| ==> (cs[i].tempId.Some? <==> Creates(cs[i].kind)))
  }

  /** Appending a command drawn at `next` keeps the history issued, with the supply `Width(c)` further on. */
  lemma IssuedSnoc(cs: seq<Command>, stamps: seq<nat>, next: nat, c: Command)
    requires Issued(cs, stamps, next)
    requires c.uuid == IdOf(next) && (c.tempId.Some? ==> c.tempId.value == IdOf(next + 1))
    requires c.tempId.Some? <==> Creates(c.kind)
    ensures Issued(cs + [c], stamps + [next], next + Width(c))
  {
    var cs', st' := cs + [c], stamps + [next];
    forall i | 0 <= i < |cs'|
      ensures cs'[i].uuid == IdOf(st'[i])
      ensures cs'[i].tempId.Some? ==> cs'[i].tempId.value == IdOf(st'[i] + 1)
      ensures st'[i] + Width(cs'[i]) <= next + Width(c)
      ensures cs'[i].tempId.Some? <==> Creates(cs'[i].kind)
    {
      if i < |cs| {
        assert cs'[i] == cs[i] && st'[i] == stamps[i];
      }
    }
    forall i, j | 0 <= i < j < |cs'|
      ensures st'[i] + Width(cs'[i]) <= st'[j]
    {
      assert cs'[i] == cs[i] && st'[i] == stamps[i];
    }
  }

  /** Identifiers handed out in order never repeat: uuids and temporary ids are pairwise distinct, and non-empty. */
  lemma StampedDistinct(cs: seq<Command>, stamps: seq<nat>)
    requires Stamped(cs, stamps)
    ensures forall i :: 0 <= i < |cs| ==> cs[i].uuid != ""
    ensures forall i, j :: 0 <= i < j < |cs| ==> cs[i].uuid != cs[j].uuid
    ensures forall i, j :: 0 <= i < j < |cs| && cs[i].tempId.Some? && cs[j].tempId.Some? ==> cs[i].tempId != cs[j].tempId
    ensures forall i, j :: 0 <= i < |cs| && 0 <= j < |cs| && cs[j].tempId.Some? ==> cs[i].uuid != cs[j].tempId.value
  {
    forall i, j | 0 <= i < j < |cs|
      ensures cs[i].uuid != cs[j].uuid
    {
      IdOfInjective(stamps[i], stamps[j]);
    }
    forall i, j | 0 <= i < j < |cs| && cs[i].tempId.Some? && cs[j].tempId.Some?
      ensures cs[i].tempId != cs[j].tempId
    {
      IdOfInjective(stamps[i] + 1, stamps[j] + 1);
    }
    forall i, j | 0 <= i < |cs| && 0 <= j < |cs| && cs[j].tempId.Some?
      ensures cs[i].uuid != cs[j].tempId.value
    {
      IdOfInjective(stamps[i], stamps[j] + 1);
    }
  }

  /** Collects commands in call order; `build` hands them out. */
  class CommandBuilder {
    var commands: seq<Command>
    const ids: IdSupply
    /** The supply number each command's uuid was drawn with. */
    ghost var stamps: seq<nat>

    ghost predicate Valid()
      reads this, ids
    {
      Issued(commands, stamps, ids.next)
    }

    /** `CommandBuilder::new`: no commands yet. */
    constructor(supply: IdSupply)
      ensures Valid() && commands == [] && ids == supply
    {
      commands := [];
      ids := supply;
      stamps := [];
    }

    /** `CommandBuilder::default`, the same as `new`. */
    constructor Default(supply: IdSupply)
      ensures Valid() && commands == [] && ids == supply
    {
      commands := [];
      ids := supply;
      stamps := [];
    }

    /** Appends one command of `kind` with a new uuid and, for creations, a new temporary id. */
    method Push(kind: string, withTempId: bool, args: Json)
      requires Valid() && withTempId == Creates(kind)
      modifies this, ids
      ensures Valid()
      ensures commands == old(commands) + [Command(kind, IdOf(old(ids.next)),
        if withTempId then Some(IdOf(old(ids.next) + 1)) else None, args)]
      ensures ids.next == old(ids.next) + (if withTempId then 2 else 1)
    {
      var n := ids.next;
      var uuid := ids.Fresh();
      var tempId: Option<string> := None;
      if withTempId {
        var t := ids.Fresh();
        tempId := Some(t);
      }
      IssuedSnoc(commands, stamps, n, Command(kind, uuid, tempId, args));
      commands := commands + [Command(kind, uuid, tempId, args)];
      stamps := stamps + [n];
    }

    /** `item_close`: one command naming its target. */
    method ItemClose(id: string)
      requires Valid()
      modifies this, ids
      ensures Valid() && ids.next == old(ids.next) + 1
      ensures commands == old(commands) + [Command("item_close", IdOf(old(ids.next)), None, IdArgs(id))]
    {
      Push("item_close", false, IdArgs(id));
    }

    /** `item_reopen`: one command naming its target. */
    method ItemReopen(id: string)
      requires Valid()
      modifies this, ids
      ensures Valid() && ids.next == old(ids.next) + 1
      ensures commands == old(commands) + [Command("item_reopen", IdOf(old(ids.next)), None, IdArgs(id))]
    {
      Push("item_reopen", false, IdArgs(id));
    }

    /** `item_delete`: one command naming its target. */
    method ItemDelete(id: string)
      requires Valid()
      modifies this, ids
      ensures Valid() && ids.next == old(ids.next) + 1
      ensures commands == old(commands) + [Command("item_delete", IdOf(old(ids.next)), None, IdArgs(id))]
    {
      Push("item_delete", false, IdArgs(id));
    }

    /** `project_delete`: one command naming its target. */
    method ProjectDelete(id: string)
      requires Valid()
      modifies this, ids
      ensures Valid() && ids.next == old(ids.next) + 1
      ensures commands == old(commands) + [Command("project_delete", IdOf(old(ids.next)), None, IdArgs(id))]
    {
      Push("project_delete", false, IdArgs(id));
    }

    /** `section_delete`: one command naming its target. */
    method SectionDelete(id: string)
      requires Valid()
      modifies this, ids
      ensures Valid() && ids.next == old(ids.next) + 1
      ensures commands == old(commands) + [Command("section_delete", IdOf(old(ids.next)), None, IdArgs(id))]
    {
      Push("section_delete", false, IdArgs(id));
    }

    /** `section_archive`: one command naming its target. */
    method SectionArchive(id: string)
      requires Valid()
      modifies this, ids
      ensures Valid() && ids.next == old(ids.next) + 1
      ensures commands == old(commands) + [Command("section_archive", IdOf(old(ids.next)), None, IdArgs(id))]
    {
      Push("section_archive", false, IdArgs(id));
    }

    /** `section_unarchive`: one command naming its target. */
    method SectionUnarchive(id: string)
      requires Valid()
      modifies this, ids
      ensures Valid() && ids.next == old(ids.next) + 1
      ensures commands == old(commands) + [Command("section_unarchive", IdOf(old(ids.next)), None, IdArgs(id))]
    {
      Push("section_unarchive", false, IdArgs(id));
    }

    /** `item_complete`: one command naming its target. */
    method ItemComplete(id: string)
      requires Valid()
      modifies this, ids
      ensures Valid() && ids.next == old(ids.next) + 1
      ensures commands == old(commands) + [Command("item_complete", IdOf(old(ids.next)), None, IdArgs(id))]
    {
      Push("item_complete", false, IdArgs(id));
    }

    /** `label_delete`: one command naming its target. */
    method LabelDelete(id: string)
      requires Valid()
      modifies this, ids
      ensures Valid() && ids.next == old(ids.next) + 1
      ensures commands == old(commands) + [Command("label_delete", IdOf(old(ids.next)), None, IdArgs(id))]
    {
      Push("label_delete", false, IdArgs(id));
    }

    /** `filter_delete`: one command naming its target. */
    method FilterDelete(id: string)
      requires Valid()
      modifies this, ids
      ensures Valid() && ids.next == old(ids.next) + 1
      ensures commands == old(commands) + [Command("filter_delete", IdOf(old(ids.next)), None, IdArgs(id))]
    {
      Push("filter_delete", false, IdArgs(id));
    }

    /** `item_add`: creates a task; it carries a temporary id. */
    method ItemAdd(args: ItemAddArgs)
      requires Valid()
      modifies this, ids
      ensures Valid() && ids.next == old(ids.next) + 2
      ensures commands == old(commands) + [Command("item_add", IdOf(old(ids.next)), Some(IdOf(old(ids.next) + 1)), args.ToJson())]
    {
      Push("item_add", true, args.ToJson());
    }

    /** `project_add`: creates a project; it carries a temporary id. */
    method ProjectAdd(args: ProjectAddArgs)
      requires Valid()
      modifies this, ids
      ensures Valid() && ids.next == old(ids.next) + 2
      ensures commands == old(commands) + [Command("project_add", IdOf(old(ids.next)), Some(IdOf(old(ids.next) + 1)), args.ToJson())]
    {
      Push("project_add", true, args.ToJson());
    }

    /** `section_add`: creates a section; it carries a temporary id. */
    method SectionAdd(args: SectionAddArgs)
      requires Valid()
      modifies this, ids
      ensures Valid() && ids.next == old(ids.next) + 2
      ensures commands == old(commands) + [Command("section_add", IdOf(old(ids.next)), Some(IdOf(old(ids.next) + 1)), args.ToJson())]
    {
      Push("section_add", true, args.ToJson());
    }

    /** `label_add`: creates a label; it carries a temporary id. */
    method LabelAdd(args: LabelAddArgs)
      requires Valid()
      modifies this, ids
      ensures Valid() && ids.next == old(ids.next) + 2
      ensures commands == old(commands) + [Command("label_add", IdOf(old(ids.next)), Some(IdOf(old(ids.next) + 1)), args.ToJson())]
    {
      Push("label_add", true, args.ToJson());
    }

    /** `filter_add`: creates a filter; it carries a temporary id. */
    method FilterAdd(args: FilterAddArgs)
      requires Valid()
      modifies this, ids
      ensures Valid() && ids.next == old(ids.next) + 2
      ensures commands == old(commands) + [Command("filter_add", IdOf(old(ids.next)), Some(IdOf(old(ids.next) + 1)), args.ToJson())]
    {
      Push("filter_add", true, args.ToJson());
    }

    /** `item_update`: changes the attributes set in `args`. */
    method ItemUpdate(args: ItemUpdateArgs)
      requires Valid()
      modifies this, ids
      ensures Valid() && ids.next == old(ids.next) + 1
      ensures commands == old(commands) + [Command("item_update", IdOf(old(ids.next)), None, args.ToJson())]
    {
      Push("item_update", false, args.ToJson());
    }

    /** `section_update`: renames a section. */
    method SectionUpdate(id: string, name: string)
      requires Valid()
      modifies this, ids
      ensures Valid() && ids.next == old(ids.next) + 1
      ensures commands == old(commands) + [Command("section_update", IdOf(old(ids.next)), None, JObject(map["id" := JString(id), "name" := JString(name)]))]
    {
      Push("section_update", false, JObject(map["id" := JString(id), "name" := JString(name)]));
    }

    /** `section_move`: moves a section to a project. */
    method SectionMove(id: string, projectId: string)
      requires Valid()
      modifies this, ids
      ensures Valid() && ids.next == old(ids.next) + 1
      ensures commands == old(commands) + [Command("section_move", IdOf(old(ids.next)), None, JObject(map["id" := JString(id), "project_id" := JString(projectId)]))]
    {
      Push("section_move", false, JObject(map["id" := JString(id), "project_id" := JString(projectId)]));
    }

    /** `section_reorder`: gives sections new positions, in one command. */
    method SectionReorder(sections: seq<SectionOrderArgs>)
      requires Valid()
      modifies this, ids
      ensures Valid() && ids.next == old(ids.next) + 1
      ensures commands == old(commands) + [Command("section_reorder", IdOf(old(ids.next)), None, SectionReorderArgs(sections))]
    {
      Push("section_reorder", false, SectionReorderArgs(sections));
    }

    /** `filter_update_orders`: gives filters new positions, in one command. */
    method FilterUpdateOrders(filters: seq<FilterOrderArgs>)
      requires Valid()
      modifies this, ids
      ensures Valid() && ids.next == old(ids.next) + 1
      ensures commands == old(commands) + [Command("filter_update_orders", IdOf(old(ids.next)), None, FilterOrdersArgs(filters))]
    {
      Push("filter_update_orders", false, FilterOrdersArgs(filters));
    }

    /** `item_move`: moves a task; `section_id` is added only when a section is given. */
    method ItemMove(id: string, projectId: string, sectionId: Option<string>)
      requires Valid()
      modifies this, ids
      ensures Valid() && ids.next == old(ids.next) + 1
      ensures commands == old(commands) + [Command("item_move", IdOf(old(ids.next)), None, JObject(Members(MoveFields(id, projectId, sectionId))))]
    {
      ghost var fs := MoveFields(id, projectId, sectionId);
      var args := map["id" := JString(id), "project_id" := JString(projectId)];
      MembersSnoc([], "id", Some(JString(id)));
      MembersSnoc([fs[0]], "project_id", Some(JString(projectId)));
      assert [] + [fs[0]] == [fs[0]] && [fs[0]] + [fs[1]] == fs[..2];
      MembersSnoc(fs[..2], "section_id", OptStr(sectionId));
      assert fs[..2] + [fs[2]] == fs;
      if sectionId.Some? {
        args := args["section_id" := JString(sectionId.value)];
      }
      Push("item_move", false, JObject(args));
    }

    /** `project_update`: changes the attributes given; each appears in the arguments only when given. */
    method ProjectUpdate(id: string, name: Option<string>, color: Option<string>, favorite: Option<bool>)
      requires Valid()
      modifies this, ids
      ensures Valid() && ids.next == old(ids.next) + 1
      ensures commands == old(commands) + [Command("project_update", IdOf(old(ids.next)), None, JObject(Members(ProjectUpdateFields(id, name, color, favorite))))]
    {
      ghost var fs := ProjectUpdateFields(id, name, color, favorite);
      var args := map["id" := JString(id)];
      assert args == Members(fs[..1]);
      MembersSnoc(fs[..1], "name", OptStr(name));
      assert fs[..2] == fs[..1] + [("name", OptStr(name))];
      if name.Some? {
        args := args["name" := JString(name.value)];
      }
      MembersSnoc(fs[..2], "color", OptStr(color));
      assert fs[..3] == fs[..2] + [("color", OptStr(color))];
      if color.Some? {
        args := args["color" := JString(color.value)];
      }
      MembersSnoc(fs[..3], "favorite", OptBool(favorite));
      assert fs[..4] == fs[..3] + [("favorite", OptBool(favorite))];
      if favorite.Some? {
        args := args["favorite" := JBool(favorite.value)];
      }
      assert fs[..4] == fs;
      Push("project_update", false, JObject(args));
    }

    /** `label_update`: changes the attributes given; each appears in the arguments only when given. */
    method LabelUpdate(id: string, name: Option<string>, color: Option<string>)
      requires Valid()
      modifies this, ids
      ensures Valid() && ids.next == old(ids.next) + 1
      ensures commands == old(commands) + [Command("label_update", IdOf(old(ids.next)), None, JObject(Members(LabelUpdateFields(id, name, color))))]
    {
      ghost var fs := LabelUpdateFields(id, name, color);
      var args := map["id" := JString(id)];
      assert args == Members(fs[..1]);
      MembersSnoc(fs[..1], "name", OptStr(name));
      assert fs[..2] == fs[..1] + [("name", OptStr(name))];
      if name.Some? {
        args := args["name" := JString(name.value)];
      }
      MembersSnoc(fs[..2], "color", OptStr(color));
      assert fs[..3] == fs[..2] + [("color", OptStr(color))];
      if color.Some? {
        args := args["color" := JString(color.value)];
      }
      assert fs[..3] == fs;
      Push("label_update", false, JObject(args));
    }

    /** `filter_update`: changes the attributes given; each appears in the arguments only when given. */
    method FilterUpdate(id: string, name: Option<string>, query: Option<string>, color: Option<string>)
      requires Valid()
      modifies this, ids
      ensures Valid() && ids.next == old(ids.next) + 1
      ensures commands == old(commands) + [Command("filter_update", IdOf(old(ids.next)), None, JObject(Members(FilterUpdateFields(id, name, query, color))))]
    {
      ghost var fs := FilterUpdateFields(id, name, query, color);
      var args := map["id" := JString(id)];
      assert args == Members(fs[..1]);
      MembersSnoc(fs[..1], "name", OptStr(name));
      assert fs[..2] == fs[..1] + [("name", OptStr(name))];
      if name.Some? {
        args := args["name" := JString(name.value)];
      }
      MembersSnoc(fs[..2], "query", OptStr(query));
      assert fs[..3] == fs[..2] + [("query", OptStr(query))];
      if query.Some? {
        args := args["query" := JString(query.value)];
      }
      MembersSnoc(fs[..3], "color", OptStr(color));
      assert fs[..4] == fs[..3] + [("color", OptStr(color))];
      if color.Some? {
        args := args["color" := JString(color.value)];
      }
      assert fs[..4] == fs;
      Push("filter_update", false, JObject(args));
    }

    /** `build`: the commands in call order, with distinct non-empty uuids and distinct temporary ids. */
    method Build() returns (r: seq<Command>)
      requires Valid()
      ensures r == commands
      ensures forall i :: 0 <= i < |r| ==> r[i].uuid != ""
      ensures forall i, j :: 0 <= i < j < |r| ==> r[i].uuid != r[j].uuid
      ensures forall i, j :: 0 <= i < j < |r| && r[i].tempId.Some? && r[j].tempId.Some? ==> r[i].tempId != r[j].tempId
      ensures forall i, j :: 0 <= i < |r| && 0 <= j < |r| && r[j].tempId.Some? ==> r[i].uuid != r[j].tempId.value
      ensures forall i :: 0 <= i < |r| ==> (r[i].tempId.Some? <==> Creates(r[i].kind))
    {
      StampedDistinct(commands, stamps);
      r := commands;
    }
  }
}
