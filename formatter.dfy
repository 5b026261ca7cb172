/**
  The text renderers: one checklist line per record joined by newlines, and
  the structured form, which for tasks and sections gathers the records into
  groups keyed by project, lists the groups in ascending key order and keeps
  each group's records in input order.
*/
module Formatter {
  import opened Wrappers
  import opened Text
  import opened Models
  import opened SyncModels

  // ---------------------------------------------------------------- lists of lines

  /** The records' lines, joined by `sep`. */
  function Lines<T>(xs: seq<T>, line: T -> string, sep: string): (s: string)
    ensures xs == [] ==> s == ""
    ensures |xs| == 1 ==> s == line(xs[0])
  {
    Join(seq(|xs|, i requires 0 <= i < |xs| => line(xs[i])), sep)
  }

  /** When no line holds a newline, a newline-joined list splits back into exactly its lines, in order. */
  lemma LinesSplit<T>(xs: seq<T>, line: T -> string)
    requires |xs| >= 1
    requires forall i :: 0 <= i < |xs| ==> '\n' !in line(xs[i])
    ensures Split(Lines(xs, line, "\n"), '\n') == seq(|xs|, i requires 0 <= i < |xs| => line(xs[i]))
  {
    SplitJoin(seq(|xs|, i requires 0 <= i < |xs| => line(xs[i])), '\n');
  }

  // ---------------------------------------------------------------- tasks

  function Checkbox(done: bool): string
  {
    if done then "[x]" else "[ ]"
  }

  /** What both task renderers start a line with: the checkbox and the content. */
  function TaskHead(t: TaskOutput): (head: string)
    ensures |head| == 6 + |t.content| && head[6..] == t.content
    ensures StartsWith(head, "- [x] ") <==> t.isCompleted
    ensures StartsWith(head, "- [ ] ") <==> !t.isCompleted
  {
    var head := "- " + Checkbox(t.isCompleted) + " " + t.content;
    assert head[..6] == if t.isCompleted then "- [x] " else "- [ ] ";
    assert "- [x] "[3] != "- [ ] "[3];
    head
  }

  /** `format_checklist`'s line: the project's name in parentheses when the task has one. */
  function ChecklistLine(t: TaskOutput): (line: string)
    ensures StartsWith(line, TaskHead(t))
  {
    TaskHead(t) + (if t.projectName.Some? then " (" + t.projectName.value + ")" else "")
  }

  /** `format_checklist`. */
  function Checklist(tasks: seq<TaskOutput>): (s: string)
    ensures tasks == [] ==> s == ""
  {
    Lines(tasks, ChecklistLine, "\n")
  }

  /** Of two tasks with the same checkbox and content, the checklist lines agree exactly when the project names do. */
  lemma ChecklistShowsProject(t: TaskOutput, u: TaskOutput)
    requires t.isCompleted == u.isCompleted && t.content == u.content
    ensures ChecklistLine(t) == ChecklistLine(u) <==> t.projectName == u.projectName
  {
    var h := TaskHead(t);
    assert TaskHead(u) == h;
    if ChecklistLine(t) == ChecklistLine(u) && t.projectName.Some? && u.projectName.Some? {
      assert ChecklistLine(t) == h + " (" + t.projectName.value + ")";
      assert ChecklistLine(u) == h + " (" + u.projectName.value + ")";
      Enclosed(h + " (", t.projectName.value, u.projectName.value, ")");
    }
  }

  /** Two strings set between the same text on either side are equal when the results are. */
  lemma Enclosed(before: string, a: string, b: string, after: string)
    requires before + a + after == before + b + after
    ensures a == b
  {
    var s := before + a + after;
    assert s[|before|..|s| - |after|] == a;
    assert (before + b + after)[|before|..|s| - |after|] == b;
  }

  /** The checklist has one line per task, in order, when no content or project name holds a newline. */
  lemma ChecklistLines(tasks: seq<TaskOutput>)
    requires |tasks| >= 1
    requires forall i :: 0 <= i < |tasks| ==> ('\n' !in tasks[i].content
      && (tasks[i].projectName.Some? ==> '\n' !in tasks[i].projectName.value))
    ensures |Split(Checklist(tasks), '\n')| == |tasks|
    ensures forall i :: 0 <= i < |tasks| ==> Split(Checklist(tasks), '\n')[i] == ChecklistLine(tasks[i])
  {
    forall i | 0 <= i < |tasks|
      ensures '\n' !in ChecklistLine(tasks[i])
    {
      assert '\n' !in Checkbox(tasks[i].isCompleted);
    }
    LinesSplit(tasks, ChecklistLine);
  }

  /** `format_structured`'s line: the priority in parentheses when it is above 1. */
  function StructuredLine(t: TaskOutput): (line: string)
    ensures StartsWith(line, TaskHead(t))
    ensures line == TaskHead(t) <==> t.priority <= 1
  {
    TaskHead(t) + (if t.priority > 1 then " (Priority: " + Decimal(t.priority) + ")" else "")
  }

  /** Of two tasks with the same checkbox and content, the structured lines agree exactly when the shown priorities do. */
  lemma StructuredShowsPriority(t: TaskOutput, u: TaskOutput)
    requires t.isCompleted == u.isCompleted && t.content == u.content
    ensures StructuredLine(t) == StructuredLine(u) <==> (t.priority <= 1 && u.priority <= 1) || t.priority == u.priority
  {
    var h := TaskHead(t);
    assert TaskHead(u) == h;
    if StructuredLine(t) == StructuredLine(u) && t.priority > 1 && u.priority > 1 {
      PrioritySuffix(h, t.priority as nat, u.priority as nat);
    }
  }

  lemma PrioritySuffix(head: string, p: nat, q: nat)
    requires head + (" (Priority: " + Decimal(p) + ")") == head + (" (Priority: " + Decimal(q) + ")")
    ensures p == q
  {
    var pre := head + " (Priority: ";
    assert pre + Decimal(p) + ")" == head + (" (Priority: " + Decimal(p) + ")");
    assert pre + Decimal(q) + ")" == head + (" (Priority: " + Decimal(q) + ")");
    Enclosed(pre, Decimal(p), Decimal(q), ")");
    DecimalInjective(p, q);
  }

  /** The structured group of a task: its project's name, or "Inbox" when it has none. */
  function GroupKey(t: TaskOutput): (k: string)
    ensures t.projectName.None? ==> k == "Inbox"
    ensures t.projectName.Some? ==> k == t.projectName.value
  {
    if t.projectName.Some? then t.projectName.value else "Inbox"
  }

  function TaskHeading(k: string): string
  {
    "## " + k
  }

  // ---------------------------------------------------------------- grouping

  /** The keys that occur among the records. */
  function KeysOf<T>(xs: seq<T>, key: T -> string): (ks: set<string>)
    ensures forall i :: 0 <= i < |xs| ==> key(xs[i]) in ks
  {
    set i | 0 <= i < |xs| :: key(xs[i])
  }

  /** The records with key `k`, in their order. */
  function Having<T>(xs: seq<T>, key: T -> string, k: string): (r: seq<T>)
    ensures |r| <= |xs|
    decreases |xs|
  {
    if xs == [] then []
    else
      var n := |xs| - 1;
      Having(xs[..n], key, k) + (if key(xs[n]) == k then [xs[n]] else [])
  }

  /** A record is in group `k` exactly when it is one of the records and has key `k`. */
  lemma {:induction false} HavingSpec<T>(xs: seq<T>, key: T -> string, k: string, x: T)
    ensures x in Having(xs, key, k) <==> x in xs && key(x) == k
    decreases |xs|
  {
    if xs != [] {
      var n := |xs| - 1;
      HavingSpec(xs[..n], key, k, x);
      assert xs == xs[..n] + [xs[n]];
    }
  }

  /** Grouping keeps order: the group of a concatenation is the concatenation of the groups. */
  lemma {:induction false} HavingAppend<T>(a: seq<T>, b: seq<T>, key: T -> string, k: string)
    ensures Having(a + b, key, k) == Having(a, key, k) + Having(b, key, k)
    decreases |b|
  {
    if b == [] {
      assert a + b == a;
    } else {
      var n := |b| - 1;
      assert (a + b)[..|a| + n] == a + b[..n];
      assert (a + b)[|a| + n] == b[n];
      HavingAppend(a, b[..n], key, k);
    }
  }

  /** A key that does not occur has no records. */
  lemma {:induction false} HavingOutside<T>(xs: seq<T>, key: T -> string, k: string)
    requires k !in KeysOf(xs, key)
    ensures Having(xs, key, k) == []
    decreases |xs|
  {
    if xs != [] {
      var n := |xs| - 1;
      assert KeysOf(xs[..n], key) <= KeysOf(xs, key) by {
        forall j | 0 <= j < n ensures xs[..n][j] == xs[j] { }
      }
      HavingOutside(xs[..n], key, k);
    }
  }

  /** The grouping table: every key that occurs, mapped to its records in order. */
  function Grouping<T>(xs: seq<T>, key: T -> string): (g: map<string, seq<T>>)
    ensures g.Keys == KeysOf(xs, key)
  {
    map k | k in KeysOf(xs, key) :: Having(xs, key, k)
  }

  /** Adding one record to the table: it joins the end of its key's group, which is created when new. */
  lemma GroupingSnoc<T>(xs: seq<T>, key: T -> string, x: T)
    ensures var g := Grouping(xs, key);
      Grouping(xs + [x], key) == g[key(x) := (if key(x) in g then g[key(x)] else []) + [x]]
  {
    var g := Grouping(xs, key);
    var ys := xs + [x];
    KeysOfSnoc(xs, key, x);
    var rhs := g[key(x) := (if key(x) in g then g[key(x)] else []) + [x]];
    forall k | k in rhs
      ensures Grouping(ys, key)[k] == rhs[k]
    {
      HavingSnoc(xs, key, x, k);
      if k == key(x) && key(x) !in g {
        HavingOutside(xs, key, k);
      }
    }
  }

  lemma KeysOfSnoc<T>(xs: seq<T>, key: T -> string, x: T)
    ensures KeysOf(xs + [x], key) == KeysOf(xs, key) + {key(x)}
  {
    var ys := xs + [x];
    forall k | k in KeysOf(ys, key) ensures k in KeysOf(xs, key) + {key(x)} {
      var j :| 0 <= j < |ys| && key(ys[j]) == k;
      if j < |xs| { assert ys[j] == xs[j]; }
    }
    forall j | 0 <= j < |xs| ensures key(xs[j]) in KeysOf(ys, key) { assert ys[j] == xs[j]; }
    assert ys[|xs|] == x;
  }

  lemma HavingSnoc<T>(xs: seq<T>, key: T -> string, x: T, k: string)
    ensures Having(xs + [x], key, k) == Having(xs, key, k) + (if key(x) == k then [x] else [])
  {
    assert (xs + [x])[..|xs|] == xs;
  }

  /**
    The `entry(..).or_default().push(..)` loop: builds the grouping table one
    record at a time.
  */
  method GroupBy<T>(xs: seq<T>, key: T -> string) returns (grouped: map<string, seq<T>>)
    ensures grouped == Grouping(xs, key)
  {
    grouped := map[];
    var i := 0;
    assert KeysOf(xs[..0], key) == {};
    while i < |xs|
      invariant 0 <= i <= |xs|
      invariant grouped == Grouping(xs[..i], key)
    {
      var k := key(xs[i]);
      var group := if k in grouped then grouped[k] else [];
      GroupingSnoc(xs[..i], key, xs[i]);
      assert xs[..i] + [xs[i]] == xs[..i + 1];
      grouped := grouped[k := group + [xs[i]]];
      i := i + 1;
    }
    assert xs[..|xs|] == xs;
  }

  /** The table's entries in ascending key order, as sorting the collected pairs by key lists them. */
  function SortedGroups<T>(grouped: map<string, seq<T>>): (gs: seq<(string, seq<T>)>)
    ensures |gs| == |grouped.Keys|
    ensures forall i :: 0 <= i < |gs| ==> gs[i].0 in grouped && gs[i].1 == grouped[gs[i].0]
    ensures forall k :: k in grouped ==> exists i :: 0 <= i < |gs| && gs[i].0 == k
    ensures forall i, j :: 0 <= i < j < |gs| ==> Lt(gs[i].0, gs[j].0)
  {
    var keys := SortedKeys(grouped.Keys);
    var gs := seq(|keys|, i requires 0 <= i < |keys| => (keys[i], grouped[keys[i]]));
    assert forall k :: k in grouped ==> k in keys;
    assert forall i :: 0 <= i < |keys| ==> gs[i].0 == keys[i];
    gs
  }

  /** The groups of the structured form. */
  function Groups<T>(xs: seq<T>, key: T -> string): (gs: seq<(string, seq<T>)>)
  {
    SortedGroups(Grouping(xs, key))
  }

  /** The groups are listed in strictly ascending key order, so no key appears twice. */
  lemma GroupsOrdered<T>(xs: seq<T>, key: T -> string)
    ensures var gs := Groups(xs, key);
      forall i, j :: 0 <= i < j < |gs| ==> Lt(gs[i].0, gs[j].0) && gs[i].0 != gs[j].0
  {
  }

  /** Every group is non-empty and holds exactly the records with its key, in input order. */
  lemma GroupsContents<T>(xs: seq<T>, key: T -> string, i: nat, x: T)
    requires i < |Groups(xs, key)|
    ensures var g := Groups(xs, key)[i];
      && g.1 == Having(xs, key, g.0) && |g.1| > 0
      && (x in g.1 <==> x in xs && key(x) == g.0)
  {
    var g := Groups(xs, key)[i];
    assert g.0 in KeysOf(xs, key);
    var j :| 0 <= j < |xs| && key(xs[j]) == g.0;
    HavingSpec(xs, key, g.0, xs[j]);
    HavingSpec(xs, key, g.0, x);
  }

  /** Every record is in its key's group, and in no other. */
  lemma GroupsCover<T>(xs: seq<T>, key: T -> string, j: nat)
    requires j < |xs|
    ensures var gs := Groups(xs, key);
      && (exists i :: 0 <= i < |gs| && gs[i].0 == key(xs[j]) && xs[j] in gs[i].1)
      && (forall i :: 0 <= i < |gs| && xs[j] in gs[i].1 ==> gs[i].0 == key(xs[j]))
  {
    var gs := Groups(xs, key);
    assert key(xs[j]) in Grouping(xs, key);
    var i :| 0 <= i < |gs| && gs[i].0 == key(xs[j]);
    GroupsContents(xs, key, i, xs[j]);
    forall i' | 0 <= i' < |gs| && xs[j] in gs[i'].1
      ensures gs[i'].0 == key(xs[j])
    {
      GroupsContents(xs, key, i', xs[j]);
    }
  }

  /** The blocks of the structured form: a heading, a blank line and the group's lines, separated by blank lines. */
  function Blocks<T>(gs: seq<(string, seq<T>)>, heading: string -> string, line: T -> string): (s: string)
    ensures gs == [] ==> s == ""
  {
    Join(seq(|gs|, i requires 0 <= i < |gs| => heading(gs[i].0) + "\n\n" + Lines(gs[i].1, line, "\n")), "\n\n")
  }

  /** `format_structured`: groups the tasks by project name, sorts the groups by name and renders each. */
  method Structured(tasks: seq<TaskOutput>) returns (s: string)
    ensures s == Blocks(Groups(tasks, GroupKey), TaskHeading, StructuredLine)
  {
    var grouped := GroupBy(tasks, GroupKey);
    var groups := SortedGroups(grouped);
    s := Blocks(groups, TaskHeading, StructuredLine);
  }

  /** A task without a project is listed under "Inbox". */
  lemma InboxGroup(tasks: seq<TaskOutput>, j: nat)
    requires j < |tasks| && tasks[j].projectName.None?
    ensures var gs := Groups(tasks, GroupKey);
      exists i :: 0 <= i < |gs| && gs[i].0 == "Inbox" && tasks[j] in gs[i].1
  {
    GroupsCover(tasks, GroupKey, j);
  }

  // ---------------------------------------------------------------- projects

  /** `format_projects_checklist`'s line: a star before the name for a favourite, "(shared)" after it for a shared project. */
  function ProjectLine(p: Project): (line: string)
    ensures StartsWith(line, "- [ ] ")
  {
    "- [ ] " + (if p.isFavorite then "⭐ " else "") + p.name + (if p.isShared then " (shared)" else "")
  }

  function ProjectsChecklist(projects: seq<Project>): (s: string)
    ensures projects == [] ==> s == ""
  {
    Lines(projects, ProjectLine, "\n")
  }

  /** Of two projects with the same name, the checklist lines agree exactly when both decorations do. */
  lemma ProjectLineShowsFlags(p: Project, q: Project)
    requires p.name == q.name
    ensures ProjectLine(p) == ProjectLine(q) <==> p.isFavorite == q.isFavorite && p.isShared == q.isShared
  {
    assert |ProjectLine(p)| == 6 + |p.name| + (if p.isFavorite then 2 else 0) + (if p.isShared then 9 else 0);
    assert |ProjectLine(q)| == 6 + |q.name| + (if q.isFavorite then 2 else 0) + (if q.isShared then 9 else 0);
  }

  /** The meta line of a structured project: its favourite and shared marks, or nothing. */
  function ProjectMeta(p: Project): (meta: string)
    ensures meta == "" <==> !p.isFavorite && !p.isShared
  {
    var parts := (if p.isFavorite then ["⭐ Favorite"] else []) + (if p.isShared then ["\U{1F465} Shared"] else []);
    if parts == [] then "" else "**Meta:** " + Join(parts, " | ") + " | "
  }

  /** `format_projects_structured`'s block. */
  function ProjectBlock(p: Project): (block: string)
    ensures StartsWith(block, "### " + p.name + "\n\n**Color:** " + p.color + "\n**ID:** " + p.id + "\n")
  {
    var head := "### " + p.name + "\n\n**Color:** " + p.color + "\n**ID:** " + p.id + "\n";
    var block := head + ProjectMeta(p);
    assert block[..|head|] == head;
    block
  }

  function ProjectsStructured(projects: seq<Project>): (s: string)
    ensures projects == [] ==> s == ""
  {
    Lines(projects, ProjectBlock, "\n\n")
  }

  /** Of two projects with the same name, colour and id, the blocks agree exactly when both decorations do. */
  lemma ProjectBlockShowsFlags(p: Project, q: Project)
    requires p.name == q.name && p.color == q.color && p.id == q.id
    ensures ProjectBlock(p) == ProjectBlock(q) <==> p.isFavorite == q.isFavorite && p.isShared == q.isShared
  {
    var fav, shared := "⭐ Favorite", "\U{1F465} Shared";
    assert Join([fav], " | ") == fav && Join([shared], " | ") == shared;
    assert Join([fav, shared], " | ") == fav + " | " + shared;
    assert |ProjectMeta(p)| == (if p.isFavorite && p.isShared then 34 else if p.isFavorite then 23
      else if p.isShared then 21 else 0);
    assert |ProjectMeta(q)| == (if q.isFavorite && q.isShared then 34 else if q.isFavorite then 23
      else if q.isShared then 21 else 0);
  }

  // ---------------------------------------------------------------- filters

  /** `format_filters_checklist`'s line: the name, then the query in parentheses. */
  function FilterLine(f: Filter): (line: string)
    ensures StartsWith(line, "- [ ] " + f.name + " (")
  {
    var head := "- [ ] " + f.name + " (";
    var line := head + f.query + ")";
    assert line[..|head|] == head;
    line
  }

  function FiltersChecklist(filters: seq<Filter>): (s: string)
    ensures filters == [] ==> s == ""
  {
    Lines(filters, FilterLine, "\n")
  }

  /** Of two filters with the same name, the lines agree exactly when the queries do. */
  lemma FilterLineShowsQuery(f: Filter, g: Filter)
    requires f.name == g.name
    ensures FilterLine(f) == FilterLine(g) <==> f.query == g.query
  {
    if FilterLine(f) == FilterLine(g) {
      Enclosed("- [ ] " + f.name + " (", f.query, g.query, ")");
    }
  }

  /** `format_filters_structured`'s block: the name as a heading, then the query and the id. */
  function FilterBlock(f: Filter): (block: string)
    ensures StartsWith(block, "### " + f.name + "\n\n")
  {
    var head := "### " + f.name + "\n\n";
    var block := head + "**Filter:** `" + f.query + "`\n**ID:** " + f.id + "\n";
    assert block[..|head|] == head;
    block
  }

  function FiltersStructured(filters: seq<Filter>): (s: string)
    ensures filters == [] ==> s == ""
  {
    Lines(filters, FilterBlock, "\n\n")
  }

  /** A wire filter is printed as the filter with the same id, name and query. */
  function AsFilter(f: SyncFilter): (r: Filter)
    ensures r.id == f.id && r.name == f.name && r.query == f.query
  {
    Filter(f.id, f.name, f.query)
  }

  function SyncFilterLine(f: SyncFilter): string
  {
    FilterLine(AsFilter(f))
  }

  function SyncFilterBlock(f: SyncFilter): string
  {
    FilterBlock(AsFilter(f))
  }

  /** `format_sync_filters_checklist`. */
  function SyncFiltersChecklist(filters: seq<SyncFilter>): (s: string)
    ensures filters == [] ==> s == ""
  {
    Lines(filters, SyncFilterLine, "\n")
  }

  /** `format_sync_filters_structured`. */
  function SyncFiltersStructured(filters: seq<SyncFilter>): (s: string)
    ensures filters == [] ==> s == ""
  {
    Lines(filters, SyncFilterBlock, "\n\n")
  }

  /** Rendering records through a conversion is rendering the converted records. */
  lemma LinesConverted<T, U>(xs: seq<T>, ys: seq<U>, convert: T -> U, line: U -> string, direct: T -> string, sep: string)
    requires |ys| == |xs| && forall i :: 0 <= i < |xs| ==> ys[i] == convert(xs[i])
    requires forall x :: direct(x) == line(convert(x))
    ensures Lines(xs, direct, sep) == Lines(ys, line, sep)
  {
    assert seq(|xs|, i requires 0 <= i < |xs| => direct(xs[i])) == seq(|ys|, i requires 0 <= i < |ys| => line(ys[i]));
  }

  /** Wire filters are printed exactly as the filters with the same id, name and query. */
  lemma SyncFiltersAsFilters(filters: seq<SyncFilter>, fs: seq<Filter>)
    requires |fs| == |filters| && forall i :: 0 <= i < |filters| ==> fs[i] == AsFilter(filters[i])
    ensures SyncFiltersChecklist(filters) == FiltersChecklist(fs)
    ensures SyncFiltersStructured(filters) == FiltersStructured(fs)
  {
    LinesConverted(filters, fs, AsFilter, FilterLine, SyncFilterLine, "\n");
    LinesConverted(filters, fs, AsFilter, FilterBlock, SyncFilterBlock, "\n\n");
  }

  // ---------------------------------------------------------------- labels

  /** `format_sync_labels_checklist`'s line: a star for a favourite, then the name and the colour. */
  function LabelLine(l: SyncLabel): (line: string)
    ensures StartsWith(line, "- [ ] ")
  {
    "- [ ] " + (if l.isFavorite then "⭐ " else "") + l.name + " (Color: " + l.color + ")"
  }

  function LabelsChecklist(labels: seq<SyncLabel>): (s: string)
    ensures labels == [] ==> s == ""
  {
    Lines(labels, LabelLine, "\n")
  }

  /** `format_sync_labels_structured`'s block: a "Favorite: Yes" line only for a favourite. */
  function LabelBlock(l: SyncLabel): (block: string)
    ensures StartsWith(block, "### " + l.name + "\n\n**Color:** " + l.color + "\n**ID:** " + l.id + "\n")
  {
    var head := "### " + l.name + "\n\n**Color:** " + l.color + "\n**ID:** " + l.id + "\n";
    var block := head + (if l.isFavorite then "**Favorite:** Yes\n" else "");
    assert block[..|head|] == head;
    block
  }

  function LabelsStructured(labels: seq<SyncLabel>): (s: string)
    ensures labels == [] ==> s == ""
  {
    Lines(labels, LabelBlock, "\n\n")
  }

  /** Of two labels with the same name and colour (and id), the line (and the block) shows whether each is a favourite. */
  lemma LabelShowsFavorite(l: SyncLabel, m: SyncLabel)
    requires l.name == m.name && l.color == m.color && l.id == m.id
    ensures LabelLine(l) == LabelLine(m) <==> l.isFavorite == m.isFavorite
    ensures LabelBlock(l) == LabelBlock(m) <==> l.isFavorite == m.isFavorite
  {
    assert |LabelLine(l)| - |LabelLine(m)| == (if l.isFavorite then 2 else 0) - (if m.isFavorite then 2 else 0);
    assert |LabelBlock(l)| - |LabelBlock(m)| == (if l.isFavorite then 18 else 0) - (if m.isFavorite then 18 else 0);
  }

  // ---------------------------------------------------------------- sections

  /** `format_sections_checklist`'s line: the name and the project it belongs to. */
  function SectionLine(s: SyncSection): (line: string)
    ensures StartsWith(line, "- [ ] " + s.name + " (Project: ")
  {
    var head := "- [ ] " + s.name + " (Project: ";
    var line := head + s.projectId + ")";
    assert line[..|head|] == head;
    line
  }

  function SectionsChecklist(sections: seq<SyncSection>): (s: string)
    ensures sections == [] ==> s == ""
  {
    Lines(sections, SectionLine, "\n")
  }

  /** Of two sections with the same name, the checklist lines agree exactly when the projects do. */
  lemma SectionLineShowsProject(s: SyncSection, t: SyncSection)
    requires s.name == t.name
    ensures SectionLine(s) == SectionLine(t) <==> s.projectId == t.projectId
  {
    if SectionLine(s) == SectionLine(t) {
      Enclosed("- [ ] " + s.name + " (Project: ", s.projectId, t.projectId, ")");
    }
  }

  /** The structured group of a section: its project's id. */
  function SectionKey(s: SyncSection): (k: string)
    ensures k == s.projectId
  {
    s.projectId
  }

  function SectionHeading(projectId: string): string
  {
    "## Project: " + projectId
  }

  /** The line of a section inside its project's group: the name and the section's id. */
  function SectionItem(s: SyncSection): (line: string)
    ensures StartsWith(line, "- [ ] " + s.name + " (ID: ")
  {
    var head := "- [ ] " + s.name + " (ID: ";
    var line := head + s.id + ")";
    assert line[..|head|] == head;
    line
  }

  /** `format_sections_structured`: groups the sections by project id, sorts the groups by id and renders each. */
  method SectionsStructured(sections: seq<SyncSection>) returns (s: string)
    ensures s == Blocks(Groups(sections, SectionKey), SectionHeading, SectionItem)
  {
    var grouped := GroupBy(sections, SectionKey);
    var groups := SortedGroups(grouped);
    s := Blocks(groups, SectionHeading, SectionItem);
  }
}
