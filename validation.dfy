/**
 * The request rules of backend/src/routes/todos.js: which bodies and query strings the
 * create, update and list routes accept, and what the accepted values become.
 * `parseDate(text)` stands for JavaScript's `new Date(text)`: the instant, or `None`
 * for an invalid date.
 */
module Validation {
  import opened Wrappers
  import opened Text
  import opened Todos
  import opened Query

  /** A body's `dueDate`: an absent key, JSON `null`, or a string. */
  datatype DateInput = NoDate | NullDate | DateText(text: string)

  /** The fields a create or update body may carry; `None` is an absent key. */
  datatype TodoBody = TodoBody(
    title: Option<string>,
    description: Option<string>,
    priority: Option<int>,
    dueDate: DateInput,
    category: Option<string>,
    tags: Option<seq<string>>)

  /** The list route's query string; `page`, `limit` and `priority` arrive as integers. */
  datatype ListParams = ListParams(
    isCompleted: Option<string>,
    priority: Option<int>,
    category: Option<string>,
    search: Option<string>,
    page: Option<int>,
    limit: Option<int>)

  const MaxTags := 10
  const MaxSearch := 100
  const MaxLimit := 100
  const DefaultPage := 1
  const DefaultLimit := 20
  const DefaultCategory := "General"

  /** The request parameters the rules name; an error list entry names the rule's parameter. */
  datatype Param =
    | Title | Description | Priority | DueDate | Category | Tags | TagItems
    | IsCompleted | Search | Page | Limit

  /** The error list entry for a rule that failed. */
  function Check(ok: bool, path: Param): seq<Param>
  {
    if ok then [] else [path]
  }

  /** An optional string whose trimmed value, when present, is at most `max` long. */
  predicate TrimmedAtMost(s: Option<string>, max: nat)
  {
    s.None? || |Trim(s.value)| <= max
  }

  predicate TitleInRange(title: string)
  {
    1 <= |Trim(title)| <= MaxTitle
  }

  predicate PriorityAccepted(p: Option<int>)
  {
    p.None? || 1 <= p.value <= 3
  }

  /** Null, absent and empty are accepted and mean "no due date"; anything else must parse. */
  predicate DueDateAccepted(d: DateInput, parseDate: string -> Option<Millis>)
  {
    match d
    case NoDate => true
    case NullDate => true
    case DateText(text) => text == "" || parseDate(text).Some?
  }

  predicate TagCountAccepted(tags: Option<seq<string>>)
  {
    tags.None? || |tags.value| <= MaxTags
  }

  predicate TagItemsAccepted(tags: Option<seq<string>>)
  {
    tags.None? || forall k :: 0 <= k < |tags.value| ==> 1 <= |Trim(tags.value[k])| <= MaxTag
  }

  /** Everything the create route demands of a body. */
  predicate CreateAccepted(b: TodoBody, parseDate: string -> Option<Millis>)
  {
    && b.title.Some? && TitleInRange(b.title.value)
    && TrimmedAtMost(b.description, MaxDescription)
    && PriorityAccepted(b.priority)
    && DueDateAccepted(b.dueDate, parseDate)
    && TrimmedAtMost(b.category, MaxCategory)
    && TagCountAccepted(b.tags)
    && TagItemsAccepted(b.tags)
  }

  /** The create route's rules, in order; one entry per failing rule. */
  function CreateErrors(b: TodoBody, parseDate: string -> Option<Millis>): (errors: seq<Param>)
    ensures errors == [] <==> CreateAccepted(b, parseDate)
    ensures Title in errors <==> b.title.None? || !TitleInRange(b.title.value)
    ensures DueDate in errors <==> !DueDateAccepted(b.dueDate, parseDate)
    ensures |errors| <= 7
  {
    Check(b.title.Some? && TitleInRange(b.title.value), Title)
    + Check(TrimmedAtMost(b.description, MaxDescription), Description)
    + Check(PriorityAccepted(b.priority), Priority)
    + Check(DueDateAccepted(b.dueDate, parseDate), DueDate)
    + Check(TrimmedAtMost(b.category, MaxCategory), Category)
    + Check(TagCountAccepted(b.tags), Tags)
    + Check(TagItemsAccepted(b.tags), TagItems)
  }

  /** Everything the update route demands of a body: every field is optional. */
  predicate UpdateAccepted(b: TodoBody, parseDate: string -> Option<Millis>)
  {
    && (b.title.None? || TitleInRange(b.title.value))
    && TrimmedAtMost(b.description, MaxDescription)
    && PriorityAccepted(b.priority)
    && DueDateAccepted(b.dueDate, parseDate)
    && TrimmedAtMost(b.category, MaxCategory)
    && TagCountAccepted(b.tags)
  }

  /** The update route's rules, in order. Tags are counted but their items are not checked. */
  function UpdateErrors(b: TodoBody, parseDate: string -> Option<Millis>): (errors: seq<Param>)
    ensures errors == [] <==> UpdateAccepted(b, parseDate)
    ensures Title in errors <==> b.title.Some? && !TitleInRange(b.title.value)
    ensures TagItems !in errors
    ensures |errors| <= 6
  {
    Check(b.title.None? || TitleInRange(b.title.value), Title)
    + Check(TrimmedAtMost(b.description, MaxDescription), Description)
    + Check(PriorityAccepted(b.priority), Priority)
    + Check(DueDateAccepted(b.dueDate, parseDate), DueDate)
    + Check(TrimmedAtMost(b.category, MaxCategory), Category)
    + Check(TagCountAccepted(b.tags), Tags)
  }

  /**
   * The stored value of a `dueDate` that was sent: null, and the empty string, which
   * both `dueDate || null` and the schema's cast turn into null, mean no due date.
   */
  function SentDueDate(d: DateInput, parseDate: string -> Option<Millis>): (r: Option<Millis>)
    requires d != NoDate
    ensures r.Some? ==> d.DateText? && d.text != "" && r == parseDate(d.text)
    ensures d.DateText? && d.text != "" ==> r == parseDate(d.text)
  {
    match d
    case NullDate => None
    case DateText(text) => if text == "" then None else parseDate(text)
  }

  /** JavaScript's `s || fallback` on an optional, already trimmed string. */
  function OrElse(s: Option<string>, fallback: string): (r: string)
    ensures r == fallback <==> s.None? || s.value == "" || s.value == fallback
    ensures r != fallback ==> s.Some? && r == s.value
  {
    if s.Some? && s.value != "" then s.value else fallback
  }

  function TrimOpt(s: Option<string>): (r: Option<string>)
    ensures r.Some? <==> s.Some?
    ensures r.Some? ==> r.value == Trim(s.value)
  {
    match s
    case None => None
    case Some(v) => Some(Trim(v))
  }

  /**
   * The record the create route stores for an accepted body: the sanitized (trimmed)
   * values, the defaults, the caller as owner, and not completed.
   */
  function NewTodo(caller: UserId, id: TodoId, b: TodoBody, now: Millis,
                   parseDate: string -> Option<Millis>): (t: Todo)
    requires CreateAccepted(b, parseDate)
    ensures SchemaValid(t)
    ensures t.id == id && t.user == caller && t.createdAt == now
    ensures !t.isCompleted && t.completedAt.None? && Status(t) == "pending"
    ensures t.sharedWith == []
    ensures t.title == Trim(b.title.value)
    ensures t.description == OrElse(TrimOpt(b.description), "")
    ensures t.priority == if b.priority.Some? then b.priority.value else 1
    ensures t.dueDate == (if b.dueDate == NoDate then None else SentDueDate(b.dueDate, parseDate))
    ensures b.dueDate == NoDate || b.dueDate == NullDate || b.dueDate == DateText("") ==> t.dueDate.None?
    ensures t.category == OrElse(TrimOpt(b.category), DefaultCategory)
    ensures t.tags == if b.tags.Some? then TrimAll(b.tags.value) else []
  {
    Todo(
      id := id,
      user := caller,
      title := Trim(b.title.value),
      description := OrElse(TrimOpt(b.description), ""),
      isCompleted := false,
      completedAt := None,
      priority := if b.priority.Some? then b.priority.value else 1,
      dueDate := if b.dueDate == NoDate then None else SentDueDate(b.dueDate, parseDate),
      tags := if b.tags.Some? then TrimAll(b.tags.value) else [],
      category := OrElse(TrimOpt(b.category), DefaultCategory),
      sharedWith := [],
      createdAt := now)
  }

  /** A category that is missing, empty, or only white space is stored as "General". */
  lemma EmptyCategoryDefaults(caller: UserId, id: TodoId, b: TodoBody, now: Millis,
                              parseDate: string -> Option<Millis>)
    requires CreateAccepted(b, parseDate)
    requires b.category.None? || Trim(b.category.value) == ""
    ensures NewTodo(caller, id, b, now, parseDate).category == DefaultCategory
  {
  }

  /** Creating `{ title: "Buy milk", priority: 2 }` stores a pending, medium-priority "General" todo. */
  lemma BuyMilkExample(caller: UserId, id: TodoId, now: Millis, parseDate: string -> Option<Millis>)
    ensures var b := TodoBody(Some("Buy milk"), None, Some(2), NoDate, None, None);
      && CreateAccepted(b, parseDate)
      && var t := NewTodo(caller, id, b, now, parseDate);
      && t.title == "Buy milk" && !t.isCompleted && t.category == DefaultCategory && t.tags == []
      && t.description == "" && t.dueDate.None?
      && Status(t) == "pending" && PriorityString(t.priority) == "Medium"
  {
    var title := "Buy milk";
    assert |title| == 8 && title[0] == 'B' && title[7] == 'k';
    assert !IsSpace(title[0]) && !IsSpace(title[7]);
    assert SpaceRunFrom(title, 0) == 0;
    assert SpaceRunBefore(title, 0, |title|) == |title|;
    assert Trim(title) == title;
    var b := TodoBody(Some(title), None, Some(2), NoDate, None, None);
    assert CreateAccepted(b, parseDate);
  }

  /**
   * The relation between a record `t` and the record `u` the update route makes of it
   * with body `b`: each of the six updatable fields takes the sent value when it was
   * sent, and no other field changes.
   */
  predicate Patched(t: Todo, u: Todo, b: TodoBody, parseDate: string -> Option<Millis>)
  {
    && u.title == (if b.title.Some? then Trim(b.title.value) else t.title)
    && u.description == (if b.description.Some? then Trim(b.description.value) else t.description)
    && u.priority == (if b.priority.Some? then b.priority.value else t.priority)
    && u.dueDate == (if b.dueDate == NoDate then t.dueDate else SentDueDate(b.dueDate, parseDate))
    && u.category == (if b.category.Some? then Trim(b.category.value) else t.category)
    && u.tags == (if b.tags.Some? then TrimAll(b.tags.value) else t.tags)
    && u.id == t.id && u.user == t.user && u.isCompleted == t.isCompleted
    && u.completedAt == t.completedAt && u.sharedWith == t.sharedWith && u.createdAt == t.createdAt
  }

  /** Whether the schema accepts the patched record on save: only over-long tags can fail. */
  lemma {:induction false} PatchedSchemaValid(t: Todo, u: Todo, b: TodoBody,
                                              parseDate: string -> Option<Millis>)
    requires SchemaValid(t) && UpdateAccepted(b, parseDate) && Patched(t, u, b, parseDate)
    ensures SchemaValid(u) <==> b.tags.None? || forall k :: 0 <= k < |b.tags.value| ==> |Trim(b.tags.value[k])| <= MaxTag
  {
    if b.tags.Some? {
      var tags := b.tags.value;
      if !SchemaValid(u) {
        var k :| 0 <= k < |u.tags| && |u.tags[k]| > MaxTag;
        assert |Trim(tags[k])| > MaxTag;
      }
    }
  }

  // ---------------------------------------------------------------------------------------
  // The list route

  /** The values `isBoolean()` accepts. */
  predicate BooleanString(s: string)
  {
    s in {"true", "false", "1", "0"}
  }

  /** Everything the list route demands of its query string. */
  predicate ListAccepted(q: ListParams)
  {
    && (q.isCompleted.None? || BooleanString(q.isCompleted.value))
    && PriorityAccepted(q.priority)
    && TrimmedAtMost(q.category, MaxCategory)
    && TrimmedAtMost(q.search, MaxSearch)
    && (q.page.None? || q.page.value >= 1)
    && (q.limit.None? || 1 <= q.limit.value <= MaxLimit)
  }

  /** The list route's rules, in order. */
  function ListErrors(q: ListParams): (errors: seq<Param>)
    ensures errors == [] <==> ListAccepted(q)
    ensures Page in errors <==> q.page.Some? && q.page.value < 1
    ensures Limit in errors <==> q.limit.Some? && !(1 <= q.limit.value <= MaxLimit)
  {
    Check(q.isCompleted.None? || BooleanString(q.isCompleted.value), IsCompleted)
    + Check(PriorityAccepted(q.priority), Priority)
    + Check(TrimmedAtMost(q.category, MaxCategory), Category)
    + Check(TrimmedAtMost(q.search, MaxSearch), Search)
    + Check(q.page.None? || q.page.value >= 1, Page)
    + Check(q.limit.None? || 1 <= q.limit.value <= MaxLimit, Limit)
  }

  /** How the route reads an accepted `isCompleted`, as written: only "true" is true. */
  function IsCompletedFilterAsWritten(s: string): bool
  {
    s == "true"
  }

  /** "1" passes `isBoolean()` as a spelling of true, yet the route turns it into `false`. */
  lemma OneReadsAsFalseAsWritten()
    ensures BooleanString("1") && !IsCompletedFilterAsWritten("1")
  {
  }

  /** How an accepted `isCompleted` is meant to be read: both spellings of true are true. */
  function IsCompletedFilter(s: string): (r: bool)
    requires BooleanString(s)
    ensures r <==> s != "false" && s != "0"
  {
    s == "true" || s == "1"
  }

  function Truthy(s: Option<string>): Option<string>
  {
    if s.Some? && s.value != "" then s else None
  }

  /** The `options` the list route hands to `findByUser`, from an accepted query string. */
  function ListOptions(q: ListParams): (o: FindOptions)
    requires ListAccepted(q)
    ensures o.isCompleted.Some? <==> q.isCompleted.Some?
    ensures o.isCompleted == Some(true) <==> q.isCompleted == Some("true") || q.isCompleted == Some("1")
    ensures o.priority == q.priority
    ensures o.category.Some? <==> q.category.Some? && Trim(q.category.value) != ""
    ensures o.category.Some? ==> o.category.value == Trim(q.category.value)
    ensures o.search.Some? <==> q.search.Some? && Trim(q.search.value) != ""
    ensures o.search.Some? ==> o.search.value == Trim(q.search.value)
  {
    FindOptions(
      isCompleted := if q.isCompleted.Some? then Some(IsCompletedFilter(q.isCompleted.value)) else None,
      priority := q.priority,
      category := Truthy(TrimOpt(q.category)),
      search := Truthy(TrimOpt(q.search)))
  }
}
