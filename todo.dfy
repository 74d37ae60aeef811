/**
 * The todo record of backend/src/models/Todo.js: its stored fields, the constraints the
 * schema checks on save, and the derived ("virtual") fields computed from a record.
 */
module Todos {
  import opened Wrappers
  import opened Arith

  type UserId = nat
  type TodoId = nat
  /** A point in time, in milliseconds since the epoch, as a JavaScript `Date` holds it. */
  type Millis = int

  const MillisPerDay: int := 1000 * 60 * 60 * 24

  datatype Permission = Read | Write | Admin

  /** One entry of `sharedWith`: a user the owner granted access to. */
  datatype Share = Share(user: UserId, permission: Permission)

  /**
   * A stored todo. `completedAt` is the timestamp the toggle handler records; `createdAt`
   * is the timestamp the store adds on creation. Attachments and notes are not modelled.
   */
  datatype Todo = Todo(
    id: TodoId,
    user: UserId,
    title: string,
    description: string,
    isCompleted: bool,
    completedAt: Option<Millis>,
    priority: int,
    dueDate: Option<Millis>,
    tags: seq<string>,
    category: string,
    sharedWith: seq<Share>,
    createdAt: Millis)

  const MaxTitle := 200
  const MaxDescription := 1000
  const MaxCategory := 50
  const MaxTag := 20

  /** The constraints the schema enforces when a record is saved (required, maxlength, enum). */
  predicate SchemaValid(t: Todo)
  {
    && 1 <= |t.title| <= MaxTitle
    && |t.description| <= MaxDescription
    && t.priority in {1, 2, 3}
    && |t.category| <= MaxCategory
    && (forall k :: 0 <= k < |t.tags| ==> |t.tags[k]| <= MaxTag)
  }

  /** The todos of one owner, as a predicate to select or count with. */
  function OwnedBy(u: UserId): Todo -> bool
  {
    (t: Todo) => t.user == u
  }

  /** Visibility for a single fetch: the owner, or a user the todo is shared with. */
  predicate VisibleTo(t: Todo, u: UserId)
  {
    t.user == u || exists k :: 0 <= k < |t.sharedWith| && t.sharedWith[k].user == u
  }

  // ---------------------------------------------------------------------------------------
  // Virtual fields

  /** The `status` virtual. */
  function Status(t: Todo): (r: string)
    ensures r == "completed" <==> t.isCompleted
    ensures r == "pending" <==> !t.isCompleted
  {
    if t.isCompleted then "completed" else "pending"
  }

  /** The `priorityString` virtual: a lookup table with "Low" for anything not in it. */
  function PriorityString(priority: int): (r: string)
    ensures r in {"Low", "Medium", "High"}
    ensures r == "Medium" <==> priority == 2
    ensures r == "High" <==> priority == 3
    ensures r == "Low" <==> priority != 2 && priority != 3
  {
    match priority
    case 1 => "Low"
    case 2 => "Medium"
    case 3 => "High"
    case _ => "Low"
  }

  const Green := "#4CAF50"
  const Orange := "#FF9800"
  const Red := "#F44336"

  /** The `priorityColor` virtual: a lookup table with green for anything not in it. */
  function PriorityColor(priority: int): (r: string)
    ensures r in {Green, Orange, Red}
    ensures r == Orange <==> priority == 2
    ensures r == Red <==> priority == 3
    ensures r == Green <==> priority != 2 && priority != 3
  {
    match priority
    case 1 => Green
    case 2 => Orange
    case 3 => Red
    case _ => Green
  }

  /** Colour and label always describe the same level. */
  lemma ColorMatchesLabel(priority: int)
    ensures PriorityColor(priority) == Green <==> PriorityString(priority) == "Low"
    ensures PriorityColor(priority) == Orange <==> PriorityString(priority) == "Medium"
    ensures PriorityColor(priority) == Red <==> PriorityString(priority) == "High"
  {
  }

  /**
   * The `daysUntilDue` virtual at time `now`: absent without a due date, otherwise the
   * number of started days until the due date: zero or negative once it has passed,
   * negative from a full day past.
   */
  function DaysUntilDue(t: Todo, now: Millis): (r: Option<int>)
    ensures r.None? <==> t.dueDate.None?
    ensures r.Some? ==> (r.value - 1) * MillisPerDay < t.dueDate.value - now <= r.value * MillisPerDay
  {
    match t.dueDate
    case None => None
    case Some(due) => Some(CeilDiv(due - now, MillisPerDay))
  }

  /** The `isOverdue` virtual at time `now`. */
  function IsOverdue(t: Todo, now: Millis): (r: bool)
    ensures r <==> t.dueDate.Some? && !t.isCompleted && now > t.dueDate.value
    ensures t.isCompleted ==> !r
  {
    if t.dueDate.None? || t.isCompleted then false else now > t.dueDate.value
  }

  /** An overdue todo has no days left: its `daysUntilDue` is zero or negative. */
  lemma {:induction false} OverdueHasNoDaysLeft(t: Todo, now: Millis)
    requires IsOverdue(t, now)
    ensures DaysUntilDue(t, now).Some? && DaysUntilDue(t, now).value <= 0
  {
    var d := DaysUntilDue(t, now).value;
    if d > 0 {
      MulMonotone(1, d, MillisPerDay);
    }
  }

  /** A pending todo with a due date and at least one day left is not overdue. */
  lemma {:induction false} DaysLeftMeansNotOverdue(t: Todo, now: Millis)
    requires DaysUntilDue(t, now).Some? && DaysUntilDue(t, now).value >= 1
    ensures !IsOverdue(t, now)
  {
    var d := DaysUntilDue(t, now).value;
    MulMonotone(0, d - 1, MillisPerDay);
  }
}
