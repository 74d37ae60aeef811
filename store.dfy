/**
 * The todo routes of backend/src/routes/todos.js over an in-memory collection. Each
 * handler validates its input, looks records up by id and owner, changes the collection,
 * and answers with a reply kind instead of an HTTP status.
 */
module Store {
  import opened Wrappers
  import opened Seqs
  import opened Text
  import opened Todos
  import opened Query
  import opened Stats
  import opened Validation
  import opened Pagination

  /** 200/201 with a value, 400 with the failed rules, 404, or 500. */
  datatype Reply<T> = Ok(value: T) | Invalid(errors: seq<Param>) | NotFound | ServerError

  datatype PageInfo = PageInfo(page: int, limit: int, total: nat, pages: nat)

  /** The data of a successful list reply. */
  datatype ListData = ListData(todos: seq<Todo>, pagination: PageInfo, stats: UserStats)

  predicate DistinctIds(a: Todo, b: Todo)
  {
    a.id != b.id
  }

  /** The six fields the update route copies from the body, in the order it copies them. */
  const UpdateFields: seq<Param> := [Title, Description, Priority, DueDate, Category, Tags]

  /** `todo[field] = req.body[field]` when the body carries `field`, through the schema's trim and cast. */
  function SetField(u: Todo, b: TodoBody, f: Param, parseDate: string -> Option<Millis>): Todo
  {
    match f
    case Title => if b.title.Some? then u.(title := Trim(b.title.value)) else u
    case Description => if b.description.Some? then u.(description := Trim(b.description.value)) else u
    case Priority => if b.priority.Some? then u.(priority := b.priority.value) else u
    case DueDate => if b.dueDate != NoDate then u.(dueDate := SentDueDate(b.dueDate, parseDate)) else u
    case Category => if b.category.Some? then u.(category := Trim(b.category.value)) else u
    case Tags => if b.tags.Some? then u.(tags := TrimAll(b.tags.value)) else u
    case _ => u
  }

  /** The body restricted to the first `n` fields of `UpdateFields`: the ones copied so far. */
  function FirstFields(b: TodoBody, n: nat): TodoBody
  {
    TodoBody(
      if n > 0 then b.title else None,
      if n > 1 then b.description else None,
      if n > 2 then b.priority else None,
      if n > 3 then b.dueDate else NoDate,
      if n > 4 then b.category else None,
      if n > 5 then b.tags else None)
  }

  /** Copying field `i` extends a record patched with the first `i` fields to the first `i + 1`. */
  lemma CopyOneMoreField(t: Todo, u: Todo, b: TodoBody, i: nat, parseDate: string -> Option<Millis>)
    requires i < |UpdateFields|
    requires Patched(t, u, FirstFields(b, i), parseDate)
    ensures Patched(t, SetField(u, b, UpdateFields[i], parseDate), FirstFields(b, i + 1), parseDate)
  {
    var f := UpdateFields[i];
    var prev := FirstFields(b, i);
    var next := FirstFields(b, i + 1);
    var v := SetField(u, b, f, parseDate);
    if i == 0 {
      assert f == Title && next == prev.(title := b.title);
      assert v == if b.title.Some? then u.(title := Trim(b.title.value)) else u;
    } else if i == 1 {
      assert f == Description && next == prev.(description := b.description);
      assert v == if b.description.Some? then u.(description := Trim(b.description.value)) else u;
    } else if i == 2 {
      assert f == Priority && next == prev.(priority := b.priority);
      assert v == if b.priority.Some? then u.(priority := b.priority.value) else u;
    } else if i == 3 {
      assert f == DueDate && next == prev.(dueDate := b.dueDate);
      assert v == if b.dueDate != NoDate then u.(dueDate := SentDueDate(b.dueDate, parseDate)) else u;
    } else if i == 4 {
      assert f == Category && next == prev.(category := b.category);
      assert v == if b.category.Some? then u.(category := Trim(b.category.value)) else u;
    } else {
      assert f == Tags && next == prev.(tags := b.tags);
      assert v == if b.tags.Some? then u.(tags := TrimAll(b.tags.value)) else u;
    }
  }

  /** The `updateFields.forEach` loop of the update route, on a copy of the record. */
  method ApplyUpdateFields(t: Todo, b: TodoBody, parseDate: string -> Option<Millis>) returns (u: Todo)
    ensures Patched(t, u, b, parseDate)
  {
    u := t;
    for i := 0 to |UpdateFields|
      invariant Patched(t, u, FirstFields(b, i), parseDate)
    {
      CopyOneMoreField(t, u, b, i, parseDate);
      u := SetField(u, b, UpdateFields[i], parseDate);
    }
    assert FirstFields(b, |UpdateFields|) == b;
  }

  /** The toggle route's change to a record at time `now`. */
  function Toggled(t: Todo, now: Millis): (u: Todo)
    ensures u.isCompleted == !t.isCompleted
    ensures u.completedAt == if u.isCompleted then Some(now) else None
    ensures u.(isCompleted := t.isCompleted, completedAt := t.completedAt) == t
  {
    var u := t.(isCompleted := !t.isCompleted);
    if u.isCompleted then u.(completedAt := Some(now)) else u.(completedAt := None)
  }

  /** Toggling twice restores the completion flag, and a pending record entirely. */
  lemma ToggleTwice(t: Todo, now1: Millis, now2: Millis)
    ensures Toggled(Toggled(t, now1), now2).isCompleted == t.isCompleted
    ensures !t.isCompleted ==> Toggled(Toggled(t, now1), now2) == t.(completedAt := None)
  {
  }

  /**
   * How the record is saved when the schema does not declare `completedAt`: the store
   * keeps only declared paths, so the timestamp the toggle route assigns is lost.
   */
  function SavedWithoutCompletedAt(t: Todo): Todo
  {
    t.(completedAt := None)
  }

  /** Completing a pending todo records `now`, but the undeclared path is not saved. */
  lemma CompletedAtLostAsWritten(t: Todo, now: Millis)
    requires !t.isCompleted
    ensures Toggled(t, now).completedAt == Some(now)
    ensures SavedWithoutCompletedAt(Toggled(t, now)).completedAt == None
  {
  }

  /** What the clear-completed route deletes, and what it keeps. */
  function ClearedBy(u: UserId): Todo -> bool
  {
    (t: Todo) => t.user == u && t.isCompleted
  }

  function KeptAfterClear(u: UserId): Todo -> bool
  {
    (t: Todo) => !(t.user == u && t.isCompleted)
  }

  /** The kept records and the deleted count add up to the collection. */
  lemma {:induction false} ClearSplits(s: seq<Todo>, u: UserId)
    ensures |Filter(s, KeptAfterClear(u))| + Count(s, ClearedBy(u)) == |s|
  {
    if s != [] {
      ClearSplits(s[1..], u);
    }
  }

  /** A window of a sorted sequence is sorted. */
  lemma WindowSorted(s: seq<Todo>, skip: nat, limit: nat)
    requires Sorted(s)
    ensures Sorted(Window(s, skip, limit))
  {
    var w := Window(s, skip, limit);
    forall i, j | 0 <= i < j < |w| ensures Before(w[i], w[j]) {
      assert w[i] == s[skip + i] && w[j] == s[skip + j];
    }
  }

  /** Every record's id was issued before `nextId`, and every record passed the schema. */
  ghost predicate Issued(s: seq<Todo>, nextId: TodoId) {
    forall t :: t in s ==> t.id < nextId && SchemaValid(t)
  }

  /** Appending a schema-valid record with the next id keeps the store's invariant. */
  lemma AppendKeepsInvariant(s: seq<Todo>, nextId: TodoId, t: Todo)
    requires Pairwise(s, DistinctIds) && Issued(s, nextId)
    requires SchemaValid(t) && t.id == nextId
    ensures Pairwise(s + [t], DistinctIds) && Issued(s + [t], nextId + 1)
  {
    AppendKeepsIdsDistinct(s, t);
    assert forall x :: x in s + [t] ==> x == t || x in s;
  }

  /** Appending a record whose id exceeds every stored id keeps ids unique. */
  lemma AppendKeepsIdsDistinct(s: seq<Todo>, t: Todo)
    requires Pairwise(s, DistinctIds)
    requires forall x :: x in s ==> x.id < t.id
    ensures Pairwise(s + [t], DistinctIds)
  {
    var r := s + [t];
    forall i, j | 0 <= i < j < |r| ensures DistinctIds(r[i], r[j]) {
      assert r[i] == s[i];
      if j == |s| {
        assert s[i] in s;
      } else {
        assert r[j] == s[j];
      }
    }
  }

  /** Replacing a record by one with the same id keeps ids unique. */
  lemma ReplaceKeepsIdsDistinct(s: seq<Todo>, k: nat, u: Todo)
    requires k < |s| && u.id == s[k].id
    requires Pairwise(s, DistinctIds)
    ensures Pairwise(s[k := u], DistinctIds)
  {
    var r := s[k := u];
    forall i, j | 0 <= i < j < |r| ensures DistinctIds(r[i], r[j]) {
      assert DistinctIds(s[i], s[j]);
    }
  }

  /** Removing a record keeps ids unique. */
  lemma RemoveKeepsIdsDistinct(s: seq<Todo>, k: nat)
    requires k < |s|
    requires Pairwise(s, DistinctIds)
    ensures Pairwise(s[..k] + s[k + 1..], DistinctIds)
  {
    var r := s[..k] + s[k + 1..];
    forall i, j | 0 <= i < j < |r| ensures DistinctIds(r[i], r[j]) {
      var i', j' := if i < k then i else i + 1, if j < k then j else j + 1;
      assert r[i] == s[i'] && r[j] == s[j'];
      assert DistinctIds(s[i'], s[j']);
    }
  }

  /** The collection of todos, as the routes see it. */
  class TodoStore {
    var todos: seq<Todo>
    /** The id the next created todo receives. */
    var nextId: TodoId

    /** Ids are unique and already issued, and every stored record passed the schema. */
    ghost predicate Valid()
      reads this
    {
      && Pairwise(todos, DistinctIds)
      && Issued(todos, nextId)
    }

    constructor ()
      ensures Valid() && todos == [] && nextId == 0
    {
      todos := [];
      nextId := 0;
    }

    /** `findOne({ _id: id, user: caller })`: the position of the caller's record with that id. */
    method FindOwned(id: TodoId, caller: UserId) returns (k: Option<nat>)
      ensures k.Some? ==> k.value < |todos| && todos[k.value].id == id && todos[k.value].user == caller
      ensures k.None? ==> forall j :: 0 <= j < |todos| ==> !(todos[j].id == id && todos[j].user == caller)
    {
      var i := 0;
      while i < |todos|
        invariant 0 <= i <= |todos|
        invariant forall j :: 0 <= j < i ==> !(todos[j].id == id && todos[j].user == caller)
      {
        if todos[i].id == id && todos[i].user == caller {
          return Some(i);
        }
        i := i + 1;
      }
      return None;
    }

    /** GET /:id: the record with that id when the caller owns it or it is shared with them. */
    method GetOne(id: TodoId, caller: UserId) returns (r: Reply<Todo>)
      ensures r.Ok? || r.NotFound?
      ensures r.Ok? ==> r.value in todos && r.value.id == id && VisibleTo(r.value, caller)
      ensures r.NotFound? ==> forall t :: t in todos && t.id == id ==> !VisibleTo(t, caller)
    {
      var i := 0;
      while i < |todos|
        invariant 0 <= i <= |todos|
        invariant forall j :: 0 <= j < i ==> !(todos[j].id == id && VisibleTo(todos[j], caller))
      {
        if todos[i].id == id && VisibleTo(todos[i], caller) {
          return Ok(todos[i]);
        }
        i := i + 1;
      }
      return NotFound;
    }

    /** POST /: validate, then store a new record owned by the caller. */
    method Create(caller: UserId, b: TodoBody, now: Millis, parseDate: string -> Option<Millis>)
      returns (r: Reply<Todo>)
      requires Valid()
      modifies this
      ensures Valid()
      ensures r.Ok? || r.Invalid?
      ensures r.Invalid? <==> !CreateAccepted(b, parseDate)
      ensures r.Invalid? ==> r.errors == CreateErrors(b, parseDate)
      ensures r.Invalid? ==> todos == old(todos) && nextId == old(nextId)
      ensures r.Ok? ==> && r.value == NewTodo(caller, old(nextId), b, now, parseDate)
                        && todos == old(todos) + [r.value]
                        && nextId == old(nextId) + 1
    {
      var errors := CreateErrors(b, parseDate);
      if errors != [] {
        return Invalid(errors);
      }
      var t := NewTodo(caller, nextId, b, now, parseDate);
      AppendKeepsInvariant(todos, nextId, t);
      todos := todos + [t];
      nextId := nextId + 1;
      r := Ok(t);
    }

    /**
     * PUT /:id: validate, find the caller's record, copy the sent fields, save. The save
     * re-applies the schema, which rejects a tag longer than 20 characters.
     */
    method Update(id: TodoId, caller: UserId, b: TodoBody, parseDate: string -> Option<Millis>)
      returns (r: Reply<Todo>)
      requires Valid()
      modifies this
      ensures Valid() && nextId == old(nextId)
      ensures r.Invalid? <==> !UpdateAccepted(b, parseDate)
      ensures r.Invalid? ==> r.errors == UpdateErrors(b, parseDate)
      ensures r.NotFound? <==> (
        && UpdateAccepted(b, parseDate)
        && forall j :: 0 <= j < |old(todos)| ==> !(old(todos)[j].id == id && old(todos)[j].user == caller))
      ensures r.ServerError? ==> (
        && UpdateAccepted(b, parseDate) && b.tags.Some?
        && exists k :: 0 <= k < |b.tags.value| && |Trim(b.tags.value[k])| > MaxTag)
      ensures !r.Ok? ==> todos == old(todos)
      ensures r.Ok? ==> exists k ::
        && 0 <= k < |old(todos)|
        && old(todos)[k].id == id && old(todos)[k].user == caller
        && Patched(old(todos)[k], r.value, b, parseDate)
        && todos == old(todos)[k := r.value]
    {
      var errors := UpdateErrors(b, parseDate);
      if errors != [] {
        return Invalid(errors);
      }
      var found := FindOwned(id, caller);
      if found.None? {
        return NotFound;
      }
      var k := found.value;
      var u := ApplyUpdateFields(todos[k], b, parseDate);
      assert todos[k] in todos;
      PatchedSchemaValid(todos[k], u, b, parseDate);
      if !SchemaValid(u) {
        return ServerError;
      }
      ghost var before := todos;
      ReplaceKeepsIdsDistinct(todos, k, u);
      todos := todos[k := u];
      assert forall t :: t in todos ==> t == u || t in before;
      r := Ok(u);
    }

    /** PATCH /:id/toggle: flip the caller's record between pending and completed. */
    method Toggle(id: TodoId, caller: UserId, now: Millis) returns (r: Reply<Todo>)
      requires Valid()
      modifies this
      ensures Valid() && nextId == old(nextId)
      ensures r.Ok? || r.NotFound?
      ensures r.NotFound? <==>
        forall j :: 0 <= j < |old(todos)| ==> !(old(todos)[j].id == id && old(todos)[j].user == caller)
      ensures r.NotFound? ==> todos == old(todos)
      ensures r.Ok? ==> exists k ::
        && 0 <= k < |old(todos)|
        && old(todos)[k].id == id && old(todos)[k].user == caller
        && r.value == Toggled(old(todos)[k], now)
        && todos == old(todos)[k := r.value]
    {
      var found := FindOwned(id, caller);
      if found.None? {
        return NotFound;
      }
      var k := found.value;
      var t := todos[k];
      assert t in todos;
      t := t.(isCompleted := !t.isCompleted);
      if t.isCompleted {
        t := t.(completedAt := Some(now));
      } else {
        t := t.(completedAt := None);
      }
      ghost var before := todos;
      ReplaceKeepsIdsDistinct(todos, k, t);
      todos := todos[k := t];
      assert forall x :: x in todos ==> x == t || x in before;
      r := Ok(t);
    }

    /** DELETE /:id: remove the caller's record with that id. */
    method Delete(id: TodoId, caller: UserId) returns (r: Reply<()>)
      requires Valid()
      modifies this
      ensures Valid() && nextId == old(nextId)
      ensures r.Ok? || r.NotFound?
      ensures r.NotFound? <==>
        forall j :: 0 <= j < |old(todos)| ==> !(old(todos)[j].id == id && old(todos)[j].user == caller)
      ensures r.NotFound? ==> todos == old(todos)
      ensures r.Ok? ==> exists k ::
        && 0 <= k < |old(todos)|
        && old(todos)[k].id == id && old(todos)[k].user == caller
        && todos == old(todos)[..k] + old(todos)[k + 1..]
    {
      var found := FindOwned(id, caller);
      if found.None? {
        return NotFound;
      }
      var k := found.value;
      ghost var before := todos;
      RemoveKeepsIdsDistinct(todos, k);
      todos := todos[..k] + todos[k + 1..];
      assert forall x :: x in todos ==> x in before;
      r := Ok(());
    }

    /** DELETE /clear-completed: remove all of the caller's completed records and count them. */
    method ClearCompleted(caller: UserId) returns (r: Reply<nat>)
      requires Valid()
      modifies this
      ensures Valid() && nextId == old(nextId)
      ensures r.Ok?
      ensures todos == Filter(old(todos), KeptAfterClear(caller))
      ensures r.value == Count(old(todos), ClearedBy(caller))
      ensures r.value + |todos| == |old(todos)|
      ensures forall t :: t in old(todos) ==> (t in todos <==> !(t.user == caller && t.isCompleted))
    {
      var deleted := Count(todos, ClearedBy(caller));
      ClearSplits(todos, caller);
      FilterKeepsPairwise(todos, KeptAfterClear(caller), DistinctIds);
      todos := Filter(todos, KeptAfterClear(caller));
      r := Ok(deleted);
    }

    /**
     * GET /: validate the query string, then one page of the caller's matching todos in
     * sort order, the pagination figures, and the caller's statistics. The total counts
     * all of the caller's todos, whatever the filters.
     */
    method List(caller: UserId, q: ListParams, now: Millis, matches: (string, string) -> bool)
      returns (r: Reply<ListData>)
      ensures r.Ok? || r.Invalid?
      ensures r.Invalid? <==> !ListAccepted(q)
      ensures r.Invalid? ==> r.errors == ListErrors(q)
      ensures r.Ok? ==> ListAccepted(q) && var d := r.value;
        && d.pagination.page == (if q.page.Some? then q.page.value else DefaultPage)
        && d.pagination.limit == (if q.limit.Some? then q.limit.value else DefaultLimit)
        && d.pagination.total == Count(todos, OwnedBy(caller))
        && d.pagination.pages == PageCount(d.pagination.total, d.pagination.limit)
        && d.todos == Window(FindByUser(todos, caller, ListOptions(q), matches),
                             Skip(d.pagination.page, d.pagination.limit), d.pagination.limit)
        && |d.todos| <= d.pagination.limit
        && Sorted(d.todos)
        && (forall t :: t in d.todos ==> t in todos && Selected(caller, ListOptions(q), matches, t))
        && d.stats == GetUserStats(todos, caller, now)
    {
      var errors := ListErrors(q);
      if errors != [] {
        return Invalid(errors);
      }
      var page := if q.page.Some? then q.page.value else DefaultPage;
      var limit := if q.limit.Some? then q.limit.value else DefaultLimit;
      var options := ListOptions(q);
      var skip := Skip(page, limit);
      var found := FindByUser(todos, caller, options, matches);
      var shown := Window(found, skip, limit);
      WindowSorted(found, skip, limit);
      var total := Count(todos, OwnedBy(caller));
      var stats := GetUserStats(todos, caller, now);
      r := Ok(ListData(shown, PageInfo(page, limit, total, PageCount(total, limit)), stats));
    }

    /** GET /stats/summary: the caller's statistics. */
    method Summary(caller: UserId, now: Millis) returns (s: UserStats)
      ensures s == GetUserStats(todos, caller, now)
      ensures s.completed + s.pending == s.total && s.overdue <= s.pending
    {
      s := GetUserStats(todos, caller, now);
    }
  }
}
