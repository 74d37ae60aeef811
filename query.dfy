/**
 * The `findByUser` static of backend/src/models/Todo.js: a query object built from optional
 * filters, the documents of the collection that match it, sorted by priority and then by
 * creation time, both descending.
 */
module Query {
  import opened Wrappers
  import opened Seqs
  import opened Todos

  /** The `options` argument. `None` is a key that is not set. */
  datatype FindOptions = FindOptions(
    isCompleted: Option<bool>,
    priority: Option<int>,
    category: Option<string>,
    search: Option<string>)

  /** The query document handed to the store. `None` is a key the query does not constrain. */
  datatype TodoQuery = TodoQuery(
    user: UserId,
    isCompleted: Option<bool>,
    priority: Option<int>,
    category: Option<string>,
    search: Option<string>)

  /**
   * The query document, built by successive conditional assignments. `isCompleted` is
   * tested against `undefined`, so `false` is a filter; the other three are tested for
   * truthiness, so priority 0 and the empty string are no filter.
   */
  function BuildQuery(userId: UserId, o: FindOptions): (q: TodoQuery)
    ensures q.user == userId
    ensures q.isCompleted == o.isCompleted
    ensures q.priority.Some? <==> o.priority.Some? && o.priority.value != 0
    ensures q.category.Some? <==> o.category.Some? && o.category.value != ""
    ensures q.search.Some? <==> o.search.Some? && o.search.value != ""
    ensures q.priority.Some? ==> q.priority == o.priority
    ensures q.category.Some? ==> q.category == o.category
    ensures q.search.Some? ==> q.search == o.search
  {
    var q := TodoQuery(userId, None, None, None, None);
    var q := if o.isCompleted.Some? then q.(isCompleted := o.isCompleted) else q;
    var q := if o.priority.Some? && o.priority.value != 0 then q.(priority := o.priority) else q;
    var q := if o.category.Some? && o.category.value != "" then q.(category := o.category) else q;
    var q := if o.search.Some? && o.search.value != "" then q.(search := o.search) else q;
    q
  }

  /**
   * Whether a document matches a query: every key present must match, and the search
   * pattern must match the title or the description. `matches(pattern, text)` stands for
   * the store's case-insensitive regular-expression test.
   */
  predicate Matches(q: TodoQuery, t: Todo, matches: (string, string) -> bool)
  {
    && t.user == q.user
    && (q.isCompleted.Some? ==> t.isCompleted == q.isCompleted.value)
    && (q.priority.Some? ==> t.priority == q.priority.value)
    && (q.category.Some? ==> t.category == q.category.value)
    && (q.search.Some? ==> matches(q.search.value, t.title) || matches(q.search.value, t.description))
  }

  /** The documents `findByUser(userId, o)` selects, stated filter by filter on the options. */
  predicate Selected(userId: UserId, o: FindOptions, matches: (string, string) -> bool, t: Todo)
  {
    && t.user == userId
    && (o.isCompleted.Some? ==> t.isCompleted == o.isCompleted.value)
    && (o.priority.Some? && o.priority.value != 0 ==> t.priority == o.priority.value)
    && (o.category.Some? && o.category.value != "" ==> t.category == o.category.value)
    && (o.search.Some? && o.search.value != "" ==>
          matches(o.search.value, t.title) || matches(o.search.value, t.description))
  }

  /** The query built from the options selects exactly what the options describe. */
  lemma QueryMeansOptions(userId: UserId, o: FindOptions, matches: (string, string) -> bool, t: Todo)
    ensures Matches(BuildQuery(userId, o), t, matches) <==> Selected(userId, o, matches, t)
  {
  }

  /** With no options, only ownership is checked. */
  lemma NoOptionsSelectsOwner(userId: UserId, matches: (string, string) -> bool, t: Todo)
    ensures Selected(userId, FindOptions(None, None, None, None), matches, t) <==> t.user == userId
  {
  }

  /** The sort order `{ priority: -1, createdAt: -1 }`: `a` may come before `b`. */
  predicate Before(a: Todo, b: Todo)
  {
    a.priority > b.priority || (a.priority == b.priority && a.createdAt >= b.createdAt)
  }

  predicate Sorted(s: seq<Todo>)
  {
    forall i, j :: 0 <= i < j < |s| ==> Before(s[i], s[j])
  }

  /** Places `x` into a sorted sequence. */
  function Insert(x: Todo, s: seq<Todo>): (r: seq<Todo>)
    requires Sorted(s)
    ensures Sorted(r)
    ensures multiset(r) == multiset(s) + multiset{x}
  {
    if s == [] then [x]
    else if Before(x, s[0]) then
      SortedCons(x, s);
      [x] + s
    else
      var rest := Insert(x, s[1..]);
      assert s == [s[0]] + s[1..];
      assert forall y :: y in multiset(rest) ==> Before(s[0], y) by {
        forall y | y in multiset(rest) ensures Before(s[0], y) {
          if y != x {
            assert y in multiset(s[1..]);
            var k :| 0 <= k < |s[1..]| && s[1..][k] == y;
            assert s[k + 1] == y;
          }
        }
      }
      SortedCons(s[0], rest);
      [s[0]] + rest
  }

  /** Putting in front of a sorted sequence an element that may precede all of it keeps it sorted. */
  lemma SortedCons(x: Todo, s: seq<Todo>)
    requires Sorted(s)
    requires forall y :: y in multiset(s) ==> Before(x, y)
    ensures Sorted([x] + s)
  {
    var r := [x] + s;
    forall i, j | 0 <= i < j < |r| ensures Before(r[i], r[j]) {
      assert r[j] == s[j - 1];
      if i == 0 {
        assert r[j] in multiset(s);
      } else {
        assert r[i] == s[i - 1];
      }
    }
  }

  /** The documents of `s` in sort order. */
  function SortByPriority(s: seq<Todo>): (r: seq<Todo>)
    ensures Sorted(r)
    ensures multiset(r) == multiset(s)
  {
    if s == [] then []
    else
      assert s == [s[0]] + s[1..];
      Insert(s[0], SortByPriority(s[1..]))
  }

  /**
   * `findByUser(userId, o)` over the collection `s`: exactly the documents that match the
   * query, each as often as it is stored, in sort order.
   */
  function FindByUser(s: seq<Todo>, userId: UserId, o: FindOptions, matches: (string, string) -> bool): (r: seq<Todo>)
    ensures Sorted(r)
    ensures multiset(r) == multiset(Filter(s, (t: Todo) => Matches(BuildQuery(userId, o), t, matches)))
    ensures forall t :: t in r <==> t in s && Selected(userId, o, matches, t)
  {
    var q := BuildQuery(userId, o);
    var found := Filter(s, (t: Todo) => Matches(q, t, matches));
    var r := SortByPriority(found);
    forall t ensures t in r <==> t in s && Selected(userId, o, matches, t) {
      calc {
        t in r;
        t in multiset(r);
        t in multiset(found);
        t in found;
        t in s && Matches(q, t, matches);
        { QueryMeansOptions(userId, o, matches, t); }
        t in s && Selected(userId, o, matches, t);
      }
    }
    r
  }
}
