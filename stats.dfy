/**
 * The `getUserStats` static of backend/src/models/Todo.js: one `$group` pass over the owner's
 * documents summing five conditions, then a completion percentage guarded against zero.
 */
module Stats {
  import opened Seqs
  import opened Todos

  /** The five sums of the `$group` stage. */
  datatype Counts = Counts(total: nat, completed: nat, pending: nat, highPriority: nat, overdue: nat)

  const NoCounts := Counts(0, 0, 0, 0, 0)

  /** The `getUserStats` result: the sums and the derived `completionPercentage`. */
  datatype UserStats = UserStats(
    total: nat, completed: nat, pending: nat, highPriority: nat, overdue: nat,
    completionPercentage: real)

  /** One document's contribution to each sum; `now` is the time the aggregation runs. */
  function Contribution(t: Todo, now: Millis): Counts
  {
    Counts(
      1,
      if t.isCompleted then 1 else 0,
      if t.isCompleted then 0 else 1,
      if t.priority == 3 then 1 else 0,
      if t.dueDate.Some? && now > t.dueDate.value && t.isCompleted == false then 1 else 0)
  }

  function Plus(a: Counts, b: Counts): Counts
  {
    Counts(a.total + b.total, a.completed + b.completed, a.pending + b.pending,
           a.highPriority + b.highPriority, a.overdue + b.overdue)
  }

  /** The `$group` stage over the matched documents `s`. */
  function Tally(s: seq<Todo>, now: Millis): (c: Counts)
    ensures c.total == |s|
    ensures c.completed + c.pending == c.total
    ensures c.highPriority <= c.total
    ensures c.overdue <= c.pending
  {
    if s == [] then NoCounts else Plus(Contribution(s[0], now), Tally(s[1..], now))
  }

  predicate Done(t: Todo) { t.isCompleted }

  predicate HighPriority(t: Todo) { t.priority == 3 }

  function OverdueAt(now: Millis): Todo -> bool
  {
    (t: Todo) => IsOverdue(t, now)
  }

  /**
   * Each sum counts the documents satisfying its condition, and the overdue sum agrees
   * with the `isOverdue` virtual at the same instant.
   */
  lemma {:induction false} TallyCountsConditions(s: seq<Todo>, now: Millis)
    ensures Tally(s, now).completed == Count(s, Done)
    ensures Tally(s, now).highPriority == Count(s, HighPriority)
    ensures Tally(s, now).overdue == Count(s, OverdueAt(now))
  {
    if s != [] {
      TallyCountsConditions(s[1..], now);
    }
  }

  /** The completion percentage, zero when there is nothing to divide by. */
  function CompletionPercentage(completed: nat, total: nat): (p: real)
    requires completed <= total
    ensures 0.0 <= p <= 100.0
    ensures total == 0 ==> p == 0.0
    ensures total > 0 ==> p == (completed as real / total as real) * 100.0
    ensures p == 100.0 <==> total > 0 && completed == total
    ensures p == 0.0 <==> completed == 0
  {
    if total > 0 then
      var p := (completed as real / total as real) * 100.0;
      assert completed as real / total as real <= 1.0;
      p
    else 0.0
  }

  /**
   * `getUserStats(userId)` over the collection `s` at time `now`. With no documents the
   * aggregation yields nothing and every field falls back to 0.
   */
  function GetUserStats(s: seq<Todo>, userId: UserId, now: Millis): (r: UserStats)
    ensures r.total == Count(s, OwnedBy(userId))
    ensures r.completed + r.pending == r.total
    ensures r.highPriority <= r.total
    ensures r.overdue <= r.pending
    ensures r.total == 0 ==> r == UserStats(0, 0, 0, 0, 0, 0.0)
    ensures 0.0 <= r.completionPercentage <= 100.0
    ensures r.completionPercentage == CompletionPercentage(r.completed, r.total)
  {
    var owned := Filter(s, OwnedBy(userId));
    var c := Tally(owned, now);
    assert c.total == Count(s, OwnedBy(userId));
    var p := CompletionPercentage(c.completed, c.total);
    UserStats(c.total, c.completed, c.pending, c.highPriority, c.overdue, p)
  }

  /** What each field of the statistics counts, over the owner's todos. */
  lemma UserStatsCountOwned(s: seq<Todo>, userId: UserId, now: Millis)
    ensures var owned := Filter(s, OwnedBy(userId));
      && GetUserStats(s, userId, now).completed == Count(owned, Done)
      && GetUserStats(s, userId, now).highPriority == Count(owned, HighPriority)
      && GetUserStats(s, userId, now).overdue == Count(owned, OverdueAt(now))
  {
    TallyCountsConditions(Filter(s, OwnedBy(userId)), now);
  }
}
