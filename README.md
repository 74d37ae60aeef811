# Todo store model

A Dafny model of the todo backend's data layer and request handlers: the `Todo` record and its
derived fields, the owner-scoped `findByUser` query with its filters and sort, the `getUserStats`
aggregation, and the routes that list, fetch, create, update, toggle, delete and clear todos.
The document database is replaced by an in-memory collection: a `TodoStore` class holding a
sequence of records and the next id to issue. Time is an integer `now` in milliseconds passed to
each operation. JavaScript's date parsing is a parameter `parseDate(text)`, and the database's
case-insensitive regular-expression test is a parameter `matches(pattern, text)`.

Files:
- `wrappers.dfy`: `Option`.
- `seqs.dfy`: selecting (`Filter`) and counting (`Count`) over a collection.
- `text.dfy`: JavaScript's `trim`.
- `arith.dfy`: `Math.ceil` of an integer division.
- `todo.dfy`: the record, the schema's save-time constraints and the virtual fields.
- `query.dfy`: `findByUser`.
- `stats.dfy`: `getUserStats`.
- `validation.dfy`: the create, update and list request rules, the values they produce, and the create defaults.
- `pagination.dfy`: skip, limit and page count.
- `store.dfy`: the collection and the route handlers.

Handlers answer with a reply kind instead of an HTTP status: `Ok` (200/201), `Invalid` with the
parameters whose rules failed (400), `NotFound` (404), or `ServerError` (500). The only 500 that
is modelled is the one that follows from the code's own logic. The update route has no rule for
individual tags, so the schema's 20-character tag limit fails the save.

The store invariant `TodoStore.Valid` says that ids are unique and already issued, and that every
stored record meets the schema constraints (`SchemaValid`). Every mutating handler preserves it.

The create and update routes treat some fields differently; the model follows each route as written:
- The update route does not check tag items the way create does. An empty tag is accepted there, and a long one causes a save error.
- On update, an empty category is stored as the empty string. Only create substitutes "General".

## Model

| member | source | states |
|---|---|---|
| Text.Trim | backend/src/routes/todos.js:114-116 | the sanitized value is the input without leading and trailing white space (JavaScript's `\s`), neither end of the result is white space, and only white space was removed |
| Text.TrimIdempotent | backend/src/models/Todo.js:12 | trimming an already trimmed value changes nothing, so the schema's own `trim` after the sanitizer's is harmless |
| Text.TrimAll | backend/src/routes/todos.js:147-150 | each tag is trimmed, in place, with the count unchanged |
| Arith.CeilDiv | backend/src/models/Todo.js:102 | `Math.ceil(a / d)` is the least `r` with `a <= r * d`, so `(r - 1) * d < a <= r * d` |
| Arith.CeilDivUnique | backend/src/routes/todos.js:63 | those bounds determine the ceiling uniquely |
| Todos.Status | backend/src/models/Todo.js:80-82 | "completed" exactly when `isCompleted`, "pending" exactly when not |
| Todos.PriorityString | backend/src/models/Todo.js:85-88 | "Medium" exactly for 2, "High" exactly for 3, "Low" for 1 and for every value outside the table |
| Todos.PriorityColor | backend/src/models/Todo.js:91-94 | orange exactly for 2, red exactly for 3, green for 1 and every other value |
| Todos.ColorMatchesLabel | backend/src/models/Todo.js:85-94 | the colour and the label always name the same level |
| Todos.DaysUntilDue | backend/src/models/Todo.js:97-104 | absent exactly when there is no due date; otherwise the ceiling of the remaining time in days: zero or negative once past, negative from a full day past |
| Todos.SchemaValid | backend/src/models/Todo.js:9-44 | the save-time validators: a title of 1 to 200 characters, a description of at most 1000, a priority among 1, 2 and 3, a category of at most 50 and every tag at most 20; a record failing any of them is not saved |
| Todos.IsOverdue | backend/src/models/Todo.js:107-110 | true exactly when a due date is set, the todo is not completed and `now` is after the due date; never true for a completed todo |
| Todos.OverdueHasNoDaysLeft | backend/src/models/Todo.js:97-110 | an overdue todo has `daysUntilDue <= 0` |
| Todos.DaysLeftMeansNotOverdue | backend/src/models/Todo.js:97-110 | a todo with at least one day left is not overdue |
| Seqs.Filter | backend/src/models/Todo.js:159 | a find keeps exactly the documents satisfying the predicate, never more copies than stored |
| Seqs.FilterMultiplicity | backend/src/models/Todo.js:159 | a find keeps every copy of a matching document and no copy of any other one |
| Seqs.Count | backend/src/models/Todo.js:169-181 | a `$sum` of a `$cond` equals the number of documents kept by the same predicate, and is 0 exactly when none satisfies it |
| Query.BuildQuery | backend/src/models/Todo.js:137-157 | the query always fixes the owner; `isCompleted` is copied whenever set, including false; priority, category and search are copied only when truthy |
| Query.QueryMeansOptions | backend/src/models/Todo.js:138-157 | a todo matches the built query exactly when it is the owner's and meets every truthy filter, with the search applied to title or description |
| Query.NoOptionsSelectsOwner | backend/src/models/Todo.js:137-138 | with no options, exactly the owner's todos are selected |
| Query.Insert | backend/src/models/Todo.js:159 | inserting into a sorted sequence keeps it sorted by priority, then creation time, both descending, and adds exactly one element |
| Query.SortByPriority | backend/src/models/Todo.js:159 | the result is sorted by `{ priority: -1, createdAt: -1 }` and is a permutation of the input |
| Query.FindByUser | backend/src/models/Todo.js:137-160 | the result is sorted, holds exactly the documents matching the query, as a multiset, so with every copy of each (`Seqs.FilterMultiplicity`), and a todo is in it exactly when it is stored, is the owner's and meets every present filter |
| Stats.Tally | backend/src/models/Todo.js:164-184 | over the matched documents: total is their number, completed + pending = total, highPriority <= total, overdue <= pending |
| Stats.TallyCountsConditions | backend/src/models/Todo.js:169-181 | completed counts completed todos, highPriority counts priority 3, and overdue counts exactly the todos the `isOverdue` virtual marks at the same instant |
| Stats.CompletionPercentage | backend/src/models/Todo.js:187 | 0 when there are no todos, otherwise completed / total * 100; always within [0, 100], 100 exactly when all are completed, 0 exactly when none is |
| Stats.GetUserStats | backend/src/models/Todo.js:163-190 | total counts the owner's todos; the counting identities hold; an owner without todos gets all zeros and a 0 percentage |
| Stats.UserStatsCountOwned | backend/src/models/Todo.js:165-181 | each statistic counts its condition over the owner's todos only |
| Validation.CreateErrors | backend/src/routes/todos.js:113-151 | a body is rejected exactly when one of the rules fails: title trimmed to 1..200, description at most 1000, priority 1..3, due date empty or parseable, category at most 50, at most 10 tags, each trimmed tag 1..20; title and due date are reported exactly when they fail |
| Validation.UpdateErrors | backend/src/routes/todos.js:195-229 | the same rules with every field optional and no rule for individual tags |
| Validation.SentDueDate | backend/src/routes/todos.js:127-137 | null and the empty string mean no due date; any other accepted text is stored as its parsed instant |
| Validation.OrElse | backend/src/routes/todos.js:169-172 | `value \|\| fallback`: the fallback exactly when the value is missing or empty |
| Validation.NewTodo | backend/src/routes/todos.js:164-174 | an accepted body yields a record that meets the schema, is owned by the caller, is pending with no completion time and no shares, holds the trimmed title, and takes the defaults '' for description, 1 for priority, null for a missing, null or empty due date (otherwise the parsed instant), "General" for category and [] for tags |
| Validation.BuyMilkExample | backend/src/routes/todos.js:166-174 | `{ title: "Buy milk", priority: 2 }` is accepted and stored pending, "General", no tags, reading "Medium" |
| Validation.EmptyCategoryDefaults | backend/src/routes/todos.js:172 | a missing, empty or blank category is stored as "General" |
| Validation.PatchedSchemaValid | backend/src/routes/todos.js:254-262 | after an accepted update the record still meets the schema exactly when every sent tag, trimmed, is at most 20 characters |
| Validation.ListErrors | backend/src/routes/todos.js:14-20 | a query string is rejected exactly when a rule fails; page is reported exactly when below 1, limit exactly when outside 1..100 |
| Validation.OneReadsAsFalseAsWritten | backend/src/routes/todos.js:37 | "1" passes the boolean rule, yet the code as written turns it into a `false` filter |
| Validation.IsCompletedFilter | backend/src/routes/todos.js:37 | an accepted `isCompleted` reads as true exactly when it is not "false" or "0" |
| Validation.ListOptions | backend/src/routes/todos.js:33-40 | `isCompleted` is set whenever sent and is true exactly for "true" or "1"; priority is passed through; category and search are the trimmed values, and only when non-empty |
| Pagination.Skip | backend/src/routes/todos.js:43 | `skip` is a multiple of `limit` with `skip / limit == page - 1` |
| Pagination.Window | backend/src/routes/todos.js:44-46 | at most `limit` documents, the ones at positions `skip`, `skip + 1`, ... of the sorted result, each drawn from it |
| Pagination.PageCount | backend/src/routes/todos.js:63 | `ceil(total / limit)`: the pages hold the total with less than one page to spare, and there are none exactly when the total is 0 |
| Pagination.PagesCoverAll | backend/src/routes/todos.js:43-63 | every document appears on some reported page, at position `i % limit` of page `i / limit + 1` |
| Store.ApplyUpdateFields | backend/src/routes/todos.js:254-260 | copying the six fields in turn changes exactly the sent ones among title, description, priority, dueDate, category and tags, and nothing else |
| Store.Toggled | backend/src/routes/todos.js:295-300 | the flag is flipped, `completedAt` becomes `now` when the todo becomes completed and null when it becomes pending, and nothing else changes |
| Store.ToggleTwice | backend/src/routes/todos.js:295-300 | toggling twice restores `isCompleted`, and restores a pending todo with `completedAt` null |
| Store.CompletedAtLostAsWritten | backend/src/routes/todos.js:296-302 | completing a pending todo assigns `completedAt = now`, but a save that keeps only the declared paths stores null |
| Store.ClearSplits | backend/src/routes/todos.js:353-360 | the records kept and the deleted count add up to the collection's size |
| Store.WindowSorted | backend/src/routes/todos.js:44-46 | a page of a sorted result is sorted |
| Store.TodoStore.FindOwned | backend/src/routes/todos.js:242-245 | returns a position holding the caller's record with that id, or none exists |
| Store.TodoStore.GetOne | backend/src/routes/todos.js:82-95 | returns a stored record with that id that the caller owns or is shared with; not found exactly when no such record exists |
| Store.TodoStore.Create | backend/src/routes/todos.js:152-176 | rejects exactly the bodies the rules reject, changing nothing; otherwise appends `NewTodo` with a fresh id; the invariant is kept |
| Store.TodoStore.Update | backend/src/routes/todos.js:230-262 | invalid, not found or save error change nothing; not found exactly when the caller owns no record with that id; on success only that record changes, by `Patched` |
| Store.TodoStore.Toggle | backend/src/routes/todos.js:281-302 | owner only; not found changes nothing; otherwise only that record changes, to `Toggled` |
| Store.TodoStore.Delete | backend/src/routes/todos.js:321-333 | removes exactly the record whose id and owner match and keeps the others in order, or reports not found and changes nothing |
| Store.TodoStore.ClearCompleted | backend/src/routes/todos.js:351-360 | removes exactly the caller's completed todos and reports their number, possibly 0; other users' todos and the caller's pending ones stay |
| Store.TodoStore.List | backend/src/routes/todos.js:21-67 | rejects exactly what the rules reject; otherwise one sorted page of at most `limit` matching todos of the caller, defaults page 1 and limit 20, total counting all of the caller's todos, pages = ceil(total / limit), and the caller's statistics |
| Store.TodoStore.Summary | backend/src/routes/todos.js:374-381 | the caller's statistics, with completed + pending = total and overdue <= pending |

## Findings

| source | as written | input that shows it | evidently intended | confidence | as-written member | corrected member |
|---|---|---|---|---|---|---|
| backend/src/routes/todos.js:37 | `isCompleted === 'true'` turns every accepted value except "true" into `false`, while the rule at line 15 accepts "1" as a spelling of true | `GET /?isCompleted=1` lists pending todos | "1" selects completed todos, as the boolean rule reads it | medium; not executed | Validation.OneReadsAsFalseAsWritten | Validation.ListOptions |
| backend/src/routes/todos.js:297 | assigns `completedAt`, a path the schema at backend/src/models/Todo.js:3-72 does not declare; under Mongoose's default strict mode the value is not saved | toggling a pending todo | the completion time is stored, and cleared again on the way back to pending | medium; not executed; relies on the default strict mode | Store.CompletedAtLostAsWritten | Store.Toggled |

The rest of the model uses the corrected behaviour: `List` reads "1" as true, and `Toggle` stores `completedAt`.

## Left out

- backend/src/config/database.js: connection set-up, environment lookup, pool options and process exit are I/O with no logic to state.
- Authentication (`router.use(auth)`): the caller's id is a parameter of every handler.
- The JSON envelope, messages, `console.error`, and 500 replies for database failures. Only the save error that follows from the update route's own rules is modelled.
- Route dispatch: `DELETE /:id` (backend/src/routes/todos.js:321) is registered before `DELETE /clear-completed` (line 351), so Express would hand `clear-completed` to the delete-one handler as an id. `ClearCompleted` is modelled as its own operation.
- The regular-expression search is the parameter `matches`; its case-insensitive pattern language is not modelled.
- `new Date(value)` and the schema's date cast are the parameter `parseDate`. Timestamps are integer milliseconds.
- Stats.CompletionPercentage: uses exact `real` arithmetic, not IEEE doubles, so floating-point rounding of `completed / total * 100` is not modelled.
- Todos.DaysUntilDue: computes the exact integer ceiling, not `Math.ceil` of a floating-point quotient. They agree for all realistic dates.
- `populate('sharedWith.user', 'name email')` joins user documents that are not part of this model.
- The pre-save user-existence check (backend/src/models/Todo.js:121-134) is left out: it reads the users collection, and the caller has already been authenticated.
- Index declarations (backend/src/models/Todo.js:113-118) affect only performance.
- Attachments, notes and the `updatedAt` timestamp are not part of the record.
- Id generation is a counter in the store instead of an ObjectId. `createdAt` is the `now` of the create call.
- The race between read and save in update and toggle is a concurrency matter, and each handler is modelled as one atomic step.
- Query.FindByUser: states the sort order and the exact contents, but not the order among todos with equal priority and creation time, which the database leaves open. The model picks a stable order.
- Store.TodoStore.Create: string lengths count Unicode scalar values, while the validator's `isLength` counts code points minus the variation selectors U+FE0E and U+FE0F, and the schema's `maxlength` counts UTF-16 units. So a title made only of U+FE0F is accepted by the model but rejected with 400 by the validator, and a title of 150 emoji passes the validator, fails the schema on save with a 500, and is answered `Ok` by the model. Store.TodoStore.Update has the same gap.
- Request values are assumed to have the right JSON type: strings, an array of strings, and integers. The list route's numeric query parameters arrive as integers. Explicit `null` is modelled only for `dueDate`, the one field whose rule handles it.
- Validation errors name the failed rule's parameter once. Per-element tag errors and messages are not modelled.
