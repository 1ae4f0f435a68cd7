# Task tracker: the task table, its routes and the client's list logic

This project models the core of a single-user task tracker in Dafny:

- **`TaskStore`** (`store.dfy`). This is the `tasks` table and the five `TaskDB` operations of `database.js`. The table is a class `TaskDB` whose field `rows` maps the primary key `id` to its row. Each operation is a method:
  - `GetAllTasks` lists the rows as tasks, newest `created_at` first;
  - `GetTaskById` returns the task or nothing;
  - `CreateTask` inserts, and rejects a duplicate id the way SQLite's primary key does;
  - `UpdateTask` overwrites the six editable columns, and rejects a missing id with "任务未找到";
  - `DeleteTask` removes the row, and rejects a missing id the same way.

  Rows keep the table's column names (`due_date` and so on). `ToTask` is the renaming to the JSON field names (`dueDate` and so on).
- **`TaskApi`** (`api.dfy`). These are the task routes of `server.js`:
  - create validates the title and fills in defaults;
  - update merges the body over the stored task;
  - store rejections map to status codes;
  - the webhook route checks the URL before it looks up the task.

  Each route is a method that calls the store in the source's order. The pure decisions are the functions `NewTask` and `Merge`. A body field is `Undefined`, `JsonNull` or `Str(s)`. Truthiness (`x || y`) and presence (`x !== undefined`) therefore give different answers on `null` and `""`, as they do in JavaScript.
- **`TaskList`** (`client.dfy`). This is the list logic of `public/script.js`:
  - the `filterTasks` predicate and `matchesTimeFilter`;
  - the `updateStatistics` counters;
  - the `getDueDateInfo` badge;
  - the two label maps.

  Dates are whole day numbers.
- **`Wrappers`** (`wrappers.dfy`) holds `Option` and `Result`.

The code has no projects, no project statistics and no password check. A created task has no `projectId`. On update, `description` and `dueDate` follow the presence rule. `title`, `priority` and `status` follow the truthiness rule. The update route does not strictly increase `updatedAt`: it writes whatever the clock gives.

## Model

| member | source | states |
|---|---|---|
| `TaskStore.TaskDB.GetAllTasks` | database.js:89-111 | the result lists every stored row exactly once, renamed to task fields, with distinct ids, ordered by `createdAt` descending (ties in any order) |
| `TaskStore.TaskDB.GetTaskById` | database.js:114-137 | a task is returned exactly when a row has the id, and it is that row renamed; a missing id gives nothing, not an error |
| `TaskStore.TaskDB.CreateTask` | database.js:140-163 | a new id adds exactly the inserted row (with `updated_at` NULL) and resolves with the given task; an existing id rejects with the primary-key error and leaves the table unchanged |
| `TaskStore.TaskDB.UpdateTask` | database.js:166-192 | an existing id gets its editable columns overwritten and every other row is unchanged; a missing id rejects with "任务未找到" and changes nothing |
| `TaskStore.TaskDB.DeleteTask` | database.js:195-208 | an existing id removes exactly that row; a missing id rejects with "任务未找到" and leaves the table unchanged |
| `TaskStore.CreateThenRead` | database.js:140-162 | after inserting a task under a fresh id, reading the id back gives the same task with no `updatedAt`; a duplicate id reads back the old row |
| `TaskStore.ToTask` | database.js:97-106 | the task carries the row's values, with `due_date`, `created_at` and `updated_at` renamed to `dueDate`, `createdAt` and `updatedAt` |
| `TaskStore.InsertRow` | database.js:142-154 | the inserted row has the task's id and NULL `updated_at`, and renaming it back gives the task with `updatedAt` unset |
| `TaskStore.ApplyUpdates` | database.js:168-181 | the updated row keeps its `id` and `created_at` and takes the supplied update time |
| `TaskStore.UpdateWritesOnlyEditableColumns` | database.js:168-181 | an update keeps `id` and `created_at`, and sets title, description, priority, status, due date and `updated_at` to the supplied values |
| `TaskApi.OrElse` | server.js:42-45 | the JavaScript fallback `v or fallback` is the body value exactly when it is a non-empty string, otherwise the fallback |
| `TaskApi.Merge` | server.js:71-78 | the update time is now; title, priority and status are the stored value or a supplied non-empty string; description and due date differ from the stored value only when the body supplies them (the full rules are the Merge lemmas below) |
| `TaskApi.NewTask` | server.js:33-47 | creation fails exactly when the title is not a non-empty string, with the title-required message; otherwise the task has the given id and title, status "pending", the creation time and no update time (the source's object has no `updatedAt` key at all; the model writes `Null` for that absence) |
| `TaskApi.NewTaskDefaults` | server.js:42-45 | an omitted, null or empty description or due date becomes "", and an omitted, null or empty priority becomes "medium"; supplied values are kept |
| `TaskApi.NewTaskIgnoresStatus` | server.js:33 | the created task does not depend on a status in the body |
| `TaskApi.MergeTruthinessFields` | server.js:72-75 | title, priority and status keep the stored value unless the body's value is a non-empty string |
| `TaskApi.MergePresenceFields` | server.js:73-76 | description and due date keep the stored value only when omitted; an explicit null writes NULL and an explicit string, "" included, overwrites |
| `TaskApi.EmptyStringSplitsTheRules` | server.js:72-73 | an explicit "" leaves the title as it was but clears the description |
| `TaskApi.MergeEmptyBodyKeepsFields` | server.js:71-78 | a body that supplies nothing writes back every editable field unchanged, with the new update time |
| `TaskApi.MergeIdempotent` | server.js:71-80 | repeating the same update over the re-read task writes the same fields; only the update time differs |
| `TaskApi.ErrorResponse` | server.js:85-91 | a rejection whose message is "任务未找到" maps to 404 with that message; any other maps to 500 with the route's message |
| `TaskApi.NatToString` | server.js:181 | the template literal prints a status as a non-empty string of decimal digits |
| `TaskApi.NatToStringValue` | server.js:181 | the printed digits denote exactly the status number, with no leading zero |
| `TaskApi.DeliveryError` | server.js:178-186 | a transport failure passes its own message through; a non-2xx answer becomes "WebHook请求失败: " followed by the status's digits |
| `TaskApi.ListTasks` | server.js:21-29 | GET answers 200 with the store's listing |
| `TaskApi.CreateTaskRoute` | server.js:32-56 | a missing or empty title gives 400 and no row; otherwise a fresh id stores the defaulted task and answers 201 with it; a duplicate id gives 500 and no change |
| `TaskApi.UpdateTaskRoute` | server.js:59-93 | an unknown id gives 404 and no change; otherwise the merged fields are written with `updatedAt` = now, and the 200 answer is the re-read task, which equals the merged fields with the original id and creation time |
| `TaskApi.DeleteTaskRoute` | server.js:96-110 | an existing id is removed with 204 and no body; an unknown id gives 404 and no change |
| `TaskApi.WebhookRoute` | server.js:113-188 | a missing or empty URL gives 400 whatever the store holds, and nothing is sent; an unknown task gives 404 and nothing is sent; otherwise the stored task is sent, and the answer is 200 on delivery and 500 with the prefixed failure message otherwise |
| `TaskList.Lower` | public/script.js:175 | lowercasing keeps the length, leaves no ASCII capital, and changes only capitals, each to its lower-case letter |
| `TaskList.Contains` | public/script.js:181-182 | `includes` holds for the empty term, and only for terms no longer than the text (full characterisation in `ContainsIffOccurs`) |
| `TaskList.ContainsIffOccurs` | public/script.js:181-182 | `includes` holds exactly when the term occurs at some position of the text |
| `TaskList.EmptySearchMatches` | public/script.js:181 | the empty search term is included in every title |
| `TaskList.MatchesTimeFilter` | public/script.js:194-236 | a task without a due date matches no time filter; a task with a due date matches any unknown filter value; an unparseable date matches only unknown filter values; the windows themselves are `TimeFilterWindows` |
| `TaskList.TimeFilterWindows` | public/script.js:206-231 | for a dated task, 'today' accepts exactly today, 'upcoming' the 3 days from today, 'week' the 7 days from today, 'overdue' every earlier day, and 'month' the days from the first of this month up to the first of the next |
| `TaskList.TimeWindowsNest` | public/script.js:206-231 | 'today' lies within 'upcoming', which lies within 'week'; 'today' lies within 'month'; 'overdue' meets none of 'today', 'upcoming' and 'week' |
| `TaskList.Matches` | public/script.js:180-187 | with nothing set every task matches; a matching task has the selected status and priority, and a due date when a time filter is set |
| `TaskList.FilterTasks` | public/script.js:180-188 | every shown task is a loaded task that the predicate accepts, with the selected status and priority when those filters are set |
| `TaskList.FilterIsSubsequence` | public/script.js:180-188 | the shown tasks are an order-preserving subsequence of the loaded tasks |
| `TaskList.FilterKeepsEveryMatch` | public/script.js:180-188 | every loaded task that the predicate accepts is shown |
| `TaskList.FilterKeepsMultiplicity` | public/script.js:180-188 | a matching task is shown as many times as it is loaded, and a non-matching one not at all |
| `TaskList.FilterWithNothingSetIsIdentity` | public/script.js:181-185 | with an empty search and no filter set, all loaded tasks are shown, in order |
| `TaskList.CountStatus` | public/script.js:143-145 | a count is at most the number of tasks, zero when no task has the status, and the number of tasks when all have it |
| `TaskList.StatusCountsBound` | public/script.js:142-145 | pending + in progress + completed is at most the total, and equal to it when every status is one of the three |
| `TaskList.Statistics` | public/script.js:141-151 | the total is the number of tasks, each counter is the number of tasks with that status, and the three counters sum to at most the total (to exactly the total when all statuses are known) |
| `TaskList.CountIsStatusFilterSize` | public/script.js:143-145 | each status counter equals the number of tasks that the status filter alone shows |
| `TaskList.GetDueDateInfo` | public/script.js:114-138 | no due date gives no badge; a past day is "overdue" with its distance; today to three days ahead is "due-soon", with today's note exactly on the day itself; anything else, and an unparseable date, is the plain badge with no note |
| `TaskList.BadgeAgreesWithTimeFilter` | public/script.js:125-132 | measured in whole days from the same today, the overdue badge and the 'overdue' filter agree; 'upcoming' tasks are badged due-soon and due-soon tasks fall within 'week'; the third day ahead is due-soon but not 'upcoming' |
| `TaskList.GetPriorityText` | public/script.js:394-401 | the three known priorities map to their labels, and any other value is returned unchanged |
| `TaskList.GetStatusText` | public/script.js:403-410 | the three known statuses map to their labels, and any other value is returned unchanged |

## Left out

- The SQLite connection, table creation, sample-data seeding and closing on SIGINT are not modelled. They are I/O and process lifecycle.
- SQLite failures other than the primary-key violation are not modelled. These include I/O errors and a locked database. As a result, the 500 answers of GET, PUT and DELETE have no cause in the model. `ErrorResponse` still maps any non-not-found message to 500.
- Request bodies are strings, `null` or missing. Numbers, booleans, objects and arrays in a body are not modelled, so neither is SQLite's storage of them in TEXT columns.
- The routes are modelled as running one at a time. In the source, another request can run at every `await`, and two outcomes of that interleaving are not modelled. A DELETE between PUT's first read and its write makes `updateTask` reject with "任务未找到", and PUT answers 404 (server.js:65-88). A DELETE between PUT's write and its read-back makes PUT answer 200 with a `null` body (server.js:80-84). In the model, the PUT route's not-found branch after the write is unreachable.
- Express routing, the middleware, static files and `app.listen` are not modelled. `uuidv4` and `new Date().toISOString()` become the route parameters `id` and `now`.
- The webhook's markdown message and its emoji label maps are not modelled, nor is the `toLocaleString` formatting of its timestamps. The `node-fetch` request is reduced to the task handed to the notifier and a `Delivery` outcome given as a parameter.
- In the client, the DOM, modals, toasts, `localStorage`, `fetch`, `escapeHtml`, `formatDate` and the global variables are not modelled. Neither are the badge's date text and its HTML.
- Dates are whole day numbers. `new Date(dueDate)` parses a date-only string as UTC midnight but compares it with local midnight, and that time-zone offset is not modelled. Neither is the rounding of `Math.ceil`. The 'month' window comes from the `Calendar` parameter. The badge measures from the current instant while the time filter measures from local midnight, so outside UTC the two can disagree near midnight; both are given the same `today` here.
- `Lower` folds ASCII letters only. `toLowerCase` folds all of Unicode.
- `TaskList.Card` has a string description. A task whose description was set to NULL through a direct PUT with `null` would make the source's search throw when the title does not match. That case is not modelled.
- `GetPriorityText` and `GetStatusText` do not model keys inherited from `Object.prototype`, such as `"toString"`. On those keys the source returns a function rather than the key.
- Projects, project statistics and the password gate are not implemented in the modelled files.
- `config.js` (static constants) and `start.js` (directory creation) are not modelled.
