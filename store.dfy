/**
 * The task table and the five operations of `TaskDB` (database.js).
 * The SQLite table is a map from the primary key `id` to its row; every
 * statement becomes a method that reads or reassigns that map.
 */
module TaskStore {
  import opened Wrappers

  /** A nullable TEXT column: SQL NULL or a string. */
  datatype Cell = Null | Text(s: string)

  /** One row of the `tasks` table, with the table's own column names. */
  datatype Row = Row(
    id: string,
    title: string,
    description: Cell,
    priority: string,
    status: string,
    due_date: Cell,
    created_at: string,
    updated_at: Cell)

  /** A task as the API hands it out: the row with camel-case field names. */
  datatype Task = Task(
    id: string,
    title: string,
    description: Cell,
    priority: string,
    status: string,
    dueDate: Cell,
    createdAt: string,
    updatedAt: Cell)

  /** The values one UPDATE statement writes into a row. */
  datatype Updates = Updates(
    title: string,
    description: Cell,
    priority: string,
    status: string,
    dueDate: Cell,
    updatedAt: string)

  /** A rejection, identified by its message as the callers compare it. */
  datatype DbError = DbError(message: string)

  const NotFoundMessage: string := "任务未找到"
  const NotFound: DbError := DbError(NotFoundMessage)
  /** SQLite's rejection of a second row with the same primary key. */
  const DuplicateId: DbError := DbError("SQLITE_CONSTRAINT: UNIQUE constraint failed: tasks.id")

  // ---------------------------------------------------------------------
  // Field mapping between rows and tasks

  /** The row-to-JSON renaming of getAllTasks and getTaskById. */
  function ToTask(r: Row): (t: Task)
    ensures t.id == r.id && t.dueDate == r.due_date && t.createdAt == r.created_at && t.updatedAt == r.updated_at
    ensures t.title == r.title && t.description == r.description && t.priority == r.priority && t.status == r.status
  {
    Task(r.id, r.title, r.description, r.priority, r.status, r.due_date, r.created_at, r.updated_at)
  }

  /** The row that INSERT writes for a task: `updated_at` is not among the inserted columns. */
  function InsertRow(t: Task): (r: Row)
    ensures r.id == t.id && r.updated_at == Null
    ensures ToTask(r) == t.(updatedAt := Null)
  {
    Row(t.id, t.title, t.description, t.priority, t.status, t.dueDate, t.createdAt, Null)
  }

  /** The row after `UPDATE tasks SET title = ?, ..., updated_at = ? WHERE id = ?`. */
  function ApplyUpdates(r: Row, u: Updates): (r': Row)
    ensures r'.id == r.id && r'.created_at == r.created_at
    ensures r'.updated_at == Text(u.updatedAt)
  {
    r.(title := u.title, description := u.description, priority := u.priority,
       status := u.status, due_date := u.dueDate, updated_at := Text(u.updatedAt))
  }

  /** An update writes exactly the six editable columns; `id` and `created_at` keep their values. */
  lemma UpdateWritesOnlyEditableColumns(r: Row, u: Updates)
    ensures ApplyUpdates(r, u).id == r.id
    ensures ApplyUpdates(r, u).created_at == r.created_at
    ensures ToTask(ApplyUpdates(r, u)) ==
      Task(r.id, u.title, u.description, u.priority, u.status, u.dueDate, r.created_at, Text(u.updatedAt))
  {
  }

  // ---------------------------------------------------------------------
  // ORDER BY created_at DESC

  /**
   * Lexicographic order on strings, the order SQLite's BINARY collation
   * gives TEXT columns (UTF-8 byte order agrees with code-point order).
   */
  predicate StrLe(a: string, b: string) {
    a == [] || (b != [] && (a[0] < b[0] || (a[0] == b[0] && StrLe(a[1..], b[1..]))))
  }

  lemma {:induction false} StrLeTotal(a: string, b: string)
    ensures StrLe(a, b) || StrLe(b, a)
  {
    if a != [] && b != [] && a[0] == b[0] {
      StrLeTotal(a[1..], b[1..]);
    }
  }

  lemma {:induction false} StrLeTransitive(a: string, b: string, c: string)
    requires StrLe(a, b) && StrLe(b, c)
    ensures StrLe(a, c)
  {
    if a != [] && b != [] && c != [] && a[0] == b[0] && b[0] == c[0] {
      StrLeTransitive(a[1..], b[1..], c[1..]);
    }
  }

  /** Newest `createdAt` first: no later task has a greater creation time than an earlier one. */
  ghost predicate NewestFirst(s: seq<Task>) {
    forall i, j | 0 <= i < j < |s| :: StrLe(s[j].createdAt, s[i].createdAt)
  }

  ghost predicate DistinctIds(s: seq<Task>) {
    forall i, j | 0 <= i < j < |s| :: s[i].id != s[j].id
  }

  /** Inserts `t` in front of the first task that is not newer than it. */
  function Insert(t: Task, s: seq<Task>): (r: seq<Task>)
    ensures multiset(r) == multiset(s) + multiset{t}
    ensures |r| == |s| + 1
  {
    if s == [] || StrLe(s[0].createdAt, t.createdAt) then [t] + s
    else
      assert s == [s[0]] + s[1..];
      [s[0]] + Insert(t, s[1..])
  }

  lemma {:induction false} InsertKeepsNewestFirst(t: Task, s: seq<Task>)
    requires NewestFirst(s)
    ensures NewestFirst(Insert(t, s))
  {
    if s == [] {
    } else if StrLe(s[0].createdAt, t.createdAt) {
      forall j | 0 <= j < |s| ensures StrLe(s[j].createdAt, t.createdAt) {
        if j > 0 {
          StrLeTransitive(s[j].createdAt, s[0].createdAt, t.createdAt);
        }
      }
    } else {
      var tail := Insert(t, s[1..]);
      InsertKeepsNewestFirst(t, s[1..]);
      StrLeTotal(s[0].createdAt, t.createdAt);
      forall j | 0 <= j < |tail| ensures StrLe(tail[j].createdAt, s[0].createdAt) {
        assert tail[j] in multiset(tail);
        if tail[j] != t {
          assert tail[j] in multiset(s[1..]);
          var k :| 0 <= k < |s[1..]| && s[1..][k] == tail[j];
          assert s[k + 1] == tail[j];
        }
      }
    }
  }

  lemma {:induction false} InsertKeepsDistinctIds(t: Task, s: seq<Task>)
    requires DistinctIds(s)
    requires forall i | 0 <= i < |s| :: s[i].id != t.id
    ensures DistinctIds(Insert(t, s))
  {
    if s == [] || StrLe(s[0].createdAt, t.createdAt) {
    } else {
      var tail := Insert(t, s[1..]);
      InsertKeepsDistinctIds(t, s[1..]);
      forall j | 0 <= j < |tail| ensures tail[j].id != s[0].id {
        assert tail[j] in multiset(tail);
        if tail[j] != t {
          assert tail[j] in multiset(s[1..]);
          var k :| 0 <= k < |s[1..]| && s[1..][k] == tail[j];
          assert s[k + 1] == tail[j];
        }
      }
    }
  }

  /**
   * `tasks` is what `SELECT * FROM tasks ORDER BY created_at DESC` yields for
   * `rows`: every row exactly once, as a task, newest first.
   */
  ghost predicate IsListing(tasks: seq<Task>, rows: map<string, Row>) {
    && |tasks| == |rows|
    && (forall i | 0 <= i < |tasks| :: tasks[i].id in rows && tasks[i] == ToTask(rows[tasks[i].id]))
    && (forall id | id in rows :: ToTask(rows[id]) in tasks)
    && DistinctIds(tasks)
    && NewestFirst(tasks)
  }

  /** The listing of the rows whose ids are in `done`, as built so far. */
  ghost predicate PartialListing(tasks: seq<Task>, rows: map<string, Row>, done: set<string>) {
    && done <= rows.Keys
    && |tasks| == |done|
    && (forall i | 0 <= i < |tasks| :: tasks[i].id in done && tasks[i] == ToTask(rows[tasks[i].id]))
    && (forall id | id in done :: ToTask(rows[id]) in tasks)
    && DistinctIds(tasks)
    && NewestFirst(tasks)
  }

  /** Inserting one more row keeps a partial listing a partial listing. */
  lemma ListingStep(tasks: seq<Task>, rows: map<string, Row>, done: set<string>, id: string)
    requires forall k | k in rows :: rows[k].id == k
    requires PartialListing(tasks, rows, done)
    requires id in rows && id !in done
    ensures PartialListing(Insert(ToTask(rows[id]), tasks), rows, done + {id})
  {
    var t := ToTask(rows[id]);
    InsertKeepsNewestFirst(t, tasks);
    InsertKeepsDistinctIds(t, tasks);
    var next := Insert(t, tasks);
    forall i | 0 <= i < |next|
      ensures next[i].id in done + {id} && next[i] == ToTask(rows[next[i].id])
    {
      assert next[i] in multiset(next);
    }
    forall k | k in done + {id} ensures ToTask(rows[k]) in next {
      if k != id {
        assert ToTask(rows[k]) in multiset(tasks);
      }
      assert ToTask(rows[k]) in multiset(next);
    }
  }

  /** A partial listing of all the keys is the listing. */
  lemma ListingComplete(tasks: seq<Task>, rows: map<string, Row>)
    requires PartialListing(tasks, rows, rows.Keys)
    ensures IsListing(tasks, rows)
  {
  }

  // ---------------------------------------------------------------------
  // The table

  class TaskDB {
    /** The rows of the `tasks` table, keyed by the primary key. */
    var rows: map<string, Row>

    /** Each row is stored under its own id. */
    ghost predicate Valid()
      reads this
    {
      forall id | id in rows :: rows[id].id == id
    }

    constructor ()
      ensures Valid() && rows == map[]
    {
      rows := map[];
    }

    /** getAllTasks: every task once, newest `createdAt` first (ties in any order). */
    method GetAllTasks() returns (tasks: seq<Task>)
      requires Valid()
      ensures IsListing(tasks, rows)
    {
      tasks := [];
      var pending := rows.Keys;
      ghost var done: set<string> := {};
      while pending != {}
        invariant pending !! done && pending + done == rows.Keys
        invariant PartialListing(tasks, rows, done)
        decreases pending
      {
        var id :| id in pending;
        ListingStep(tasks, rows, done, id);
        tasks := Insert(ToTask(rows[id]), tasks);
        pending := pending - {id};
        done := done + {id};
      }
      ListingComplete(tasks, rows);
    }

    /** getTaskById: the task stored under `id`, or nothing; a missing id is not an error. */
    method GetTaskById(id: string) returns (t: Option<Task>)
      requires Valid()
      ensures t.Some? <==> id in rows
      ensures t.Some? ==> t.value == ToTask(rows[id]) && t.value.id == id
    {
      if id in rows {
        t := Some(ToTask(rows[id]));
      } else {
        t := None;
      }
    }

    /** createTask: inserts a row for `t`; an id already in the table violates the primary key. */
    method CreateTask(t: Task) returns (r: Result<Task, DbError>)
      requires Valid()
      modifies this
      ensures Valid()
      ensures t.id in old(rows) ==> r == Err(DuplicateId) && rows == old(rows)
      ensures t.id !in old(rows) ==> r == Ok(t) && rows == old(rows)[t.id := InsertRow(t)]
    {
      if t.id in rows {
        r := Err(DuplicateId);
      } else {
        rows := rows[t.id := InsertRow(t)];
        r := Ok(t);
      }
    }

    /** updateTask: overwrites the editable columns of row `id`; no such row rejects with not-found. */
    method UpdateTask(id: string, u: Updates) returns (r: Result<(), DbError>)
      requires Valid()
      modifies this
      ensures Valid()
      ensures rows.Keys == old(rows).Keys
      ensures forall k | k in old(rows) && k != id :: rows[k] == old(rows)[k]
      ensures id in old(rows) ==> r == Ok(()) && rows == old(rows)[id := ApplyUpdates(old(rows)[id], u)]
      ensures id !in old(rows) ==> r == Err(NotFound) && rows == old(rows)
    {
      if id in rows {
        rows := rows[id := ApplyUpdates(rows[id], u)];
        r := Ok(());
      } else {
        r := Err(NotFound);
      }
    }

    /** deleteTask: removes row `id`; no such row rejects with not-found. */
    method DeleteTask(id: string) returns (r: Result<(), DbError>)
      requires Valid()
      modifies this
      ensures Valid()
      ensures forall k | k in old(rows) && k != id :: k in rows && rows[k] == old(rows)[k]
      ensures id in old(rows) ==> r == Ok(()) && rows == old(rows) - {id}
      ensures id !in old(rows) ==> r == Err(NotFound) && rows == old(rows)
    {
      if id in rows {
        rows := rows - {id};
        r := Ok(());
      } else {
        r := Err(NotFound);
      }
    }
  }

  /** A caller's view of the round trip: a fresh id reads back as the inserted task. */
  method CreateThenRead(db: TaskDB, t: Task) returns (created: Result<Task, DbError>, read: Option<Task>)
    requires db.Valid()
    modifies db
    ensures db.Valid()
    ensures t.id !in old(db.rows) ==> created == Ok(t) && read == Some(t.(updatedAt := Null))
    ensures t.id in old(db.rows) ==> created.Err? && read == Some(ToTask(old(db.rows)[t.id]))
  {
    created := db.CreateTask(t);
    read := db.GetTaskById(t.id);
  }
}
