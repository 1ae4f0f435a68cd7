/**
 * The task routes of the HTTP API (server.js): request validation, the
 * defaults of a created task, the merge of a partial update, and the mapping
 * of store rejections to status codes. Request ids and clock readings are
 * parameters; the webhook's outbound request is reduced to its outcome.
 */
module TaskApi {
  import opened Wrappers
  import opened TaskStore

  /** A field of a JSON request body: missing (`undefined`), `null`, or a string. */
  datatype BodyValue = Undefined | JsonNull | Str(s: string)

  /** JavaScript truthiness of a body field: only a non-empty string is truthy. */
  predicate Truthy(v: BodyValue) {
    v.Str? && v.s != ""
  }

  /** `v || fallback` for a string-valued field. */
  function OrElse(v: BodyValue, fallback: string): (r: string)
    ensures Truthy(v) ==> r == v.s && r != ""
    ensures !Truthy(v) ==> r == fallback
  {
    match v
    case Str(s) => if s != "" then s else fallback
    case _ => fallback
  }

  /** The column value a present field writes: `null` becomes SQL NULL. */
  function CellOf(v: BodyValue): Cell {
    match v
    case Str(s) => Text(s)
    case _ => Null
  }

  /** The body fields the task routes read. */
  datatype TaskBody = TaskBody(
    title: BodyValue,
    description: BodyValue,
    priority: BodyValue,
    status: BodyValue,
    dueDate: BodyValue)

  const TitleRequired: string := "任务标题不能为空"
  const CreateFailed: string := "创建任务失败"
  const UpdateFailed: string := "更新任务失败"
  const DeleteFailed: string := "删除任务失败"
  const WebhookUrlRequired: string := "WebHook URL不能为空"
  const WebhookSent: string := "任务推送成功"
  const WebhookFailedPrefix: string := "WebHook推送失败: "
  const WebhookRejectedPrefix: string := "WebHook请求失败: "

  // ---------------------------------------------------------------------
  // The pure decisions

  /**
   * The task POST /api/tasks builds: the title is required, the other fields
   * fall back on truthiness, and the status is not read from the body.
   */
  function NewTask(b: TaskBody, id: string, now: string): (r: Result<Task, string>)
    ensures r.Err? <==> !Truthy(b.title)
    ensures r.Err? ==> r.error == TitleRequired
    ensures r.Ok? ==> r.value.id == id && r.value.title == b.title.s && r.value.title != ""
    ensures r.Ok? ==> r.value.status == "pending" && r.value.createdAt == now && r.value.updatedAt == Null
  {
    if !Truthy(b.title) then Err(TitleRequired)
    else Ok(Task(
      id := id,
      title := b.title.s,
      description := Text(OrElse(b.description, "")),
      priority := OrElse(b.priority, "medium"),
      status := "pending",
      dueDate := Text(OrElse(b.dueDate, "")),
      createdAt := now,
      updatedAt := Null))
  }

  /** Omitted, null or empty optional fields take their defaults; supplied ones are kept. */
  lemma NewTaskDefaults(b: TaskBody, id: string, now: string)
    requires Truthy(b.title)
    ensures NewTask(b, id, now).value.description ==
      if Truthy(b.description) then Text(b.description.s) else Text("")
    ensures NewTask(b, id, now).value.priority ==
      if Truthy(b.priority) then b.priority.s else "medium"
    ensures NewTask(b, id, now).value.dueDate ==
      if Truthy(b.dueDate) then Text(b.dueDate.s) else Text("")
  {
  }

  /** Whatever status the body carries, a created task is the same, and pending. */
  lemma NewTaskIgnoresStatus(b: TaskBody, status: BodyValue, id: string, now: string)
    ensures NewTask(b.(status := status), id, now) == NewTask(b, id, now)
  {
  }

  /**
   * The values PUT /api/tasks/:id writes: title, priority and status keep the
   * existing value unless the body's value is truthy; description and dueDate
   * keep it only when the body omits them.
   */
  function Merge(existing: Task, b: TaskBody, now: string): (u: Updates)
    ensures u.updatedAt == now
    ensures u.title == existing.title || (Truthy(b.title) && u.title == b.title.s)
    ensures u.priority == existing.priority || (Truthy(b.priority) && u.priority == b.priority.s)
    ensures u.status == existing.status || (Truthy(b.status) && u.status == b.status.s)
    ensures u.description == existing.description || b.description != Undefined
    ensures u.dueDate == existing.dueDate || b.dueDate != Undefined
  {
    Updates(
      title := OrElse(b.title, existing.title),
      description := if b.description == Undefined then existing.description else CellOf(b.description),
      priority := OrElse(b.priority, existing.priority),
      status := OrElse(b.status, existing.status),
      dueDate := if b.dueDate == Undefined then existing.dueDate else CellOf(b.dueDate),
      updatedAt := now)
  }

  /** Truthiness fields: a missing, null or empty value keeps the existing one. */
  lemma MergeTruthinessFields(existing: Task, b: TaskBody, now: string)
    ensures Merge(existing, b, now).title == if Truthy(b.title) then b.title.s else existing.title
    ensures Merge(existing, b, now).priority == if Truthy(b.priority) then b.priority.s else existing.priority
    ensures Merge(existing, b, now).status == if Truthy(b.status) then b.status.s else existing.status
  {
  }

  /** Presence fields: only an omitted value keeps the existing one; null and "" overwrite. */
  lemma MergePresenceFields(existing: Task, b: TaskBody, now: string)
    ensures b.description == Undefined ==> Merge(existing, b, now).description == existing.description
    ensures b.description == JsonNull ==> Merge(existing, b, now).description == Null
    ensures b.description.Str? ==> Merge(existing, b, now).description == Text(b.description.s)
    ensures b.dueDate == Undefined ==> Merge(existing, b, now).dueDate == existing.dueDate
    ensures b.dueDate == JsonNull ==> Merge(existing, b, now).dueDate == Null
    ensures b.dueDate.Str? ==> Merge(existing, b, now).dueDate == Text(b.dueDate.s)
  {
  }

  /** The two rules part on an explicit "": it cannot clear a title but does clear a description. */
  lemma EmptyStringSplitsTheRules(existing: Task, now: string)
    requires existing.title != "" && existing.description != Text("")
    ensures var u := Merge(existing, TaskBody(Str(""), Str(""), Undefined, Undefined, Undefined), now);
      u.title == existing.title && u.description == Text("") && u.description != existing.description
  {
  }

  /** An empty body changes no editable field. */
  lemma MergeEmptyBodyKeepsFields(existing: Task, now: string)
    ensures var u := Merge(existing, TaskBody(Undefined, Undefined, Undefined, Undefined, Undefined), now);
      u == Updates(existing.title, existing.description, existing.priority, existing.status, existing.dueDate, now)
  {
  }

  /** Sending the same PUT twice writes the same fields the second time; only updatedAt moves. */
  lemma MergeIdempotent(r: Row, b: TaskBody, now: string, later: string)
    ensures var u := Merge(ToTask(r), b, now);
      Merge(ToTask(ApplyUpdates(r, u)), b, later) == u.(updatedAt := later)
  {
  }

  // ---------------------------------------------------------------------
  // Responses

  datatype ResponseBody =
    | TaskJson(task: Task)
    | TaskListJson(tasks: seq<Task>)
    | ErrorJson(error: string)
    | SuccessJson(message: string)
    | NoContent

  datatype Response = Response(status: int, body: ResponseBody)

  /** The catch blocks of PUT and DELETE: not-found is 404, anything else 500 with `otherwise`. */
  function ErrorResponse(e: DbError, otherwise: string): (resp: Response)
    ensures e.message == NotFoundMessage <==> resp.status == 404
    ensures resp.status == 404 ==> resp.body == ErrorJson(NotFoundMessage)
    ensures resp.status != 404 ==> resp == Response(500, ErrorJson(otherwise))
  {
    if e.message == NotFoundMessage then Response(404, ErrorJson(NotFoundMessage))
    else Response(500, ErrorJson(otherwise))
  }

  /** Decimal digits of a number, as a template literal prints it. */
  function NatToString(n: nat): (r: string)
    ensures 1 <= |r|
    ensures forall i | 0 <= i < |r| :: '0' <= r[i] <= '9'
    ensures n < 10 ==> |r| == 1
    decreases n
  {
    var d := ['0', '1', '2', '3', '4', '5', '6', '7', '8', '9'][n % 10];
    if n < 10 then [d] else NatToString(n / 10) + [d]
  }

  /** The number a string of decimal digits denotes. */
  ghost function DigitsValue(s: string): nat {
    if s == [] then 0
    else
      var c := s[|s| - 1];
      DigitsValue(s[..|s| - 1]) * 10 + (if '0' <= c <= '9' then c as int - '0' as int else 0)
  }

  /** The printed digits denote the number, without a leading zero. */
  lemma {:induction false} NatToStringValue(n: nat)
    ensures DigitsValue(NatToString(n)) == n
    ensures |NatToString(n)| > 1 ==> NatToString(n)[0] != '0'
    decreases n
  {
    var r := NatToString(n);
    assert r[..|r| - 1] == if n < 10 then [] else NatToString(n / 10);
    if n >= 10 {
      NatToStringValue(n / 10);
    }
  }

  /** How the webhook's outbound request ended: accepted, answered with a status outside 2xx, or failed in transport. */
  datatype Delivery = Delivered | Rejected(httpStatus: NotOkStatus) | TransportError(message: string)

  /** A status that `response.ok` rejects: outside 200..299. */
  type NotOkStatus = n: nat | !(200 <= n < 300) witness 500

  /** The message of the error the webhook route catches when delivery fails. */
  function DeliveryError(d: Delivery): (m: string)
    requires !d.Delivered?
    ensures d.TransportError? ==> m == d.message
    ensures d.Rejected? ==> WebhookRejectedPrefix <= m && |m| > |WebhookRejectedPrefix|
    ensures d.Rejected? ==> m[|WebhookRejectedPrefix|..] == NatToString(d.httpStatus)
  {
    match d
    case Delivered => ""
    case Rejected(code) =>
      var m := WebhookRejectedPrefix + NatToString(code);
      assert m[|WebhookRejectedPrefix|..] == NatToString(code);
      m
    case TransportError(m) => m
  }

  // ---------------------------------------------------------------------
  // The routes

  /** GET /api/tasks: 200 with the listing. */
  method ListTasks(db: TaskDB) returns (resp: Response)
    requires db.Valid()
    ensures resp.status == 200 && resp.body.TaskListJson?
    ensures IsListing(resp.body.tasks, db.rows)
  {
    var tasks := db.GetAllTasks();
    resp := Response(200, TaskListJson(tasks));
  }

  /** POST /api/tasks with a generated `id` and `now` as the ISO creation time. */
  method CreateTaskRoute(db: TaskDB, b: TaskBody, id: string, now: string) returns (resp: Response)
    requires db.Valid()
    modifies db
    ensures db.Valid()
    ensures !Truthy(b.title) ==> resp == Response(400, ErrorJson(TitleRequired)) && db.rows == old(db.rows)
    ensures Truthy(b.title) && id !in old(db.rows) ==>
      var t := NewTask(b, id, now).value;
      resp == Response(201, TaskJson(t)) && db.rows == old(db.rows)[id := InsertRow(t)]
    ensures Truthy(b.title) && id in old(db.rows) ==>
      resp == Response(500, ErrorJson(CreateFailed)) && db.rows == old(db.rows)
  {
    var candidate := NewTask(b, id, now);
    if candidate.Err? {
      resp := Response(400, ErrorJson(candidate.error));
      return;
    }
    var created := db.CreateTask(candidate.value);
    match created
    case Ok(t) => resp := Response(201, TaskJson(t));
    case Err(_) => resp := Response(500, ErrorJson(CreateFailed));
  }

  /** PUT /api/tasks/:id: read, merge, write, read back; `now` is the ISO update time. */
  method UpdateTaskRoute(db: TaskDB, id: string, b: TaskBody, now: string) returns (resp: Response)
    requires db.Valid()
    modifies db
    ensures db.Valid()
    ensures id !in old(db.rows) ==> resp == Response(404, ErrorJson(NotFoundMessage)) && db.rows == old(db.rows)
    ensures id in old(db.rows) ==>
      var u := Merge(ToTask(old(db.rows)[id]), b, now);
      && db.rows == old(db.rows)[id := ApplyUpdates(old(db.rows)[id], u)]
      && resp == Response(200, TaskJson(Task(id, u.title, u.description, u.priority, u.status,
                                             u.dueDate, old(db.rows)[id].created_at, Text(now))))
  {
    var existing := db.GetTaskById(id);
    if existing.None? {
      resp := Response(404, ErrorJson(NotFoundMessage));
      return;
    }
    var u := Merge(existing.value, b, now);
    ghost var before := db.rows[id];
    var written := db.UpdateTask(id, u);
    match written {
      case Err(e) =>
        resp := ErrorResponse(e, UpdateFailed);
      case Ok(_) =>
        var updated := db.GetTaskById(id);
        UpdateWritesOnlyEditableColumns(before, u);
        resp := Response(200, TaskJson(updated.value));
    }
  }

  /** DELETE /api/tasks/:id: 204 with no body, or 404. */
  method DeleteTaskRoute(db: TaskDB, id: string) returns (resp: Response)
    requires db.Valid()
    modifies db
    ensures db.Valid()
    ensures id in old(db.rows) ==> resp == Response(204, NoContent) && db.rows == old(db.rows) - {id}
    ensures id !in old(db.rows) ==> resp == Response(404, ErrorJson(NotFoundMessage)) && db.rows == old(db.rows)
  {
    var deleted := db.DeleteTask(id);
    match deleted
    case Ok(_) => resp := Response(204, NoContent);
    case Err(e) => resp := ErrorResponse(e, DeleteFailed);
  }

  /**
   * POST /api/tasks/:id/webhook with the body's `webhookUrl`: the URL is checked
   * before the task is looked up. `notified` is the task handed to the
   * notifier, and `delivery` is how that request ended.
   */
  method WebhookRoute(db: TaskDB, id: string, webhookUrl: BodyValue, delivery: Delivery)
    returns (resp: Response, notified: Option<Task>)
    requires db.Valid()
    ensures !Truthy(webhookUrl) ==> resp == Response(400, ErrorJson(WebhookUrlRequired)) && notified == None
    ensures Truthy(webhookUrl) && id !in db.rows ==>
      resp == Response(404, ErrorJson(NotFoundMessage)) && notified == None
    ensures Truthy(webhookUrl) && id in db.rows ==> notified == Some(ToTask(db.rows[id]))
    ensures Truthy(webhookUrl) && id in db.rows && delivery == Delivered ==>
      resp == Response(200, SuccessJson(WebhookSent))
    ensures Truthy(webhookUrl) && id in db.rows && delivery != Delivered ==>
      resp == Response(500, ErrorJson(WebhookFailedPrefix + DeliveryError(delivery)))
  {
    if !Truthy(webhookUrl) {
      resp, notified := Response(400, ErrorJson(WebhookUrlRequired)), None;
      return;
    }
    var task := db.GetTaskById(id);
    if task.None? {
      resp, notified := Response(404, ErrorJson(NotFoundMessage)), None;
      return;
    }
    notified := task;
    if delivery == Delivered {
      resp := Response(200, SuccessJson(WebhookSent));
    } else {
      resp := Response(500, ErrorJson(WebhookFailedPrefix + DeliveryError(delivery)));
    }
  }
}
