/**
 * The five TODO route handlers (src/routes/todo.ts). Each validates its path
 * parameter and body first, calls one store operation, and maps the outcome
 * to a status code and a payload. The store is passed in explicitly, and the
 * identifier format check (`z.string().uuid()`) is a caller-supplied predicate.
 */
module Routes {
  import opened Wrappers
  import opened Models
  import opened Services

  /** The message of every 404 answer. */
  const NotFoundMessage: string := "指定されたIDのTODOが見つかりません"

  /** What a handler puts in the response body. */
  datatype Payload =
    | TodoJson(todo: Todo)
    | TodoListJson(items: seq<Todo>)
    | MessageJson(message: string)
    | ValidationErrorJson(issue: Issue)
    | NoBody

  datatype Response = Response(status: int, payload: Payload)

  function NotFound(): Response {
    Response(404, MessageJson(NotFoundMessage))
  }

  /** The answer of the validator when a parameter or body breaks its schema. */
  function BadRequest(issue: Issue): Response {
    Response(400, ValidationErrorJson(issue))
  }

  /** The `id` path parameter schema: the id only when it passes the uuid check. */
  function ParseIdParam(isUuid: string -> bool, id: string): (r: Result<string, Issue>)
    ensures r.Success? <==> isUuid(id)
    ensures r.Success? ==> r.value == id
    ensures r.Failure? ==> r.error == InvalidUuid("id")
  {
    if isUuid(id) then Success(id) else Failure(InvalidUuid("id"))
  }

  /** GET /todos: always 200 with every stored item once; the store is untouched. */
  method GetAllTodosHandler(svc: TodoService) returns (resp: Response)
    requires svc.Valid()
    ensures resp.status == 200 && resp.payload.TodoListJson?
    ensures |resp.payload.items| == |svc.todos|
    ensures forall t :: t in resp.payload.items <==> t in svc.todos.Values
    ensures forall i, j :: 0 <= i < j < |resp.payload.items| ==> resp.payload.items[i] != resp.payload.items[j]
  {
    var todos := svc.GetAllTodos();
    resp := Response(200, TodoListJson(todos));
  }

  /** GET /todos/{id}: 400 for a malformed id, 404 for an unknown one, else 200 with the entry. */
  function GetTodoByIdHandler(svc: TodoService, isUuid: string -> bool, id: string): (resp: Response)
    reads svc
    ensures !isUuid(id) ==> resp == BadRequest(InvalidUuid("id"))
    ensures isUuid(id) && id !in svc.todos ==> resp == NotFound()
    ensures isUuid(id) && id in svc.todos ==> resp == Response(200, TodoJson(svc.todos[id]))
  {
    match ParseIdParam(isUuid, id)
    case Failure(e) => BadRequest(e)
    case Success(key) =>
      match svc.GetTodoById(key)
      case None => NotFound()
      case Some(todo) => Response(200, TodoJson(todo))
  }

  /**
   * POST /todos: a rejected body answers 400 and adds nothing; an accepted
   * one answers 201 with the new item, stored under the fresh id.
   */
  method CreateTodoHandler(svc: TodoService, body: Body, freshId: string, now: Timestamp) returns (resp: Response)
    requires svc.Valid()
    requires freshId !in svc.todos
    modifies svc
    ensures svc.Valid()
    ensures ParseCreate(body).Failure? ==>
      resp == BadRequest(ParseCreate(body).error) && svc.todos == old(svc.todos)
    ensures ParseCreate(body).Success? ==>
      resp == Response(201, TodoJson(NewTodo(freshId, ParseCreate(body).value, now)))
      && svc.todos == old(svc.todos)[freshId := resp.payload.todo]
    ensures old(AllTitlesValid(svc.todos)) ==> AllTitlesValid(svc.todos)
  {
    match ParseCreate(body)
    case Failure(e) =>
      resp := BadRequest(e);
    case Success(data) =>
      var newTodo := svc.CreateTodo(data, freshId, now);
      resp := Response(201, TodoJson(newTodo));
  }

  /**
   * PUT /todos/{id}: 400 for a malformed id or body, 404 for an unknown id,
   * and in those cases the store is unchanged; otherwise 200 with the merged
   * item, which replaces the entry.
   */
  method UpdateTodoHandler(svc: TodoService, isUuid: string -> bool, id: string, body: Body, now: Timestamp)
    returns (resp: Response)
    requires svc.Valid()
    modifies svc
    ensures svc.Valid()
    ensures !isUuid(id) ==> resp == BadRequest(InvalidUuid("id")) && svc.todos == old(svc.todos)
    ensures isUuid(id) && ParseUpdate(body).Failure? ==>
      resp == BadRequest(ParseUpdate(body).error) && svc.todos == old(svc.todos)
    ensures isUuid(id) && ParseUpdate(body).Success? && id !in old(svc.todos) ==>
      resp == NotFound() && svc.todos == old(svc.todos)
    ensures isUuid(id) && ParseUpdate(body).Success? && id in old(svc.todos) ==>
      resp == Response(200, TodoJson(Merge(old(svc.todos)[id], ParseUpdate(body).value, now)))
      && svc.todos == old(svc.todos)[id := resp.payload.todo]
    ensures old(AllTitlesValid(svc.todos)) ==> AllTitlesValid(svc.todos)
  {
    match ParseIdParam(isUuid, id)
    case Failure(e) =>
      resp := BadRequest(e);
    case Success(key) =>
      match ParseUpdate(body)
      case Failure(e) =>
        resp := BadRequest(e);
      case Success(data) =>
        var updatedTodo := svc.UpdateTodo(key, data, now);
        match updatedTodo
        case None =>
          resp := NotFound();
        case Some(todo) =>
          resp := Response(200, TodoJson(todo));
  }

  /** DELETE /todos/{id}: 400 for a malformed id, 204 with no body when the entry was removed, else 404. */
  method DeleteTodoHandler(svc: TodoService, isUuid: string -> bool, id: string) returns (resp: Response)
    requires svc.Valid()
    modifies svc
    ensures svc.Valid()
    ensures !isUuid(id) ==> resp == BadRequest(InvalidUuid("id")) && svc.todos == old(svc.todos)
    ensures isUuid(id) && id in old(svc.todos) ==> resp == Response(204, NoBody) && svc.todos == old(svc.todos) - {id}
    ensures isUuid(id) && id !in old(svc.todos) ==> resp == NotFound() && svc.todos == old(svc.todos)
    ensures old(AllTitlesValid(svc.todos)) ==> AllTitlesValid(svc.todos)
  {
    match ParseIdParam(isUuid, id)
    case Failure(e) =>
      resp := BadRequest(e);
    case Success(key) =>
      var deleted := svc.DeleteTodo(key);
      if !deleted {
        resp := NotFound();
      } else {
        resp := Response(204, NoBody);
      }
  }

  /** Reading an item right after creating it returns the created item. */
  method CreateThenGet(svc: TodoService, isUuid: string -> bool, req: CreateTodoRequest, freshId: string, now: Timestamp)
    returns (created: Response, fetched: Response)
    requires svc.Valid() && ValidCreate(req)
    requires freshId !in svc.todos && isUuid(freshId)
    modifies svc
    ensures created.status == 201 && created.payload.TodoJson?
    ensures created.payload.todo.status == Incomplete
    ensures created.payload.todo.createdAt == created.payload.todo.updatedAt
    ensures fetched == Response(200, created.payload)
  {
    CreateRoundTrip(req);
    created := CreateTodoHandler(svc, EncodeCreate(req), freshId, now);
    fetched := GetTodoByIdHandler(svc, isUuid, freshId);
  }

  /** Deleting the same id twice: the first call answers 204, the second 404. */
  method DeleteTwice(svc: TodoService, isUuid: string -> bool, id: string) returns (first: Response, second: Response)
    requires svc.Valid() && isUuid(id) && id in svc.todos
    modifies svc
    ensures first == Response(204, NoBody)
    ensures second == NotFound()
    ensures svc.todos == old(svc.todos) - {id}
  {
    first := DeleteTodoHandler(svc, isUuid, id);
    second := DeleteTodoHandler(svc, isUuid, id);
  }

  /** A rejected create body leaves the number of listed items unchanged. */
  method RejectedCreateAddsNothing(svc: TodoService, body: Body, freshId: string, now: Timestamp)
    returns (resp: Response, listing: Response)
    requires svc.Valid() && freshId !in svc.todos
    requires ParseCreate(body).Failure?
    modifies svc
    ensures resp.status == 400
    ensures listing.payload.TodoListJson? && |listing.payload.items| == |old(svc.todos)|
  {
    resp := CreateTodoHandler(svc, body, freshId, now);
    listing := GetAllTodosHandler(svc);
  }

  /**
   * An item's life: created (201, Incomplete, both timestamps equal), marked
   * Complete (200, only status and updatedAt change), deleted (204), then gone (404).
   */
  method Lifecycle(svc: TodoService, isUuid: string -> bool, title: string, freshId: string, t1: Timestamp, t2: Timestamp)
    returns (created: Response, updated: Response, deleted: Response, fetched: Response)
    requires svc.Valid() && |title| >= 1
    requires freshId !in svc.todos && isUuid(freshId)
    modifies svc
    ensures created.status == 201 && created.payload.TodoJson?
    ensures created.payload.todo == Todo(freshId, title, Some(""), Incomplete, t1, t1)
    ensures updated == Response(200, TodoJson(created.payload.todo.(status := Complete, updatedAt := t2)))
    ensures deleted == Response(204, NoBody)
    ensures fetched == NotFound()
    ensures svc.todos == old(svc.todos)
  {
    var req := CreateTodoRequest(title, None);
    CreateRoundTrip(req);
    created := CreateTodoHandler(svc, EncodeCreate(req), freshId, t1);
    var change := UpdateTodoRequest(None, None, Some(Complete));
    UpdateRoundTrip(change);
    MergeStatusOnly(created.payload.todo, Complete, t2);
    updated := UpdateTodoHandler(svc, isUuid, freshId, EncodeUpdate(change), t2);
    deleted := DeleteTodoHandler(svc, isUuid, freshId);
    fetched := GetTodoByIdHandler(svc, isUuid, freshId);
  }
}
