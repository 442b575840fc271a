/**
 * The in-memory TODO store (src/services/todo.ts): a table from id to item,
 * updated in place. Ids and clock readings come from outside: a fresh id and
 * the current time are parameters of the operations that need them.
 */
module Services {
  import opened Wrappers
  import opened Models

  /** Every entry is filed under its own id and carries a description string. */
  predicate WellFormed(m: map<string, Todo>) {
    forall k :: k in m ==> m[k].id == k && m[k].description.Some?
  }

  /** Every entry satisfies the item schema's title constraint. */
  predicate AllTitlesValid(m: map<string, Todo>) {
    forall k :: k in m ==> TitleSatisfiesSchema(m[k])
  }

  /** Every entry was last updated no earlier than it was created. */
  predicate TimesOrdered(m: map<string, Todo>) {
    forall k :: k in m ==> m[k].createdAt <= m[k].updatedAt
  }

  /**
   * The record `createTodo` builds: the request's title, its description or
   * the empty string (`description || ''`), status Incomplete, and both
   * timestamps at `now`.
   */
  function NewTodo(id: string, req: CreateTodoRequest, now: Timestamp): (t: Todo)
    ensures t.id == id && t.title == req.title && t.status == Incomplete
    ensures t.createdAt == now && t.updatedAt == now
    ensures t.description == Some(req.description.GetOr(""))
    ensures TitleSatisfiesSchema(t) <==> ValidCreate(req)
  {
    var description := if req.description.Some? && req.description.value != "" then req.description.value else "";
    Todo(id, req.title, Some(description), Incomplete, now, now)
  }

  /**
   * The record `updateTodo` builds from the stored `t`: each provided field
   * overwrites, each absent one is kept, `id` and `createdAt` stay, and
   * `updatedAt` becomes `now`.
   */
  function Merge(t: Todo, req: UpdateTodoRequest, now: Timestamp): (u: Todo)
    ensures u.id == t.id && u.createdAt == t.createdAt && u.updatedAt == now
    ensures u.title == req.title.GetOr(t.title)
    ensures u.description == (if req.description.Some? then req.description else t.description)
    ensures u.status == req.status.GetOr(t.status)
  {
    t.(title := if req.title.Some? then req.title.value else t.title,
       description := if req.description.Some? then req.description else t.description,
       status := if req.status.Some? then req.status.value else t.status,
       updatedAt := now)
  }

  /** The update request that applies `first` and then `second`. */
  function Overlay(first: UpdateTodoRequest, second: UpdateTodoRequest): UpdateTodoRequest {
    UpdateTodoRequest(
      if second.title.Some? then second.title else first.title,
      if second.description.Some? then second.description else first.description,
      if second.status.Some? then second.status else first.status)
  }

  /** An update with no fields only refreshes `updatedAt`. */
  lemma MergeNothing(t: Todo, now: Timestamp)
    ensures Merge(t, UpdateTodoRequest(None, None, None), now) == t.(updatedAt := now)
  {
  }

  /** An update that names only a status changes only `status` and `updatedAt`. */
  lemma MergeStatusOnly(t: Todo, s: Status, now: Timestamp)
    ensures Merge(t, UpdateTodoRequest(None, None, Some(s)), now) == t.(status := s, updatedAt := now)
  {
  }

  /** Two updates in a row are one update with the later fields winning. */
  lemma MergeCompose(t: Todo, first: UpdateTodoRequest, second: UpdateTodoRequest, t1: Timestamp, t2: Timestamp)
    ensures Merge(Merge(t, first, t1), second, t2) == Merge(t, Overlay(first, second), t2)
  {
  }

  /** Repeating an update at the same time changes nothing further. */
  lemma MergeIdempotent(t: Todo, req: UpdateTodoRequest, now: Timestamp)
    ensures Merge(Merge(t, req, now), req, now) == Merge(t, req, now)
  {
  }

  /** A valid update keeps the old title or sets a non-empty one. */
  lemma MergeKeepsTitleValid(t: Todo, req: UpdateTodoRequest, now: Timestamp)
    requires TitleSatisfiesSchema(t) && ValidUpdate(req)
    ensures TitleSatisfiesSchema(Merge(t, req, now))
  {
  }

  class TodoService {
    /** The table, keyed by item id. */
    var todos: map<string, Todo>

    ghost predicate Valid()
      reads this
    {
      WellFormed(todos)
    }

    constructor ()
      ensures Valid() && todos == map[]
    {
      todos := map[];
    }

    /** `getAllTodos`: every stored item exactly once, in some order; the store is untouched. */
    method GetAllTodos() returns (list: seq<Todo>)
      requires Valid()
      ensures |list| == |todos|
      ensures forall t :: t in list <==> t in todos.Values
      ensures forall i, j :: 0 <= i < j < |list| ==> list[i] != list[j]
    {
      list := [];
      var pending := todos.Keys;
      while pending != {}
        invariant pending <= todos.Keys
        invariant |list| + |pending| == |todos|
        invariant forall t :: t in list ==> t in todos.Values && t.id in todos && todos[t.id] == t && t.id !in pending
        invariant forall k :: k in todos && k !in pending ==> todos[k] in list
        invariant forall i, j :: 0 <= i < j < |list| ==> list[i].id != list[j].id
        decreases pending
      {
        var k :| k in pending;
        list := list + [todos[k]];
        pending := pending - {k};
      }
    }

    /** `getTodoById`: the entry filed under `id`, or nothing. */
    function GetTodoById(id: string): (r: Option<Todo>)
      reads this
      ensures r.Some? <==> id in todos
      ensures r.Some? ==> r.value == todos[id]
      ensures Valid() && r.Some? ==> r.value.id == id && r.value.description.Some?
    {
      if id in todos then Some(todos[id]) else None
    }

    /**
     * `createTodo` under the fresh id `id` at time `now`: exactly one key is
     * added, holding the new record; every other entry is unchanged.
     */
    method CreateTodo(req: CreateTodoRequest, id: string, now: Timestamp) returns (t: Todo)
      requires Valid()
      requires id !in todos
      modifies this
      ensures Valid()
      ensures t == NewTodo(id, req, now)
      ensures todos == old(todos)[id := t]
      ensures todos.Keys == old(todos.Keys) + {id} && |todos| == |old(todos)| + 1
      ensures forall k :: k in old(todos) ==> k in todos && todos[k] == old(todos)[k]
      ensures old(AllTitlesValid(todos)) && ValidCreate(req) ==> AllTitlesValid(todos)
      ensures old(TimesOrdered(todos)) ==> TimesOrdered(todos)
    {
      t := NewTodo(id, req, now);
      todos := todos[id := t];
    }

    /**
     * `updateTodo`: nothing when `id` is unknown (store unchanged); otherwise
     * the merged record, stored under the same id, with every other entry and
     * the key set unchanged.
     */
    method UpdateTodo(id: string, req: UpdateTodoRequest, now: Timestamp) returns (r: Option<Todo>)
      requires Valid()
      modifies this
      ensures Valid()
      ensures r.Some? <==> id in old(todos)
      ensures id !in old(todos) ==> todos == old(todos)
      ensures id in old(todos) ==> r == Some(Merge(old(todos)[id], req, now)) && todos == old(todos)[id := r.value]
      ensures todos.Keys == old(todos.Keys)
      ensures forall k :: k in old(todos) && k != id ==> todos[k] == old(todos)[k]
      ensures old(AllTitlesValid(todos)) && ValidUpdate(req) ==> AllTitlesValid(todos)
      ensures old(TimesOrdered(todos)) && id in old(todos) && old(todos)[id].createdAt <= now ==> TimesOrdered(todos)
    {
      var existing := GetTodoById(id);
      if existing.None? {
        return None;
      }
      var updated := Merge(existing.value, req, now);
      todos := todos[id := updated];
      r := Some(updated);
    }

    /** `deleteTodo`: true exactly when `id` was present, and then only that key is gone. */
    method DeleteTodo(id: string) returns (deleted: bool)
      requires Valid()
      modifies this
      ensures Valid()
      ensures deleted <==> id in old(todos)
      ensures todos == old(todos) - {id}
      ensures id !in todos
      ensures old(AllTitlesValid(todos)) ==> AllTitlesValid(todos)
      ensures old(TimesOrdered(todos)) ==> TimesOrdered(todos)
    {
      if id !in todos {
        return false;
      }
      todos := todos - {id};
      deleted := true;
    }
  }
}
