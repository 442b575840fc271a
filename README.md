# TODO API store and routes, modelled in Dafny

This project models the core of a small TODO-item HTTP API. The API keeps its items in an in-memory table that maps an id to a record. It offers five routes: list all, get one, create, update and delete.

- `wrappers.dfy` (`Wrappers`): `Option` for JavaScript's `T | undefined` and `Result` for the outcome of validation.
- `models.dfy` (`Models`, from `src/models/todo.ts`):
  - the status enum, with values `未完了` (Incomplete) and `完了` (Complete);
  - the `Todo` record;
  - the typed create and update requests, each with a validity predicate;
  - the zod schemas, written as parsers from a JSON body to a typed request. A body is either a JSON object with its members or a JSON value that is not an object.
- `services.dfy` (`Services`, from `src/services/todo.ts`): the class `TodoService`. It has a `todos: map<string, Todo>` field, and its methods update that field in place. Its invariant `Valid()` says every entry is filed under its own id and carries a description string. Two pure functions describe the records the store builds: `NewTodo` for create and `Merge` for update.
- `routes.dfy` (`Routes`, from `src/routes/todo.ts`): the five handlers. Each validates the id parameter and the body first. It then calls one store operation and maps the result to a status code and a payload. The store is passed in explicitly instead of being a module-level singleton. Four client methods chain handlers: create then get, delete twice, a rejected create, and a full create, complete and delete life.

External inputs are parameters:
- the current time (`new Date()`) is an integer `now`;
- the fresh id (`crypto.randomUUID()`) is `freshId`, with `requires freshId !in todos`;
- the uuid format check (`z.string().uuid()`) is a predicate `isUuid: string -> bool`, left uninterpreted.

Behaviour worth noting:
- The body is validated before the handler runs. So a malformed body answers 400 even for an unknown id, and 404 is answered only for bodies that pass validation (`Routes.UpdateTodoHandler`).
- The status values are the code's enum literals `未完了` (Incomplete) and `完了` (Complete).
- The code takes `createdAt` and `updatedAt` from a wall clock and never checks `updatedAt >= createdAt`. `TimesOrdered` is proved only when the clock reading given to an update is not earlier than the item's `createdAt`.

The item schema `TodoSchema` (src/models/todo.ts:8-15) is modelled by several members:
- the `Models.Todo` record gives its fields and types;
- `Models.TitleSatisfiesSchema` gives its title constraint (line 10);
- `Services.WellFormed` says a stored record's `id` is its key and that the store always fills in the optional `description`.

The create and update schemas' constraints beyond the types are `Models.ValidCreate` (line 21) and `Models.ValidUpdate` (line 29). These predicates have no contract of their own. The contracts of `Models.ParseCreate`, `Models.ParseUpdate`, `Services.NewTodo`, `Services.MergeKeepsTitleValid` and the store and route methods state what they mean for the code.

## Model

| member | source | states |
|---|---|---|
| `Models.StatusName` | src/models/todo.ts:4-5 | a status is spelled as one of the two enum values `未完了` and `完了` |
| `Models.ParseStatus` | src/models/todo.ts:4 | the enum accepts a string iff it is one of the two status names, and the accepted status is spelled by that very string |
| `Models.StatusNameInjective` | src/models/todo.ts:4 | the two statuses have distinct spellings, so the enum has exactly two members and parsing a status's name gives it back |
| `Models.ParseCreate` | src/models/todo.ts:20-23 | a create body is accepted iff it is an object whose `title` is a string of length at least 1 and whose `description`, if present, is a string; the accepted request is valid and carries exactly the body's title and description; a non-object body is rejected |
| `Models.ParseUpdate` | src/models/todo.ts:28-32 | an update body is accepted iff it is an object whose `title`, if present, is a non-empty string, whose `description`, if present, is a string, and whose `status`, if present, names a status; the accepted request is valid and each of its fields is absent exactly when the member is missing |
| `Models.CreateRoundTrip` | src/models/todo.ts:20-25 | every valid create request, sent as a body, is accepted and parsed back to itself |
| `Models.UpdateRoundTrip` | src/models/todo.ts:28-34 | every valid update request, sent as a body, is accepted and parsed back to itself |
| `Models.CreateDeterminesBody` | src/models/todo.ts:20-23 | an accepted create body, once unknown members are removed, is exactly the encoding of the request parsed from it |
| `Models.UpdateDeterminesBody` | src/models/todo.ts:28-32 | an accepted update body, once unknown members are removed, is exactly the encoding of the request parsed from it |
| `Models.ExtraMembersIgnored` | src/models/todo.ts:20-32 | members other than those the schemas name do not affect whether a create or update body is accepted or what it parses to |
| `Services.NewTodo` | src/services/todo.ts:22-29 | a created record has the given id, the request's title, the request's description or `""` when none is given, status Incomplete and `createdAt == updatedAt == now`; its title satisfies the item schema iff the create request is valid |
| `Services.Merge` | src/services/todo.ts:43-49 | an updated record keeps `id` and `createdAt`, has `updatedAt == now`, and takes each provided field from the request while keeping each absent field |
| `Services.MergeNothing` | src/services/todo.ts:43-49 | an update with no fields changes only `updatedAt` |
| `Services.MergeStatusOnly` | src/services/todo.ts:43-49 | an update that provides only a status changes only `status` and `updatedAt` |
| `Services.MergeCompose` | src/services/todo.ts:43-51 | two successive updates equal one update where the later request's provided fields win |
| `Services.MergeIdempotent` | src/services/todo.ts:43-49 | repeating an update with the same request and clock value changes nothing further |
| `Services.MergeKeepsTitleValid` | src/services/todo.ts:45 | a valid update of a record with a non-empty title yields a non-empty title |
| `Services.TodoService.constructor` | src/services/todo.ts:5 | a new store is empty and well formed |
| `Services.TodoService.GetAllTodos` | src/services/todo.ts:8-10 | the listing holds exactly the stored values, each once, and is as long as the table (empty for an empty table); the store is untouched |
| `Services.TodoService.GetTodoById` | src/services/todo.ts:13-15 | an item is found iff its id is a key, and it is the stored entry, whose own id is the key looked up |
| `Services.TodoService.CreateTodo` | src/services/todo.ts:18-33 | the returned record is `NewTodo` of the inputs and is stored under the fresh id; exactly one key is added and every older entry is unchanged; the title invariant holds afterwards for a valid request |
| `Services.TodoService.UpdateTodo` | src/services/todo.ts:36-53 | an unknown id gives nothing and leaves the store unchanged; a known id gives the merged record and stores it under the same id; the key set and every other entry stay; the title invariant holds afterwards for a valid request |
| `Services.TodoService.DeleteTodo` | src/services/todo.ts:56-62 | the result is true iff the id was a key; exactly that key is removed, so the id is absent afterwards |
| `Routes.ParseIdParam` | src/routes/todo.ts:48-50 | an id parameter is accepted iff it passes the uuid check, and is passed on unchanged |
| `Routes.GetAllTodosHandler` | src/routes/todo.ts:35-38 | GET all always answers 200 with a list of exactly the stored items, each once, and does not change the store |
| `Routes.GetTodoByIdHandler` | src/routes/todo.ts:67-76 | GET by id answers 400 for an id that fails the uuid check, 404 when no entry has that id, and otherwise 200 with the entry |
| `Routes.CreateTodoHandler` | src/routes/todo.ts:109-113 | POST answers 400 for a rejected body and adds nothing; for an accepted body it answers 201 with the new record stored under the fresh id; the title invariant always holds afterwards |
| `Routes.UpdateTodoHandler` | src/routes/todo.ts:152-163 | PUT answers 400 for a bad id or body and 404 for an unknown id, leaving the store unchanged in those cases; otherwise it answers 200 with the merged record, which replaces the entry; the title invariant always holds afterwards |
| `Routes.DeleteTodoHandler` | src/routes/todo.ts:187-196 | DELETE answers 400 for a bad id; it answers 204 with no body when the entry existed, and only that entry is removed; otherwise it answers 404 with the store unchanged |
| `Routes.CreateThenGet` | src/routes/todo.ts:67-113 | a valid POST answers 201 with status Incomplete and equal timestamps, and an immediate GET of the returned id answers 200 with the same item |
| `Routes.DeleteTwice` | src/routes/todo.ts:187-196 | deleting an existing id answers 204 the first time and 404 the second time |
| `Routes.RejectedCreateAddsNothing` | src/routes/todo.ts:85-113 | a POST whose body is rejected answers 400, and the following listing has as many items as before |
| `Routes.Lifecycle` | src/routes/todo.ts:109-196 | create answers 201 with `description ""`, status Incomplete and both timestamps at the first clock value; setting the status to Complete answers 200 and changes only status and `updatedAt`; delete answers 204; a later GET answers 404 |

## Left out

- `index.ts`: the logging, pretty-printing and CORS middleware, the OpenAPI document, the Swagger UI, the root welcome payload and the port setup. These are framework wiring with no logic of their own.
- `crypto.randomUUID()` and `new Date()` are foreign calls. They become the `freshId` and `now` parameters. Random-id collisions are excluded by `requires freshId !in todos` instead of being modelled.
- The uuid regular expression is hidden inside zod. Uuid-ness is the `isUuid` parameter. For that reason the item schema's `id: z.string().uuid()` constraint on stored records is not part of `TitleSatisfiesSchema`.
- `Services.TodoService.GetAllTodos`: the listing order of `Array.from(map.values())` (insertion order) is not modelled. The contract promises only the stored values, each exactly once.
- Zod collects every violated constraint and hono formats them into a 400 body. The model reports only the first violation, checking `title`, then `description`, then `status`. The message text is not modelled, except for the title message.
- Requests are assumed to carry a JSON Content-Type, so the body validator always runs. The routes do not mark their bodies as required (src/routes/todo.ts:85-92, 126-132). Some versions of the routing library then skip body validation for other content types and pass an empty object to the handler. That path is not modelled. If it exists, a POST could store a record with no title. So the title invariant that `Routes.CreateTodoHandler` and `Routes.UpdateTodoHandler` keep depends on this assumption.
- JSON (de)serialisation is not modelled: for example, timestamps rendered as ISO-8601 strings. Any JSON value other than a string is a single `JOther` case.
- `TodoResponseSchema` and `TodoListResponseSchema` (src/models/todo.ts:36-42) are used only to generate the API document, so they are left out.
- `z.date()` timestamps are integer clock readings. The model does not assume that the clock never goes backwards.
- The module-level singleton `todoService` and any concurrency between requests are not modelled. Each store operation is one atomic method call on an explicit `TodoService` object.
