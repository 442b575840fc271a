/**
 * The data model of the TODO API and the request schemas that guard it
 * (src/models/todo.ts). The schemas are written as validating parsers from a
 * JSON body to the typed request, together with validity predicates on the
 * typed requests.
 */
module Models {
  import opened Wrappers

  /** A clock reading; `new Date()` is supplied by the caller as an integer. */
  type Timestamp = int

  /** The two-valued status enum. */
  datatype Status = Incomplete | Complete

  const IncompleteName: string := "未完了"
  const CompleteName: string := "完了"

  /** The wire spelling of a status. */
  function StatusName(s: Status): (name: string)
    ensures name == IncompleteName || name == CompleteName
  {
    match s
    case Incomplete => IncompleteName
    case Complete => CompleteName
  }

  /** The enum check: exactly the two status names are accepted, each as its own status. */
  function ParseStatus(text: string): (r: Option<Status>)
    ensures r.Some? <==> (text == IncompleteName || text == CompleteName)
    ensures r.Some? ==> StatusName(r.value) == text
  {
    if text == IncompleteName then Some(Incomplete)
    else if text == CompleteName then Some(Complete)
    else None
  }

  /** Status names are distinct, so the enum has exactly two members and the spelling is lossless. */
  lemma StatusNameInjective(a: Status, b: Status)
    ensures StatusName(a) == StatusName(b) <==> a == b
    ensures ParseStatus(StatusName(a)) == Some(a)
  {
  }

  /** A stored TODO item. `description` is optional in the schema. */
  datatype Todo = Todo(
    id: string,
    title: string,
    description: Option<string>,
    status: Status,
    createdAt: Timestamp,
    updatedAt: Timestamp)

  /** The message zod attaches to an empty title. */
  const TitleRequiredMessage: string := "タイトルは必須です"

  /** The title constraint of the item schema: at least one character. */
  predicate TitleSatisfiesSchema(t: Todo) {
    |t.title| >= 1
  }

  /** The typed create request: `title` required, `description` optional. */
  datatype CreateTodoRequest = CreateTodoRequest(title: string, description: Option<string>)

  /** The create schema's constraint beyond the types: a non-empty title. */
  predicate ValidCreate(req: CreateTodoRequest) {
    |req.title| >= 1
  }

  /** The typed update request: every field optional. */
  datatype UpdateTodoRequest = UpdateTodoRequest(
    title: Option<string>,
    description: Option<string>,
    status: Option<Status>)

  /** The update schema's constraint beyond the types: a title, when present, is non-empty. */
  predicate ValidUpdate(req: UpdateTodoRequest) {
    req.title.Some? ==> |req.title.value| >= 1
  }

  /** A JSON value as far as the schemas look at it: a string, or anything else. */
  datatype JsonValue = JString(text: string) | JOther

  /** A JSON request body: an object with its members, or a JSON value that is not an object. */
  datatype Body = JObject(fields: map<string, JsonValue>) | JNonObject

  /** A violated schema constraint; the route layer answers each with status 400. */
  datatype Issue =
    | ExpectedObject
    | Required(field: string)
    | ExpectedString(field: string)
    | TooSmall(field: string, message: string)
    | InvalidEnumValue(field: string)
    | InvalidUuid(field: string)

  /** `fields` holds exactly `v` under `key`: the member is missing when `v` is absent. */
  predicate Carries(fields: map<string, JsonValue>, key: string, v: Option<string>) {
    match v
    case None => key !in fields
    case Some(s) => key in fields && fields[key] == JString(s)
  }

  /** The wire spelling of an optional status. */
  function StatusText(s: Option<Status>): Option<string> {
    match s
    case None => None
    case Some(st) => Some(StatusName(st))
  }

  /** A member is a non-empty string (`z.string().min(1)`). */
  predicate IsNonEmptyString(v: JsonValue) {
    v.JString? && |v.text| >= 1
  }

  /** A member is a string naming a status (`TodoStatus`). */
  predicate IsStatusString(v: JsonValue) {
    v.JString? && ParseStatus(v.text).Some?
  }

  /** `z.string().min(1)` on a member; `optional` says whether a missing member is accepted. */
  function NonEmptyStringField(fields: map<string, JsonValue>, key: string, optional: bool): Result<Option<string>, Issue> {
    if key !in fields then
      (if optional then Success(None) else Failure(Required(key)))
    else
      match fields[key]
      case JOther => Failure(ExpectedString(key))
      case JString(s) =>
        if |s| < 1 then Failure(TooSmall(key, TitleRequiredMessage)) else Success(Some(s))
  }

  /** `z.string().optional()` on a member. */
  function OptionalStringField(fields: map<string, JsonValue>, key: string): Result<Option<string>, Issue> {
    if key !in fields then Success(None)
    else
      match fields[key]
      case JOther => Failure(ExpectedString(key))
      case JString(s) => Success(Some(s))
  }

  /** `TodoStatus.optional()` on a member. */
  function OptionalStatusField(fields: map<string, JsonValue>, key: string): Result<Option<Status>, Issue> {
    if key !in fields then Success(None)
    else
      match fields[key]
      case JOther => Failure(ExpectedString(key))
      case JString(s) =>
        match ParseStatus(s)
        case None => Failure(InvalidEnumValue(key))
        case Some(st) => Success(Some(st))
  }

  /**
   * `CreateTodoSchema`: accepts exactly the objects whose `title` is a non-empty
   * string and whose `description`, if present, is a string; other members are
   * ignored. The accepted request is valid and carries the body's own values.
   */
  function ParseCreate(body: Body): (r: Result<CreateTodoRequest, Issue>)
    ensures r.Success? <==>
      (body.JObject? && "title" in body.fields && IsNonEmptyString(body.fields["title"])
       && ("description" in body.fields ==> body.fields["description"].JString?))
    ensures r.Success? ==>
      ValidCreate(r.value)
      && Carries(body.fields, "title", Some(r.value.title))
      && Carries(body.fields, "description", r.value.description)
    ensures body.JNonObject? ==> r == Failure(ExpectedObject)
  {
    match body
    case JNonObject => Failure(ExpectedObject)
    case JObject(fields) =>
      match NonEmptyStringField(fields, "title", false)
      case Failure(e) => Failure(e)
      case Success(title) =>
        match OptionalStringField(fields, "description")
        case Failure(e) => Failure(e)
        case Success(description) => Success(CreateTodoRequest(title.value, description))
  }

  /**
   * `UpdateTodoSchema`: accepts exactly the objects whose `title`, if present,
   * is a non-empty string, whose `description`, if present, is a string, and
   * whose `status`, if present, names a status; other members are ignored.
   */
  function ParseUpdate(body: Body): (r: Result<UpdateTodoRequest, Issue>)
    ensures r.Success? <==>
      (body.JObject?
       && ("title" in body.fields ==> IsNonEmptyString(body.fields["title"]))
       && ("description" in body.fields ==> body.fields["description"].JString?)
       && ("status" in body.fields ==> IsStatusString(body.fields["status"])))
    ensures r.Success? ==>
      ValidUpdate(r.value)
      && Carries(body.fields, "title", r.value.title)
      && Carries(body.fields, "description", r.value.description)
      && Carries(body.fields, "status", StatusText(r.value.status))
    ensures body.JNonObject? ==> r == Failure(ExpectedObject)
  {
    match body
    case JNonObject => Failure(ExpectedObject)
    case JObject(fields) =>
      match NonEmptyStringField(fields, "title", true)
      case Failure(e) => Failure(e)
      case Success(title) =>
        match OptionalStringField(fields, "description")
        case Failure(e) => Failure(e)
        case Success(description) =>
          match OptionalStatusField(fields, "status")
          case Failure(e) => Failure(e)
          case Success(status) => Success(UpdateTodoRequest(title, description, status))
  }

  /** The JSON members that stand for an optional string. */
  function Member(key: string, v: Option<string>): map<string, JsonValue> {
    match v
    case None => map[]
    case Some(s) => map[key := JString(s)]
  }

  /** The body a client sends for a create request. */
  function EncodeCreate(req: CreateTodoRequest): Body {
    JObject(Member("title", Some(req.title)) + Member("description", req.description))
  }

  /** The body a client sends for an update request. */
  function EncodeUpdate(req: UpdateTodoRequest): Body {
    JObject(Member("title", req.title) + Member("description", req.description)
            + Member("status", StatusText(req.status)))
  }

  /** The members the create schema looks at. */
  const CreateKeys: set<string> := {"title", "description"}

  /** The members the update schema looks at. */
  const UpdateKeys: set<string> := {"title", "description", "status"}

  /** `fields` without the members outside `keys`. */
  function Restrict(fields: map<string, JsonValue>, keys: set<string>): map<string, JsonValue> {
    map k | k in fields && k in keys :: fields[k]
  }

  /** Every valid create request is accepted when sent, and parsed back to itself. */
  lemma CreateRoundTrip(req: CreateTodoRequest)
    requires ValidCreate(req)
    ensures ParseCreate(EncodeCreate(req)) == Success(req)
  {
  }

  /** Every valid update request is accepted when sent, and parsed back to itself. */
  lemma UpdateRoundTrip(req: UpdateTodoRequest)
    requires ValidUpdate(req)
    ensures ParseUpdate(EncodeUpdate(req)) == Success(req)
  {
  }

  /** An accepted create body is, apart from ignored members, the encoding of the request it yields. */
  lemma CreateDeterminesBody(body: Body)
    requires ParseCreate(body).Success?
    ensures Restrict(body.fields, CreateKeys) == EncodeCreate(ParseCreate(body).value).fields
  {
  }

  /** An accepted update body is, apart from ignored members, the encoding of the request it yields. */
  lemma UpdateDeterminesBody(body: Body)
    requires ParseUpdate(body).Success?
    ensures Restrict(body.fields, UpdateKeys) == EncodeUpdate(ParseUpdate(body).value).fields
  {
  }

  /** Unknown members of a body are ignored, not rejected. */
  lemma ExtraMembersIgnored(fields: map<string, JsonValue>)
    ensures ParseCreate(JObject(fields)) == ParseCreate(JObject(Restrict(fields, CreateKeys)))
    ensures ParseUpdate(JObject(fields)) == ParseUpdate(JObject(Restrict(fields, UpdateKeys)))
  {
  }
}
