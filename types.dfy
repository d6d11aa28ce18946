/** The records and enumerations the front end and the back end share:
    task status and type enumerations with their string values, user roles,
    the pages of the signed-in application, the task record, and the
    JSON values that travel between browser, server and database. */
module Types {
  import opened Common

  /** `TaskStatus`; `Value()` is the string the enumeration member stands for. */
  datatype TaskStatus = Available | InProgress | Validating | Accepted | NotAccepted
  {
    function Value(): string
    {
      match this
      case Available => "Available"
      case InProgress => "In Progress"
      case Validating => "Validating"
      case Accepted => "Accepted"
      case NotAccepted => "Not Accepted"
    }
  }

  /** `TaskType`; the survey member's string is "Evaluation". */
  datatype TaskType = AudioCollection | ImageCollection | TextAnnotation | ImageLabeling | Survey
  {
    function Value(): string
    {
      match this
      case AudioCollection => "Audio Collection"
      case ImageCollection => "Image Collection"
      case TextAnnotation => "Text Annotation"
      case ImageLabeling => "Image Labeling"
      case Survey => "Evaluation"
    }
  }

  /** `UserRole`, the two roles the code itself ever passes around. */
  datatype UserRole = Contributor | Admin
  {
    function Value(): string
    {
      match this
      case Contributor => "contributor"
      case Admin => "admin"
    }
  }

  /** A `userRole` prop with its default: "contributor" when the prop is
      not passed. */
  function RoleProp(userRole: Option<string>): (role: string)
    ensures userRole.None? ==> role == Contributor.Value()
    ensures userRole.Some? ==> role == userRole.value
  {
    if userRole.Some? then userRole.value else "contributor"
  }

  /** `PageView`: the pages of the signed-in application. */
  datatype PageView =
    | Dashboard | Tasks | Execution | Earnings | Account | Support | Guidelines
    | AdminDashboard | AdminCreateTask | CompleteProfile

  /** `Task` as the front end holds it. The status and type are strings:
      tasks arrive as JSON rows from the server, so nothing forces them to
      be members of the enumerations above. */
  datatype Task = Task(
    id: string,
    title: string,
    taskType: string,
    compensation: int,
    currency: string,
    estimatedTimeMin: int,
    status: string,
    language: string,
    instructions: string,
    imageUrl: Option<string>,
    aiCapability: string,
    dataUsage: string,
    prompt: string,
    options: Option<seq<string>>,
    project: string,
    difficulty: string,
    requirements: Option<seq<string>>)

  /** A JSON value (or a JavaScript value about to be serialised). */
  datatype Json =
    | JNull
    | JBool(b: bool)
    | JNum(n: int)
    | JStr(s: string)
    | JArr(items: seq<Json>)
    | JObj(fields: map<string, Json>)

  /** Property access on a JSON object; an absent key reads as `undefined`. */
  function Field(fields: map<string, Json>, key: string): Option<Json>
  {
    if key in fields then Some(fields[key]) else None
  }

  /** JavaScript truthiness of a value that may be `undefined` (`None`). */
  predicate Truthy(v: Option<Json>)
  {
    match v
    case None => false
    case Some(j) =>
      match j
      case JNull => false
      case JBool(b) => b
      case JNum(n) => n != 0
      case JStr(s) => s != ""
      case JArr(_) => true
      case JObj(_) => true
  }

  /** Adds a key to an object literal unless its value is `undefined`:
      `JSON.stringify` drops such keys. */
  function With(m: map<string, Json>, key: string, v: Option<Json>): (r: map<string, Json>)
    ensures v.Some? ==> r == m[key := v.value]
    ensures v.None? ==> r == m
  {
    if v.Some? then m[key := v.value] else m
  }

  /** An HTTP answer: a JSON body, or a plain-text one (`res.send`). */
  datatype Response =
    | Response(status: int, body: Json)
    | TextResponse(status: int, text: string)

  function ErrorBody(message: string): Json
  {
    JObj(map["error" := JStr(message)])
  }

  function ErrorDetails(message: string, details: string): Json
  {
    JObj(map["error" := JStr(message), "details" := JStr(details)])
  }

  /** No member of the status enumeration is spelled like the strings the
      pages and routes actually compare statuses with. */
  lemma StatusValuesAreNotTheComparedStrings(s: TaskStatus)
    ensures s.Value() != "AVAILABLE" && s.Value() != "active"
  {
  }
}
