/** The admin page that creates a task (pages/AdminCreateTask.tsx): the
    form with its defaults, the record built from it on submit, and the
    submit flow, which posts the record and hands the stored row to
    `onSave` when the server accepts it.

    The fetch is split at its `await`: `StartSubmit` builds the request and
    raises the loading flag, `FinishSubmit` takes the server's answer.
    Before `handleSubmit` runs at all, the browser checks the form's
    `required` and `min` attributes.
    Number inputs are integers here (`Number` of a non-numeric text, NaN,
    is not modelled). */
module AdminCreateTaskPage {
  import opened Common
  import opened Types

  /** The form state. `taskType` and `difficulty` hold the value of the
      selected option. */
  datatype FormData = FormData(
    title: string,
    taskType: string,
    compensation: int,
    estimatedTimeMin: int,
    language: string,
    project: string,
    difficulty: string,
    prompt: string,
    instructions: string,
    aiCapability: string,
    dataUsage: string,
    imageUrl: string,
    requirementsString: string)

  /** The browser's constraint validation of the form: the title, project,
      language, prompt, instructions, AI capability and data usage inputs
      are `required`, the compensation has `min="0"` and the estimated
      time `min="1"`. The number inputs always hold a number here, so
      their own `required` is met. */
  predicate FormAccepted(f: FormData)
  {
    f.title != "" && f.project != "" && f.language != "" && f.prompt != "" &&
    f.instructions != "" && f.aiCapability != "" && f.dataUsage != "" &&
    0 <= f.compensation && 1 <= f.estimatedTimeMin
  }

  /** The fields' `onChange` handlers; each replaces one field. */
  datatype Edit =
    | SetTitle(s: string) | SetType(s: string) | SetProject(s: string)
    | SetCompensation(n: int) | SetEstimatedTime(n: int) | SetDifficulty(s: string)
    | SetLanguage(s: string) | SetRequirements(s: string) | SetPrompt(s: string)
    | SetInstructions(s: string) | SetAiCapability(s: string) | SetDataUsage(s: string)
    | SetImageUrl(s: string)

  function Apply(f: FormData, e: Edit): FormData
  {
    match e
    case SetTitle(s) => f.(title := s)
    case SetType(s) => f.(taskType := s)
    case SetProject(s) => f.(project := s)
    case SetCompensation(n) => f.(compensation := n)
    case SetEstimatedTime(n) => f.(estimatedTimeMin := n)
    case SetDifficulty(s) => f.(difficulty := s)
    case SetLanguage(s) => f.(language := s)
    case SetRequirements(s) => f.(requirementsString := s)
    case SetPrompt(s) => f.(prompt := s)
    case SetInstructions(s) => f.(instructions := s)
    case SetAiCapability(s) => f.(aiCapability := s)
    case SetDataUsage(s) => f.(dataUsage := s)
    case SetImageUrl(s) => f.(imageUrl := s)
  }

  /** Each `r.trim()` of the pieces. */
  function TrimAll(parts: seq<string>): (r: seq<string>)
    ensures |r| == |parts|
    ensures forall i :: 0 <= i < |r| ==> r[i] == Trim(parts[i])
  {
    seq(|parts|, i requires 0 <= i < |parts| => Trim(parts[i]))
  }

  /** `requirementsString ? requirementsString.split(",").map(r => r.trim()) : []` */
  function Requirements(s: string): seq<string>
  {
    if s == "" then [] else TrimAll(Split(s, ','))
  }

  /** An empty text gives no requirement; otherwise there is one
      requirement per comma-separated piece, one more than there are
      commas, empty pieces included, each trimmed: without white space at
      either end and without a comma. */
  lemma {:induction false} RequirementsShape(s: string)
    ensures s == "" ==> Requirements(s) == []
    ensures s != "" ==> |Requirements(s)| == Count(s, ',') + 1
    ensures forall i :: 0 <= i < |Requirements(s)| ==>
      var r := Requirements(s)[i];
      r == Trim(Split(s, ',')[i]) && ',' !in r && (r == [] || (!IsSpace(r[0]) && !IsSpace(r[|r| - 1])))
  {
    if s != "" {
      SplitShape(s, ',');
      var parts := Split(s, ',');
      forall i | 0 <= i < |parts|
        ensures var r := Requirements(s)[i];
          ',' !in r && (r == [] || (!IsSpace(r[0]) && !IsSpace(r[|r| - 1])))
      {
        TrimKeepsMiddle(parts[i]);
      }
    }
  }

  /** A requirements text whose pieces carry no surrounding white space is
      read back unchanged: joining the requirements with commas gives the
      text again. */
  lemma RequirementsRoundTrip(s: string)
    requires s != ""
    requires forall i :: 0 <= i < |Split(s, ',')| ==> Trim(Split(s, ',')[i]) == Split(s, ',')[i]
    ensures Join(Requirements(s), ',') == s
  {
    JoinSplit(s, ',');
    assert Requirements(s) == Split(s, ',');
  }

  function JsonStrings(xs: seq<string>): (j: seq<Json>)
    ensures |j| == |xs| && forall i :: 0 <= i < |xs| ==> j[i] == JStr(xs[i])
  {
    seq(|xs|, i requires 0 <= i < |xs| => JStr(xs[i]))
  }

  /** `newTask`, the object `handleSubmit` posts; `imageUrl` is `None` for
      `null`. */
  datatype TaskRecord = TaskRecord(
    title: string,
    taskType: string,
    compensation: int,
    currency: string,
    estimatedTimeMin: int,
    status: string,
    language: string,
    project: string,
    difficulty: string,
    prompt: string,
    instructions: string,
    aiCapability: string,
    dataUsage: string,
    imageUrl: Option<string>,
    requirements: seq<string>)

  /** The record built from the form: the status is always "AVAILABLE" and
      the currency "INR", the image URL is `null` exactly when the field is
      empty, the requirements are read from their text, and every other
      field is the form's. */
  function NewTask(f: FormData): (r: TaskRecord)
    ensures r.status == "AVAILABLE" && r.currency == "INR"
    ensures r.imageUrl.None? <==> f.imageUrl == ""
    ensures r.imageUrl.Some? ==> r.imageUrl.value == f.imageUrl
    ensures r.requirements == Requirements(f.requirementsString)
    ensures r.title == f.title && r.taskType == f.taskType && r.compensation == f.compensation
    ensures r.estimatedTimeMin == f.estimatedTimeMin && r.language == f.language && r.project == f.project
    ensures r.difficulty == f.difficulty && r.prompt == f.prompt && r.instructions == f.instructions
    ensures r.aiCapability == f.aiCapability && r.dataUsage == f.dataUsage
  {
    TaskRecord(f.title, f.taskType, f.compensation, "INR", f.estimatedTimeMin, "AVAILABLE", f.language,
               f.project, f.difficulty, f.prompt, f.instructions, f.aiCapability, f.dataUsage,
               if f.imageUrl != "" then Some(f.imageUrl) else None,
               Requirements(f.requirementsString))
  }

  /** Only the white space around the requirement pieces is lost: two
      forms give the same record only when every other field agrees and
      their requirements read the same. */
  lemma NewTaskKeepsTheForm(f: FormData, g: FormData)
    requires NewTask(f) == NewTask(g)
    ensures f.(requirementsString := "") == g.(requirementsString := "")
    ensures Requirements(f.requirementsString) == Requirements(g.requirementsString)
  {
  }

  /** `JSON.stringify(newTask)`: the record under its snake_case keys. */
  function Body(r: TaskRecord): map<string, Json>
  {
    map[
      "title" := JStr(r.title),
      "type" := JStr(r.taskType),
      "compensation" := JNum(r.compensation),
      "currency" := JStr(r.currency),
      "estimated_time_min" := JNum(r.estimatedTimeMin),
      "status" := JStr(r.status),
      "language" := JStr(r.language),
      "project" := JStr(r.project),
      "difficulty" := JStr(r.difficulty),
      "prompt" := JStr(r.prompt),
      "instructions" := JStr(r.instructions),
      "ai_capability" := JStr(r.aiCapability),
      "data_usage" := JStr(r.dataUsage),
      "image_url" := if r.imageUrl.Some? then JStr(r.imageUrl.value) else JNull,
      "requirements" := JArr(JsonStrings(r.requirements))]
  }

  /** The body posted carries the status "AVAILABLE". */
  lemma BodyStatus(f: FormData)
    ensures Field(Body(NewTask(f)), "status") == Some(JStr("AVAILABLE"))
  {
  }

  /** The address the page posts to; it does not follow the configured API
      URL. */
  const CreateTaskUrl: string := "http://localhost:3000/admin/tasks"

  /** A POST request carrying a JSON body. */
  datatype PostRequest = PostRequest(url: string, body: Json)

  /** What the `fetch` gives back: a throw (network failure), or a status
      with its body, `None` when the body is not JSON. */
  datatype FetchReply = FetchThrew | HttpReply(status: int, body: Option<Json>)

  /** `res.ok` */
  predicate IsOk(reply: FetchReply)
  {
    reply.HttpReply? && 200 <= reply.status <= 299
  }

  /** What the rest of `handleSubmit` does with the answer: the row handed
      to `onSave`, if any, and the alert shown. */
  datatype SubmitOutcome = SubmitOutcome(saved: Option<Json>, alert: string)

  function Outcome(reply: FetchReply): (o: SubmitOutcome)
    ensures o.saved.Some? <==> IsOk(reply) && reply.body.Some?
    ensures o.saved.Some? ==> o.saved == reply.body && o.alert == "Task created successfully!"
    ensures o.saved.None? ==> o.alert == "Failed to create task"
  {
    if IsOk(reply) && reply.body.Some? then SubmitOutcome(reply.body, "Task created successfully!")
    else SubmitOutcome(None, "Failed to create task")
  }

  class AdminCreateTask {
    var formData: FormData
    var isLoading: bool

    /** The form starts with an empty title, project, prompt, instructions,
        descriptions, image URL and requirements, the audio collection
        type, a compensation of 100, two minutes, English and the
        beginner difficulty; nothing is loading. */
    constructor ()
      ensures formData == FormData("", AudioCollection.Value(), 100, 2, "English", "", "Beginner", "", "", "", "", "", "")
      ensures !isLoading
    {
      formData := FormData("", "Audio Collection", 100, 2, "English", "", "Beginner", "", "", "", "", "", "");
      isLoading := false;
    }

    /** A field's `onChange`. */
    method Change(e: Edit)
      modifies this`formData
      ensures formData == Apply(old(formData), e)
    {
      formData := Apply(formData, e);
    }

    /** The submit up to the `await fetch(...)`. A form the browser
        refuses posts nothing and changes nothing. Otherwise the loading
        flag is raised (the submit button is disabled while it is) and the
        record is posted to the fixed address. */
    method StartSubmit() returns (request: Option<PostRequest>)
      requires !isLoading
      modifies this`isLoading
      ensures request.Some? <==> FormAccepted(formData)
      ensures isLoading <==> request.Some?
      ensures request.Some? ==> request.value == PostRequest(CreateTaskUrl, JObj(Body(NewTask(formData))))
    {
      if !FormAccepted(formData) {
        return None;
      }
      isLoading := true;
      request := Some(PostRequest(CreateTaskUrl, JObj(Body(NewTask(formData)))));
    }

    /** The rest of the submit once the answer is in: whatever it is, the
        loading flag comes down; `onSave` gets the server's row only when
        the answer is ok and carries JSON. The form is not cleared. */
    method FinishSubmit(reply: FetchReply) returns (outcome: SubmitOutcome)
      requires isLoading
      modifies this`isLoading
      ensures !isLoading
      ensures outcome == Outcome(reply)
    {
      if !IsOk(reply) {
        outcome := SubmitOutcome(None, "Failed to create task");
      } else if reply.body.None? {
        outcome := SubmitOutcome(None, "Failed to create task");
      } else {
        outcome := SubmitOutcome(reply.body, "Task created successfully!");
      }
      isLoading := false;
    }
  }
}
