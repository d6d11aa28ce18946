/** The user-submission routes (starset-backend/src/routes/user.submissions.ts):
    `GET /:userId`, the submissions of a user with the list of task ids
    they cover, and `GET /:userId/task/:taskId`, whether the user has
    submitted a given task.

    The handlers are functions of the path parameters and of the
    `{ data, error }` pair the database client hands back. The query
    functions below say which pair the client hands back for a given
    `submissions` table; the one for `.single()` follows PostgREST, which
    answers with error code `PGRST116` whenever the query does not match
    exactly one row. */
module UserSubmissions {
  import opened Common
  import opened Types
  import opened TableQuery

  /** A row of the `submissions` table, column by column. */
  type Row = map<string, Json>

  datatype ManyReply = ManyReply(data: Option<seq<Row>>, error: Option<DbError>)

  datatype OneReply = OneReply(data: Option<Row>, error: Option<DbError>)

  /** `sub.task_id`; an `undefined` inside an array is serialised as `null`. */
  function TaskIdOf(row: Row): Json
  {
    if "task_id" in row then row["task_id"] else JNull
  }

  function TaskIds(rows: seq<Row>): seq<Json>
  {
    seq(|rows|, i requires 0 <= i < |rows| => TaskIdOf(rows[i]))
  }

  function Objects(rows: seq<Row>): seq<Json>
  {
    seq(|rows|, i requires 0 <= i < |rows| => JObj(rows[i]))
  }

  /** `GET /user/submissions/:userId` */
  function GetUserSubmissions(userId: string, reply: ManyReply): Response
  {
    if userId == "" then Response(400, ErrorBody("User ID is required"))
    else if reply.error.Some? then
      Response(500, ErrorDetails("Failed to fetch user submissions", reply.error.value.message))
    else
      var rows := if reply.data.Some? then reply.data.value else [];
      Response(200, JObj(map["success" := JBool(true),
                             "completedTasks" := JArr(TaskIds(rows)),
                             "submissions" := JArr(Objects(rows))]))
  }

  /** `completedTasks` lists the task id of each returned submission, in
      the same order, one per submission, duplicates included; with no
      data both lists are empty; a database error is a 500 that passes the
      error's message on; an empty user id is a 400. */
  lemma CompletedTasksMirrorSubmissions(userId: string, reply: ManyReply)
    ensures var resp := GetUserSubmissions(userId, reply);
      (userId == "" ==> resp.status == 400) &&
      (userId != "" && reply.error.Some? ==>
        resp == Response(500, ErrorDetails("Failed to fetch user submissions", reply.error.value.message))) &&
      (userId != "" && reply.error.None? ==>
        var rows := if reply.data.Some? then reply.data.value else [];
        var ids := resp.body.fields["completedTasks"];
        var subs := resp.body.fields["submissions"];
        resp.status == 200 && ids.JArr? && subs.JArr? &&
        |ids.items| == |subs.items| == |rows| &&
        (forall i :: 0 <= i < |rows| ==> ids.items[i] == TaskIdOf(rows[i]) && subs.items[i] == JObj(rows[i])) &&
        (reply.data.None? ==> ids.items == [] && subs.items == []))
  {
  }

  /** `.eq('user_id', userId)`, keeping the columns
      `task_id, status, submitted_at`. */
  function SubmissionsOf(table: seq<Row>, userId: string): ManyReply
  {
    var mine := Filter(table, (row: Row) => Field(row, "user_id") == Some(JStr(userId)));
    ManyReply(Some(seq(|mine|, i requires 0 <= i < |mine| =>
                       map k | k in mine[i] && k in {"task_id", "status", "submitted_at"} :: mine[i][k])), None)
  }

  /** Every task id the list route reports belongs to a submission of
      that user in the table. */
  lemma CompletedTasksBelongToTheUser(table: seq<Row>, userId: string, k: nat)
    requires userId != ""
    requires var ids := GetUserSubmissions(userId, SubmissionsOf(table, userId)).body.fields["completedTasks"];
      k < |ids.items| && ids.items[k] != JNull
    ensures var id := GetUserSubmissions(userId, SubmissionsOf(table, userId)).body.fields["completedTasks"].items[k];
      exists row :: row in table && Field(row, "user_id") == Some(JStr(userId)) && Field(row, "task_id") == Some(id)
  {
    var mine := Filter(table, (row: Row) => Field(row, "user_id") == Some(JStr(userId)));
    var rows := SubmissionsOf(table, userId).data.value;
    assert rows[k] == map c | c in mine[k] && c in {"task_id", "status", "submitted_at"} :: mine[k][c];
    assert mine[k] in mine;
  }

  /** `GET /user/submissions/:userId/task/:taskId` */
  function CheckTaskCompletion(userId: string, taskId: string, reply: OneReply): Response
  {
    if userId == "" || taskId == "" then Response(400, ErrorBody("User ID and Task ID are required"))
    else if reply.error.Some? && reply.error.value.code != "PGRST116" then
      Response(500, ErrorDetails("Failed to check task completion", reply.error.value.message))
    else
      Response(200, JObj(map["success" := JBool(true),
                             "completed" := JBool(reply.data.Some?),
                             "submission" := if reply.data.Some? then JObj(reply.data.value) else JNull]))
  }

  /** `completed` is true exactly when a row came back; the error code
      `PGRST116` is not treated as an error, any other code is a 500. */
  lemma CompletedIffRowReturned(userId: string, taskId: string, reply: OneReply)
    requires userId != "" && taskId != ""
    ensures var resp := CheckTaskCompletion(userId, taskId, reply);
      (reply.error.Some? && reply.error.value.code != "PGRST116" <==> resp.status == 500) &&
      (resp.status != 500 ==>
        resp.status == 200 && resp.body.fields["completed"] == JBool(reply.data.Some?) &&
        (reply.data.Some? <==> resp.body.fields["submission"] != JNull))
  {
  }

  /** The rows of `user_id = userId and task_id = taskId`. */
  function Matching(table: seq<Row>, userId: string, taskId: string): seq<Row>
  {
    Filter(table, (row: Row) => Field(row, "user_id") == Some(JStr(userId)) && Field(row, "task_id") == Some(JStr(taskId)))
  }

  /** `.single()`: the row when exactly one matches, otherwise no data and
      error `PGRST116`. */
  function Single(rows: seq<Row>): OneReply
  {
    if |rows| == 1 then OneReply(Some(rows[0]), None)
    else OneReply(None, Some(DbError("PGRST116", "JSON object requested, multiple (or no) rows returned")))
  }

  /** As written, the task check reports a task completed exactly when
      the user has submitted it exactly once. */
  lemma CompletedIffExactlyOneSubmission(table: seq<Row>, userId: string, taskId: string)
    requires userId != "" && taskId != ""
    ensures var resp := CheckTaskCompletion(userId, taskId, Single(Matching(table, userId, taskId)));
      resp.status == 200 &&
      (resp.body.fields["completed"] == JBool(true) <==> |Matching(table, userId, taskId)| == 1)
  {
  }

  /** A user who submitted the same task twice (nothing in the submission
      routes prevents it) is told the task is not completed. */
  lemma DuplicateSubmissionReadsAsIncomplete()
    ensures var row := map["user_id" := JStr("u"), "task_id" := JStr("t")];
      CheckTaskCompletion("u", "t", Single(Matching([row, row], "u", "t"))).body.fields["completed"] == JBool(false)
  {
    var row := map["user_id" := JStr("u"), "task_id" := JStr("t")];
    assert Field(row, "user_id") == Some(JStr("u")) && Field(row, "task_id") == Some(JStr("t"));
    assert Matching([row, row], "u", "t") == [row, row];
  }

  /** `.limit(1).maybeSingle()`: the first matching row if there is one,
      never an error for zero or several rows. */
  function FirstMatch(rows: seq<Row>): OneReply
  {
    if rows == [] then OneReply(None, None) else OneReply(Some(rows[0]), None)
  }

  /** The task check with the query reading at most one row. */
  function CheckTaskCompletionFixed(table: seq<Row>, userId: string, taskId: string): Response
  {
    CheckTaskCompletion(userId, taskId, FirstMatch(Matching(table, userId, taskId)))
  }

  /** With the corrected query, a task is completed exactly when the user
      has at least one submission for it, and the submission returned is
      one of theirs for that task. */
  lemma FixedCompletedIffAnySubmission(table: seq<Row>, userId: string, taskId: string)
    requires userId != "" && taskId != ""
    ensures var resp := CheckTaskCompletionFixed(table, userId, taskId);
      resp.status == 200 &&
      (resp.body.fields["completed"] == JBool(true) <==>
        exists row :: row in table && Field(row, "user_id") == Some(JStr(userId)) && Field(row, "task_id") == Some(JStr(taskId))) &&
      (resp.body.fields["submission"] != JNull ==>
        var s := resp.body.fields["submission"].fields;
        Field(s, "user_id") == Some(JStr(userId)) && Field(s, "task_id") == Some(JStr(taskId)))
  {
    var m := Matching(table, userId, taskId);
    if m != [] {
      assert m[0] in m;
    }
  }
}
