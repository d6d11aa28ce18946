/** How the pieces fit together for a task an admin creates: the page
    posts its record to the admin route, the route inserts it, and the
    contributor route and the task list decide whether it is shown. The
    status strings do not agree across these pieces: the page writes
    "AVAILABLE", the task list shows "AVAILABLE", the contributor route
    asks for "active", and the status enumeration spells its members
    "Available", "In Progress" and so on. */
module TaskLifecycle {
  import opened Common
  import opened Types
  import opened TableQuery
  import opened AdminTasks
  import opened ContributorTasks
  import opened AdminCreateTaskPage
  import Submissions
  import UserSubmissions
  import ApiConfig

  /** The body the page posts names only task columns, so the admin route
      inserts it whole. */
  lemma {:induction false} CreatedTaskIsInsertedWhole(f: FormData)
    ensures Whitelist(Body(NewTask(f))) == Body(NewTask(f))
    ensures Field(Whitelist(Body(NewTask(f))), "status") == Some(JStr("AVAILABLE"))
  {
    var body := Body(NewTask(f));
    assert body.Keys == TaskColumns;
    WhitelistKeepsTaskColumns(body);
    BodyStatus(f);
  }

  /** A form the browser lets through inserts a task with a non-empty
      title, a compensation of at least 0 and an estimated time of at
      least one minute. */
  lemma {:induction false} AcceptedFormsInsertBoundedTasks(f: FormData)
    requires FormAccepted(f)
    ensures var row := Whitelist(Body(NewTask(f)));
      var title := Field(row, "title");
      var pay := Field(row, "compensation");
      var minutes := Field(row, "estimated_time_min");
      title.Some? && title.value.JStr? && title.value.s != "" &&
      pay.Some? && pay.value.JNum? && pay.value.n >= 0 &&
      minutes.Some? && minutes.value.JNum? && minutes.value.n >= 1
  {
    var body := Body(NewTask(f));
    CreatedTaskIsInsertedWhole(f);
    assert Field(body, "title") == Some(JStr(f.title));
    assert Field(body, "compensation") == Some(JNum(f.compensation));
    assert Field(body, "estimated_time_min") == Some(JNum(f.estimatedTimeMin));
  }

  /** The admin page posts new tasks to a fixed local address; it agrees
      with the configured admin endpoint exactly when the API URL is the
      default. */
  lemma CreateTaskAddressIsFixed(env: Option<string>)
    ensures CreateTaskUrl == ApiConfig.AdminTasks(ApiConfig.ApiUrl(env)) <==> ApiConfig.ApiUrl(env) == ApiConfig.DefaultApiUrl
  {
    var api := ApiConfig.ApiUrl(env);
    if CreateTaskUrl == ApiConfig.AdminTasks(api) {
      assert |api| == |ApiConfig.DefaultApiUrl|;
      assert api == ApiConfig.AdminTasks(api)[..|api|];
    }
  }

  /** The answer of the route as the page's `fetch` sees it: a plain-text
      body is not JSON. */
  function AsFetchReply(resp: Response): FetchReply
  {
    match resp
    case Response(status, body) => HttpReply(status, Some(body))
    case TextResponse(status, _) => HttpReply(status, None)
  }

  /** Posting a form to the admin route: `onSave` receives exactly the row
      the database stored for the page's record, and nothing when the
      database refuses it or the client throws. */
  lemma {:induction false} CreateRoundTrip(f: FormData, db: map<string, Json> -> InsertTaskReply)
    ensures var sent := Body(NewTask(f));
      var o := Outcome(AsFetchReply(PostTask(sent, db)));
      (o.saved.Some? <==> db(sent).TaskStored?) &&
      (db(sent).TaskStored? ==> o.saved == Some(JObj(db(sent).row)))
  {
    CreatedTaskIsInsertedWhole(f);
  }

  /** Whatever else the database adds to it, a row that keeps the status
      the page wrote is never listed by the contributor route. */
  lemma {:induction false} CreatedTasksNeverReachContributors(f: FormData, table: seq<TaskRow>, row: TaskRow)
    requires Field(row.fields, "status") == Field(Body(NewTask(f)), "status")
    ensures JObj(row.fields) !in GetContributorTasks(ActiveTasks(table)).body.items
  {
    BodyStatus(f);
    ListsExactlyActivePublicTasks(table);
    var rows := ActiveTasks(table).data.value;
    assert JStr("AVAILABLE") != JStr("active") by {
      assert |"AVAILABLE"| != |"active"|;
    }
    var items := GetContributorTasks(ActiveTasks(table)).body.items;
    forall j | 0 <= j < |items| ensures items[j] != JObj(row.fields) {
      assert rows[j] in rows;
    }
  }

  /** Once the row of an audio submission is in the `submissions` table,
      the list route reports its task among the user's completed tasks. */
  lemma {:induction false} SubmittedTaskIsListed(table: seq<map<string, Json>>, taskId: string, userId: string,
                                                 url: string, file: Submissions.UploadedFile, now: string)
    requires userId != ""
    requires Submissions.AudioRow(taskId, userId, url, file, now) in table
    ensures var resp := UserSubmissions.GetUserSubmissions(userId, UserSubmissions.SubmissionsOf(table, userId));
      resp.status == 200 && JStr(taskId) in resp.body.fields["completedTasks"].items
  {
    var row := Submissions.AudioRow(taskId, userId, url, file, now);
    Submissions.FileRowsStartPending(taskId, userId, url, file, now);
    var mine := Filter(table, (r: map<string, Json>) => Field(r, "user_id") == Some(JStr(userId)));
    assert row in mine;
    var i :| 0 <= i < |mine| && mine[i] == row;
    var rows := UserSubmissions.SubmissionsOf(table, userId).data.value;
    assert "task_id" in rows[i] && rows[i]["task_id"] == JStr(taskId);
    var ids := UserSubmissions.GetUserSubmissions(userId, UserSubmissions.SubmissionsOf(table, userId)).body.fields["completedTasks"].items;
    assert ids[i] == JStr(taskId);
  }
}
