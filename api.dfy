/** The front end's endpoint table (config/api.ts): the API base URL, taken
    from the build environment with a local default, and the address of
    each back-end route built on it by plain concatenation. Nothing is
    URL-encoded. */
module ApiConfig {
  import opened Common

  const DefaultApiUrl: string := "http://localhost:3000"

  /** `import.meta.env.VITE_API_URL || 'http://localhost:3000'`: never
      empty, since an empty setting falls back to the default. */
  function ApiUrl(env: Option<string>): (url: string)
    ensures url != ""
    ensures Present(env) ==> url == env.value
    ensures !Present(env) ==> url == DefaultApiUrl
  {
    if Present(env) then env.value else DefaultApiUrl
  }

  function AdminTasks(api: string): string { api + "/admin/tasks" }
  function ContributorTasks(api: string): string { api + "/contributor/tasks" }
  function SubmitAudio(api: string): string { api + "/submissions/audio" }
  function SubmitImage(api: string): string { api + "/submissions/image" }
  function SubmitText(api: string): string { api + "/submissions/text" }

  /** `USER_SUBMISSIONS(userId)` */
  function UserSubmissions(api: string, userId: string): string
  {
    api + "/user/submissions/" + userId
  }

  /** `CHECK_TASK_COMPLETION(userId, taskId)`, written out in full in the
      source. */
  function CheckTaskCompletion(api: string, userId: string, taskId: string): string
  {
    api + "/user/submissions/" + userId + "/task/" + taskId
  }

  /** Every fixed endpoint starts with the API URL, and no two of them are
      the same address. */
  lemma FixedEndpointsAreDistinct(api: string)
    ensures var all := [AdminTasks(api), ContributorTasks(api), SubmitAudio(api), SubmitImage(api), SubmitText(api)];
      (forall i :: 0 <= i < 5 ==> StartsWith(all[i], api)) &&
      (forall i, j :: 0 <= i < j < 5 ==> all[i] != all[j])
  {
    var n := |api|;
    assert AdminTasks(api)[n + 1] == 'a' && ContributorTasks(api)[n + 1] == 'c' && SubmitAudio(api)[n + 1] == 's';
    assert SubmitAudio(api)[n + 13] == 'a' && SubmitImage(api)[n + 13] == 'i' && SubmitText(api)[n + 13] == 't';
    assert SubmitImage(api)[n + 1] == 's' && SubmitText(api)[n + 1] == 's';
    var all := [AdminTasks(api), ContributorTasks(api), SubmitAudio(api), SubmitImage(api), SubmitText(api)];
    forall i | 0 <= i < 5 ensures StartsWith(all[i], api) {
      assert all[i][..n] == api;
    }
  }

  /** The task-check address extends the user's submission address. */
  lemma CheckExtendsUserSubmissions(api: string, userId: string, taskId: string)
    ensures CheckTaskCompletion(api, userId, taskId) == UserSubmissions(api, userId) + "/task/" + taskId
  {
  }

  /** The path the two user-submission addresses put after the API URL. */
  function CheckPath(userId: string, taskId: string): string
  {
    "/user/submissions/" + userId + "/task/" + taskId
  }

  /** The route written with its separators, split back at them. */
  lemma {:induction false} SplitRoute(userId: string, taskId: string)
    requires '/' !in userId && '/' !in taskId
    ensures Split([] + ['/'] + ("user" + ['/'] + ("submissions" + ['/'] + (userId + ['/'] + ("task" + ['/'] + taskId)))), '/')
      == ["", "user", "submissions", userId, "task", taskId]
  {
    var tail4 := "task" + ['/'] + taskId;
    var tail3 := userId + ['/'] + tail4;
    var tail2 := "submissions" + ['/'] + tail3;
    var tail1 := "user" + ['/'] + tail2;
    assert Split(tail4, '/') == ["task", taskId] by {
      SplitNoSeparator(taskId, '/');
      SplitAt("task", '/', taskId);
    }
    assert Split(tail3, '/') == [userId, "task", taskId] by {
      SplitAt(userId, '/', tail4);
    }
    assert Split(tail2, '/') == ["submissions", userId, "task", taskId] by {
      SplitAt("submissions", '/', tail3);
    }
    assert Split(tail1, '/') == ["user", "submissions", userId, "task", taskId] by {
      SplitAt("user", '/', tail2);
    }
    SplitAt([], '/', tail1);
  }

  /** Ids without a slash come back out of the task-check address: split at
      the slashes, its path is the route `/user/submissions/:userId/task/:taskId`
      with the two ids in the parameter places. */
  lemma {:induction false} CheckPathSegments(userId: string, taskId: string)
    requires '/' !in userId && '/' !in taskId
    ensures Split(CheckPath(userId, taskId), '/') == ["", "user", "submissions", userId, "task", taskId]
  {
    assert CheckPath(userId, taskId) ==
      [] + ['/'] + ("user" + ['/'] + ("submissions" + ['/'] + (userId + ['/'] + ("task" + ['/'] + taskId)))) by {
      assert "/user/submissions/" == ['/'] + "user" + ['/'] + "submissions" + ['/'];
      assert "/task/" == ['/'] + "task" + ['/'];
    }
    SplitRoute(userId, taskId);
  }

  /** Different users have different submission addresses, and a task
      check names one user and one task. */
  lemma UserAddressesAreInjective(api: string, u1: string, u2: string, t1: string, t2: string)
    ensures UserSubmissions(api, u1) == UserSubmissions(api, u2) ==> u1 == u2
    ensures '/' !in u1 + u2 + t1 + t2 && CheckTaskCompletion(api, u1, t1) == CheckTaskCompletion(api, u2, t2) ==>
      u1 == u2 && t1 == t2
  {
    var p := api + "/user/submissions/";
    if UserSubmissions(api, u1) == UserSubmissions(api, u2) {
      assert u1 == UserSubmissions(api, u1)[|p|..];
    }
    if '/' !in u1 + u2 + t1 + t2 && CheckTaskCompletion(api, u1, t1) == CheckTaskCompletion(api, u2, t2) {
      assert forall ch :: ch in u1 || ch in u2 || ch in t1 || ch in t2 ==> ch in u1 + u2 + t1 + t2;
      assert CheckTaskCompletion(api, u1, t1)[|api|..] == CheckPath(u1, t1);
      assert CheckTaskCompletion(api, u2, t2)[|api|..] == CheckPath(u2, t2);
      CheckPathSegments(u1, t1);
      CheckPathSegments(u2, t2);
    }
  }
}
