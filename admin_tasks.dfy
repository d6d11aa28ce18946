/** The admin task routes (starset-backend/src/routes/admin.tasks.ts):
    `POST /`, which inserts a task built from fifteen named fields of the
    request body, and `GET /`, which lists every task newest first.

    The database is an oracle: for the insert, a function from the record
    sent to the reply; for the list, the `{ data, error }` pair, or `None`
    when the client call itself throws. */
module AdminTasks {
  import opened Common
  import opened Types
  import opened TableQuery

  /** The fifteen fields the POST handler takes out of the body. */
  const TaskColumns: set<string> := {
    "title", "type", "compensation", "currency", "estimated_time_min", "status", "language",
    "project", "difficulty", "prompt", "instructions", "ai_capability", "data_usage",
    "image_url", "requirements"}

  /** Destructuring the fifteen fields and writing them back into an object
      literal: a field the body lacks is `undefined` and is not sent. */
  function Whitelist(body: map<string, Json>): map<string, Json>
  {
    map k | k in body && k in TaskColumns :: body[k]
  }

  /** The record sent to the database holds exactly the task columns the
      body has, with the body's values: nothing is checked, defaulted or
      renamed, and whitelisting twice changes nothing. */
  lemma WhitelistKeepsTaskColumns(body: map<string, Json>)
    ensures Whitelist(body).Keys == body.Keys * TaskColumns
    ensures forall k :: k in Whitelist(body) ==> Whitelist(body)[k] == body[k]
    ensures Whitelist(Whitelist(body)) == Whitelist(body)
  {
  }

  /** The body cannot set a task's visibility, its `is_active` switch, its
      id or its creation time. */
  lemma WhitelistDropsOtherColumns(body: map<string, Json>)
    ensures "visibility" !in Whitelist(body) && "is_active" !in Whitelist(body)
    ensures "id" !in Whitelist(body) && "created_at" !in Whitelist(body)
  {
    assert "visibility" !in TaskColumns by {
      assert "visibility"[0] == 'v';
    }
    assert "is_active" !in TaskColumns by {
      assert "is_active"[1] == 's' && "image_url"[1] == 'm' && "instructions"[1] == 'n';
    }
    assert "id" !in TaskColumns by {
      assert |"id"| == 2;
    }
    assert "created_at" !in TaskColumns by {
      assert "created_at"[1] == 'r' && "compensation"[1] == 'o' && "currency"[1] == 'u';
    }
  }

  /** What the database answers to the insert: the stored row, an error,
      or a throw of the client. */
  datatype InsertTaskReply = TaskStored(row: map<string, Json>) | TaskRejected(message: string) | ClientThrew

  /** `POST /admin/tasks`, where `db` answers the insert of a record. */
  function PostTask(body: map<string, Json>, db: map<string, Json> -> InsertTaskReply): Response
  {
    match db(Whitelist(body))
    case TaskStored(row) => Response(201, JObj(row))
    case TaskRejected(message) => TextResponse(500, message)
    case ClientThrew => TextResponse(500, "Server error")
  }

  /** Any body reaches the insert, and the answer depends on the body only
      through its task columns: 201 with the stored row, or 500 with the
      database's message as plain text. */
  lemma PostDependsOnlyOnTaskColumns(b1: map<string, Json>, b2: map<string, Json>, db: map<string, Json> -> InsertTaskReply)
    requires forall k :: k in TaskColumns ==> Field(b1, k) == Field(b2, k)
    ensures PostTask(b1, db) == PostTask(b2, db)
    ensures var resp := PostTask(b1, db);
      (resp.status == 201 <==> db(Whitelist(b1)).TaskStored?) &&
      (db(Whitelist(b1)).TaskStored? ==> resp == Response(201, JObj(db(Whitelist(b1)).row))) &&
      (db(Whitelist(b1)).TaskRejected? ==> resp == TextResponse(500, db(Whitelist(b1)).message))
  {
    assert Whitelist(b1) == Whitelist(b2) by {
      forall k ensures k in Whitelist(b1) <==> k in Whitelist(b2) {
        if k in TaskColumns {
          assert Field(b1, k) == Field(b2, k);
        }
      }
    }
  }

  /** `GET /admin/tasks`; `None` is a throw of the client. */
  function GetTasks(reply: Option<ListReply>): Response
  {
    match reply
    case None => Response(500, ErrorBody("Server error"))
    case Some(r) =>
      if r.error.Some? then Response(500, ErrorBody(r.error.value.message))
      else Response(200, RowsJson(if r.data.Some? then r.data.value else []))
  }

  /** `.select("*").order("created_at", { ascending: false })` over the table. */
  function AllTasks(table: seq<TaskRow>): ListReply
  {
    ListReply(Some(OrderByCreatedAtDesc(table)), None)
  }

  /** The list holds every task of the table, each once, newest first; no
      data is an empty list and a database error a 500 with its message. */
  lemma GetTasksListsEveryTaskNewestFirst(table: seq<TaskRow>, reply: ListReply)
    ensures var resp := GetTasks(Some(AllTasks(table)));
      var rows := OrderByCreatedAtDesc(table);
      resp == Response(200, RowsJson(rows)) && NewestFirst(rows) && multiset(rows) == multiset(table)
    ensures reply.error.None? && reply.data.None? ==> GetTasks(Some(reply)) == Response(200, JArr([]))
    ensures reply.error.Some? ==> GetTasks(Some(reply)) == Response(500, ErrorBody(reply.error.value.message))
  {
    OrderIsNewestFirstPermutation(table);
  }
}
