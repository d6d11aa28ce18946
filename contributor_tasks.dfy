/** The contributor task route (starset-backend/src/routes/contributor.tasks.ts):
    `GET /`, the tasks that are active, public and switched on, newest
    first. The handler has no `try`/`catch`. */
module ContributorTasks {
  import opened Common
  import opened Types
  import opened TableQuery

  /** `.eq("status", "active").eq("visibility", "public").eq("is_active", true)
      .order("created_at", { ascending: false })` over the table. */
  function ActiveTasks(table: seq<TaskRow>): ListReply
  {
    var rows := Eq(Eq(Eq(table, "status", JStr("active")), "visibility", JStr("public")), "is_active", JBool(true));
    ListReply(Some(OrderByCreatedAtDesc(rows)), None)
  }

  /** `GET /contributor/tasks`: a database error is a 400 with its
      message; otherwise the data as it came (`null` when there is none). */
  function GetContributorTasks(reply: ListReply): Response
  {
    if reply.error.Some? then Response(400, ErrorBody(reply.error.value.message))
    else if reply.data.None? then Response(200, JNull)
    else Response(200, RowsJson(reply.data.value))
  }

  /** The three conditions of the query. */
  predicate ActivePublic(row: TaskRow)
  {
    Field(row.fields, "status") == Some(JStr("active")) &&
    Field(row.fields, "visibility") == Some(JStr("public")) &&
    Field(row.fields, "is_active") == Some(JBool(true))
  }

  /** A task is listed exactly when its status is "active", its visibility
      "public" and `is_active` true; each such task is listed as often as
      it occurs in the table, and the list is newest first. */
  lemma ListsExactlyActivePublicTasks(table: seq<TaskRow>)
    ensures var resp := GetContributorTasks(ActiveTasks(table));
      var rows := ActiveTasks(table).data.value;
      resp == Response(200, RowsJson(rows)) && NewestFirst(rows) &&
      (forall row :: row in rows <==> row in table && ActivePublic(row)) &&
      (forall row :: multiset(rows)[row] == if ActivePublic(row) then multiset(table)[row] else 0)
  {
    var s := Eq(table, "status", JStr("active"));
    var v := Eq(s, "visibility", JStr("public"));
    var filtered := Eq(v, "is_active", JBool(true));
    OrderIsNewestFirstPermutation(filtered);
    var rows := ActiveTasks(table).data.value;
    forall row ensures multiset(rows)[row] == if ActivePublic(row) then multiset(table)[row] else 0 {
      FilterCount(table, (r: TaskRow) => Field(r.fields, "status") == Some(JStr("active")), row);
      FilterCount(s, (r: TaskRow) => Field(r.fields, "visibility") == Some(JStr("public")), row);
      FilterCount(v, (r: TaskRow) => Field(r.fields, "is_active") == Some(JBool(true)), row);
    }
    forall row ensures row in rows <==> row in table && ActivePublic(row) {
      assert row in rows <==> multiset(rows)[row] > 0;
      assert row in table <==> multiset(table)[row] > 0;
    }
  }

  /** A database error is answered with 400, never 500, and carries the
      database's message. */
  lemma ErrorIsBadRequest(reply: ListReply)
    requires reply.error.Some?
    ensures GetContributorTasks(reply) == Response(400, JObj(map["error" := JStr(reply.error.value.message)]))
  {
  }
}
