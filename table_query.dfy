/** The part of the database the routes rely on: rows of the `tasks` table,
    equality filters, ordering by `created_at` newest first, and the
    `{ data, error }` pairs the database client hands back. The routes
    themselves only see those pairs; the query functions here say which
    pair a query over a given table produces. */
module TableQuery {
  import opened Common
  import opened Types

  /** A database error as the client reports it. */
  datatype DbError = DbError(code: string, message: string)

  /** A row of the `tasks` table: its `created_at` timestamp and its
      columns as they are serialised. */
  datatype TaskRow = TaskRow(createdAt: int, fields: map<string, Json>)

  /** `.eq(column, value)` on the task table. */
  function Eq(rows: seq<TaskRow>, column: string, value: Json): (r: seq<TaskRow>)
    ensures forall row :: row in r <==> row in rows && Field(row.fields, column) == Some(value)
  {
    Filter(rows, (row: TaskRow) => Field(row.fields, column) == Some(value))
  }

  /** Newest first: no row is older than a row after it. */
  predicate NewestFirst(rows: seq<TaskRow>)
  {
    forall i, j :: 0 <= i < j < |rows| ==> rows[i].createdAt >= rows[j].createdAt
  }

  /** Places `x` among rows already ordered newest first. */
  function InsertByCreatedAt(x: TaskRow, rows: seq<TaskRow>): seq<TaskRow>
  {
    if rows == [] then [x]
    else if rows[0].createdAt < x.createdAt then [x] + rows
    else [rows[0]] + InsertByCreatedAt(x, rows[1..])
  }

  /** `.order("created_at", { ascending: false })` */
  function OrderByCreatedAtDesc(rows: seq<TaskRow>): seq<TaskRow>
  {
    if rows == [] then [] else InsertByCreatedAt(rows[0], OrderByCreatedAtDesc(rows[1..]))
  }

  lemma {:induction false} InsertByCreatedAtPermutes(x: TaskRow, rows: seq<TaskRow>)
    ensures multiset(InsertByCreatedAt(x, rows)) == multiset(rows) + multiset{x}
    decreases |rows|
  {
    if rows != [] && rows[0].createdAt >= x.createdAt {
      InsertByCreatedAtPermutes(x, rows[1..]);
      assert rows == [rows[0]] + rows[1..];
    }
  }

  lemma {:induction false} InsertByCreatedAtKeepsOrder(x: TaskRow, rows: seq<TaskRow>)
    requires NewestFirst(rows)
    ensures NewestFirst(InsertByCreatedAt(x, rows))
    decreases |rows|
  {
    if rows != [] && rows[0].createdAt >= x.createdAt {
      var rest := InsertByCreatedAt(x, rows[1..]);
      InsertByCreatedAtKeepsOrder(x, rows[1..]);
      InsertByCreatedAtPermutes(x, rows[1..]);
      var r := [rows[0]] + rest;
      forall j | 0 < j < |r| ensures r[0].createdAt >= r[j].createdAt {
        assert r[j] in multiset(rest);
        assert r[j] == x || r[j] in rows[1..];
      }
    }
  }

  /** Ordering returns the same rows, newest first. */
  lemma {:induction false} OrderIsNewestFirstPermutation(rows: seq<TaskRow>)
    ensures NewestFirst(OrderByCreatedAtDesc(rows))
    ensures multiset(OrderByCreatedAtDesc(rows)) == multiset(rows)
  {
    if rows != [] {
      OrderIsNewestFirstPermutation(rows[1..]);
      InsertByCreatedAtKeepsOrder(rows[0], OrderByCreatedAtDesc(rows[1..]));
      InsertByCreatedAtPermutes(rows[0], OrderByCreatedAtDesc(rows[1..]));
      assert rows == [rows[0]] + rows[1..];
    }
  }

  /** A task list as JSON. */
  function RowsJson(rows: seq<TaskRow>): (j: Json)
    ensures j.JArr? && |j.items| == |rows|
    ensures forall i :: 0 <= i < |rows| ==> j.items[i] == JObj(rows[i].fields)
  {
    JArr(seq(|rows|, i requires 0 <= i < |rows| => JObj(rows[i].fields)))
  }

  /** What a select over the task table hands back: `{ data, error }`. */
  datatype ListReply = ListReply(data: Option<seq<TaskRow>>, error: Option<DbError>)
}
