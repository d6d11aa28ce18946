/** The submission routes (starset-backend/src/routes/submissions.ts):
    `POST /audio`, `POST /image` and `POST /text`.

    The two file routes run the upload middleware first: it keeps the file
    in memory, refuses files over 50 MiB and passes the file through a
    filter that accepts a MIME type only when it starts with `audio/`. The
    same filter guards the image route. A refused file never reaches the
    handler: the middleware hands an error to the framework's error
    handler, which this code does not define.

    Each handler checks its fields, uploads the file (file routes), inserts
    one row into the `submissions` table and answers. The table is a
    `SubmissionsTable` object whose replies are given in advance and which
    records every row it is asked to insert; the clock and the random
    suffix are parameters. */
module Submissions {
  import opened Common
  import opened Types
  import opened B2Upload

  /** `limits.fileSize`: 50 * 1024 * 1024 bytes. */
  const MaxFileSize: nat := 50 * 1024 * 1024

  /** The file filter: `file.mimetype.startsWith('audio/')`. */
  predicate AcceptsFile(mimetype: string)
  {
    StartsWith(mimetype, "audio/")
  }

  /** A file part as the middleware hands it over. */
  datatype UploadedFile = UploadedFile(mimetype: string, size: nat, buffer: seq<bv8>)

  /** The text fields of a multipart request and its one file part. */
  datatype Multipart = Multipart(taskId: Option<string>, userId: Option<string>, file: Option<UploadedFile>)

  /** What the middleware does with a request before the handler runs:
      pass it on, or forward the filter's error or the size-limit error to
      the framework. */
  datatype Intake = Passed | FilterRejected | TooLarge

  function IntakeOf(file: Option<UploadedFile>): Intake
  {
    if file.None? then Passed
    else if !AcceptsFile(file.value.mimetype) then FilterRejected
    else if file.value.size > MaxFileSize then TooLarge
    else Passed
  }

  /** A request reaches the handler exactly when it has no file, or an
      audio file of at most 50 MiB. */
  lemma IntakePassesOnlyAudio(file: Option<UploadedFile>)
    ensures IntakeOf(file) == Passed <==>
      file.None? || (StartsWith(file.value.mimetype, "audio/") && file.value.size <= 52428800)
  {
  }

  /** The filter is shared with the image route, so no image file is ever
      passed to the image handler. */
  lemma ImageFilesNeverPass(file: UploadedFile)
    requires StartsWith(file.mimetype, "image/")
    ensures IntakeOf(Some(file)) == FilterRejected
  {
    assert file.mimetype[0] == 'i';
  }

  /** What happens to a request: the handler's answer, or the middleware's
      error forwarded to the framework. */
  datatype Outcome = Answered(response: Response) | Forwarded(intake: Intake)

  /** `mimetype.split('/')[1]`, which reads as "undefined" in a template
      string when there is no `/`. */
  function Subtype(mimetype: string): string
  {
    var parts := Split(mimetype, '/');
    if |parts| >= 2 then parts[1] else "undefined"
  }

  /** `images/{userId}/{taskId}_{timestamp}_{suffix}.{subtype}` */
  function ImageFileName(userId: string, taskId: string, timestamp: nat, randomSuffix: string, mimetype: string): string
  {
    "images/" + userId + "/" + taskId + "_" + NatToString(timestamp) + "_" + randomSuffix + "." + Subtype(mimetype)
  }

  /** For a file the filter lets through, the extension of an image key is
      the part of the MIME type after `audio/`, up to any further `/`; read
      back along its `/` separators the key lies in the folder `images`,
      in the sub-folder named by the user id. */
  lemma {:induction false} ImageKeyLayout(userId: string, taskId: string, timestamp: nat, randomSuffix: string,
                                          mimetype: string)
    requires AcceptsFile(mimetype)
    requires '/' !in userId && '/' !in taskId && '/' !in randomSuffix
    ensures var ext := Split(mimetype[6..], '/')[0];
      Subtype(mimetype) == ext &&
      Split(ImageFileName(userId, taskId, timestamp, randomSuffix, mimetype), '/') ==
        ["images", userId, taskId + "_" + NatToString(timestamp) + "_" + randomSuffix + "." + ext]
  {
    assert mimetype == "audio" + ['/'] + mimetype[6..];
    SplitAt("audio", '/', mimetype[6..]);
    var ext := Split(mimetype[6..], '/')[0];
    SplitShape(mimetype[6..], '/');
    assert '/' !in ext;
    var digits := NatToString(timestamp);
    assert '/' !in digits;
    var last := taskId + "_" + digits + "_" + randomSuffix + "." + ext;
    assert '/' !in last;
    var key := ImageFileName(userId, taskId, timestamp, randomSuffix, mimetype);
    assert key == "images" + ['/'] + (userId + ['/'] + last);
    SplitAt("images", '/', userId + ['/'] + last);
    SplitAt(userId, '/', last);
    SplitNoSeparator(last, '/');
  }

  /** The status every inserted submission starts with. */
  const PendingValidation := "pending_validation"

  /** The row inserted by the audio route. */
  function AudioRow(taskId: string, userId: string, url: string, file: UploadedFile, now: string): map<string, Json>
  {
    map["task_id" := JStr(taskId), "user_id" := JStr(userId), "audio_url" := JStr(url),
        "file_size" := JNum(file.size), "mime_type" := JStr(file.mimetype),
        "status" := JStr(PendingValidation), "submitted_at" := JStr(now)]
  }

  /** The row inserted by the image route. */
  function ImageRow(taskId: string, userId: string, url: string, file: UploadedFile, now: string): map<string, Json>
  {
    map["task_id" := JStr(taskId), "user_id" := JStr(userId), "image_url" := JStr(url),
        "file_size" := JNum(file.size), "mime_type" := JStr(file.mimetype),
        "status" := JStr(PendingValidation), "submitted_at" := JStr(now)]
  }

  /** The row inserted by the text route; keys whose value is `undefined`
      are not sent. */
  function TextRow(taskId: Json, userId: Json, textContent: Option<Json>, selectedOption: Option<Json>,
                   now: string): map<string, Json>
  {
    var m := map["task_id" := taskId, "user_id" := userId,
                 "status" := JStr(PendingValidation), "submitted_at" := JStr(now)];
    With(With(m, "text_content", textContent), "selected_option", selectedOption)
  }

  /** Every row a file route inserts starts as pending validation and
      carries the submitting task and user and the uploaded file's URL. */
  lemma FileRowsStartPending(taskId: string, userId: string, url: string, file: UploadedFile, now: string)
    ensures var row := AudioRow(taskId, userId, url, file, now);
      row["status"] == JStr("pending_validation") && row["task_id"] == JStr(taskId) &&
      row["user_id"] == JStr(userId) && row["audio_url"] == JStr(url) && "image_url" !in row
    ensures var row := ImageRow(taskId, userId, url, file, now);
      row["status"] == JStr("pending_validation") && row["task_id"] == JStr(taskId) &&
      row["user_id"] == JStr(userId) && row["image_url"] == JStr(url) && "audio_url" !in row
  {
    assert "status"[0] == 's' && "task_id"[0] == 't' && "user_id"[0] == 'u' && "audio_url"[0] == 'a';
    assert "image_url"[0] == 'i' && "mime_type"[0] == 'm' && "file_size"[0] == 'f';
    assert "submitted_at"[1] == 'u' && "status"[1] == 't';
  }

  /** The row the text route inserts starts as pending validation, and
      has the text and the option columns exactly when the request has
      them, holding the request's values. */
  lemma TextRowStartsPending(t: Json, u: Json, text: Option<Json>, option: Option<Json>, now: string)
    ensures var row := TextRow(t, u, text, option, now);
      row["status"] == JStr("pending_validation") && row["task_id"] == t && row["user_id"] == u &&
      ("text_content" in row <==> text.Some?) && ("selected_option" in row <==> option.Some?) &&
      (text.Some? ==> row["text_content"] == text.value) &&
      (option.Some? ==> row["selected_option"] == option.value)
  {
    assert "text_content"[0] != "selected_option"[0];
    assert "status"[0] == 's' && "task_id"[0] == 't' && "user_id"[0] == 'u';
    assert "submitted_at"[1] == 'u' && "status"[1] == 't' && "selected_option"[1] == 'e';
    assert "text_content"[0] == 't' && "task_id"[1] == 'a' && "text_content"[1] == 'e';
  }

  /** The text route answers 400 unless both ids are truthy and at least
      one of the text and the selected option is. */
  predicate TextFieldsMissing(body: map<string, Json>)
  {
    !Truthy(Field(body, "taskId")) || !Truthy(Field(body, "userId")) ||
    (!Truthy(Field(body, "textContent")) && !Truthy(Field(body, "selectedOption")))
  }

  /** A database reply to an insert followed by `.select().single()`. */
  datatype InsertReply = InsertOk(row: map<string, Json>) | InsertFailed(message: string)

  /** The success body: `{success, message, submission: {...}}`, where the
      submission's `id` and `status` are read from the stored row. */
  function Created(message: string, submission: map<string, Json>): Response
  {
    Response(201, JObj(map["success" := JBool(true), "message" := JStr(message), "submission" := JObj(submission)]))
  }

  function AudioInsertResponse(reply: InsertReply, url: string): Response
  {
    match reply
    case InsertFailed(msg) => Response(500, ErrorDetails("Failed to save submission to database", msg))
    case InsertOk(row) =>
      Created("Audio submitted successfully",
              With(With(map["audioUrl" := JStr(url)], "id", Field(row, "id")), "status", Field(row, "status")))
  }

  function ImageInsertResponse(reply: InsertReply, url: string): Response
  {
    match reply
    case InsertFailed(msg) => Response(500, ErrorDetails("Failed to save submission", msg))
    case InsertOk(row) =>
      Created("Image submitted successfully",
              With(With(map["imageUrl" := JStr(url)], "id", Field(row, "id")), "status", Field(row, "status")))
  }

  function TextInsertResponse(reply: InsertReply): Response
  {
    match reply
    case InsertFailed(msg) => Response(500, ErrorDetails("Failed to save submission", msg))
    case InsertOk(row) =>
      Created("Text submitted successfully", With(With(map[], "id", Field(row, "id")), "status", Field(row, "status")))
  }

  /** An insert answers 201 exactly when the database stored the row, and
      500 otherwise, on every route; a successful file submission reports
      the URL the upload returned. */
  lemma InsertStatusFollowsDatabase(reply: InsertReply, url: string)
    ensures AudioInsertResponse(reply, url).status == (if reply.InsertOk? then 201 else 500)
    ensures ImageInsertResponse(reply, url).status == (if reply.InsertOk? then 201 else 500)
    ensures TextInsertResponse(reply).status == (if reply.InsertOk? then 201 else 500)
    ensures reply.InsertOk? ==>
      var a := AudioInsertResponse(reply, url).body.fields["submission"];
      var i := ImageInsertResponse(reply, url).body.fields["submission"];
      a.JObj? && "audioUrl" in a.fields && a.fields["audioUrl"] == JStr(url) &&
      i.JObj? && "imageUrl" in i.fields && i.fields["imageUrl"] == JStr(url)
  {
  }

  /** The `submissions` table. Its replies are fixed in advance, one per
      insert; `inserted` records every row it was asked to insert. Nothing
      here ever deletes a row. */
  class SubmissionsTable {
    const reply: nat -> InsertReply
    var inserted: seq<map<string, Json>>

    constructor (reply: nat -> InsertReply)
      ensures this.reply == reply && inserted == []
    {
      this.reply := reply;
      inserted := [];
    }

    method Insert(row: map<string, Json>) returns (r: InsertReply)
      modifies this
      ensures r == reply(|old(inserted)|) && inserted == old(inserted) + [row]
    {
      r := reply(|inserted|);
      inserted := inserted + [row];
    }
  }

  /** The router, with the upload adapter and the table it talks to. */
  class SubmissionRoutes {
    const uploader: B2Uploader
    const table: SubmissionsTable

    constructor (uploader: B2Uploader, table: SubmissionsTable)
      ensures this.uploader == uploader && this.table == table
    {
      this.uploader := uploader;
      this.table := table;
    }

    /** The upload run a file submission makes, from the state it starts in. */
    function PlannedUpload(fileName: string, file: UploadedFile): Run
      reads uploader, uploader.b2
    {
      UploadRun(uploader.Cached(), uploader.b2.Script(), AuthCount(uploader.b2.log), PutCount(uploader.b2.log),
                uploader.bucket, Upload(fileName, file.mimetype))
    }

    /** `POST /submissions/audio`. Refused files are forwarded; missing ids
        or a missing file give 400 with no upload and no insert; otherwise
        the upload comes first, an upload error gives 500 with no insert,
        and then exactly one row is inserted and the answer follows the
        database's reply. A database error after a successful upload
        leaves the uploaded file in place. */
    method PostAudio(req: Multipart, timestamp: nat, randomSuffix: string, now: string) returns (out: Outcome)
      modifies uploader`uploadUrl, uploader`uploadAuthToken, uploader.b2, table
      ensures IntakeOf(req.file) != Passed ==>
        out == Forwarded(IntakeOf(req.file)) && unchanged(uploader, uploader.b2, table)
      ensures IntakeOf(req.file) == Passed && (!Present(req.taskId) || !Present(req.userId)) ==>
        out == Answered(Response(400, ErrorBody("Missing required fields: taskId and userId are required"))) &&
        unchanged(uploader, uploader.b2, table)
      ensures IntakeOf(req.file) == Passed && Present(req.taskId) && Present(req.userId) && req.file.None? ==>
        out == Answered(Response(400, ErrorBody("No audio file provided"))) &&
        unchanged(uploader, uploader.b2, table)
      ensures IntakeOf(req.file) == Passed && Present(req.taskId) && Present(req.userId) && req.file.Some? ==>
        var fileName := GenerateAudioFileName(req.userId.value, req.taskId.value, timestamp, randomSuffix);
        var run := old(PlannedUpload(fileName, req.file.value));
        uploader.Cached() == run.cache && uploader.b2.log == old(uploader.b2.log) + run.trace &&
        match run.result
        case Err(e) =>
          out == Answered(Response(500, ErrorDetails("Failed to process audio submission", e.message))) &&
          table.inserted == old(table.inserted)
        case Ok(url) =>
          table.inserted == old(table.inserted) + [AudioRow(req.taskId.value, req.userId.value, url, req.file.value, now)] &&
          out == Answered(AudioInsertResponse(table.reply(|old(table.inserted)|), url))
    {
      var intake := IntakeOf(req.file);
      if intake != Passed {
        return Forwarded(intake);
      }
      if !Present(req.taskId) || !Present(req.userId) {
        return Answered(Response(400, ErrorBody("Missing required fields: taskId and userId are required")));
      }
      if req.file.None? {
        return Answered(Response(400, ErrorBody("No audio file provided")));
      }
      var file := req.file.value;
      var fileName := GenerateAudioFileName(req.userId.value, req.taskId.value, timestamp, randomSuffix);
      var uploaded := uploader.UploadToB2(file.buffer, fileName, file.mimetype);
      if uploaded.Err? {
        return Answered(Response(500, ErrorDetails("Failed to process audio submission", uploaded.error.message)));
      }
      var reply := table.Insert(AudioRow(req.taskId.value, req.userId.value, uploaded.value, file, now));
      out := Answered(AudioInsertResponse(reply, uploaded.value));
    }

    /** `POST /submissions/image`: one combined presence check, then the
        same upload-then-insert sequence as the audio route, with the image
        key and the image row. */
    method PostImage(req: Multipart, timestamp: nat, randomSuffix: string, now: string) returns (out: Outcome)
      modifies uploader`uploadUrl, uploader`uploadAuthToken, uploader.b2, table
      ensures IntakeOf(req.file) != Passed ==>
        out == Forwarded(IntakeOf(req.file)) && unchanged(uploader, uploader.b2, table)
      ensures IntakeOf(req.file) == Passed && (!Present(req.taskId) || !Present(req.userId) || req.file.None?) ==>
        out == Answered(Response(400, ErrorBody("Missing required fields"))) &&
        unchanged(uploader, uploader.b2, table)
      ensures IntakeOf(req.file) == Passed && Present(req.taskId) && Present(req.userId) && req.file.Some? ==>
        var fileName := ImageFileName(req.userId.value, req.taskId.value, timestamp, randomSuffix, req.file.value.mimetype);
        var run := old(PlannedUpload(fileName, req.file.value));
        uploader.Cached() == run.cache && uploader.b2.log == old(uploader.b2.log) + run.trace &&
        match run.result
        case Err(e) =>
          out == Answered(Response(500, ErrorDetails("Failed to process image submission", e.message))) &&
          table.inserted == old(table.inserted)
        case Ok(url) =>
          table.inserted == old(table.inserted) + [ImageRow(req.taskId.value, req.userId.value, url, req.file.value, now)] &&
          out == Answered(ImageInsertResponse(table.reply(|old(table.inserted)|), url))
    {
      var intake := IntakeOf(req.file);
      if intake != Passed {
        return Forwarded(intake);
      }
      if !Present(req.taskId) || !Present(req.userId) || req.file.None? {
        return Answered(Response(400, ErrorBody("Missing required fields")));
      }
      var file := req.file.value;
      var fileName := ImageFileName(req.userId.value, req.taskId.value, timestamp, randomSuffix, file.mimetype);
      var uploaded := uploader.UploadToB2(file.buffer, fileName, file.mimetype);
      if uploaded.Err? {
        return Answered(Response(500, ErrorDetails("Failed to process image submission", uploaded.error.message)));
      }
      var reply := table.Insert(ImageRow(req.taskId.value, req.userId.value, uploaded.value, file, now));
      out := Answered(ImageInsertResponse(reply, uploaded.value));
    }

    /** `POST /submissions/text`: no upload; 400 when the fields are
        missing, otherwise one insert. */
    method PostText(body: map<string, Json>, now: string) returns (resp: Response)
      modifies table
      ensures TextFieldsMissing(body) ==>
        resp == Response(400, ErrorBody("Missing required fields")) && table.inserted == old(table.inserted)
      ensures !TextFieldsMissing(body) ==>
        table.inserted == old(table.inserted) +
          [TextRow(body["taskId"], body["userId"], Field(body, "textContent"), Field(body, "selectedOption"), now)] &&
        resp == TextInsertResponse(table.reply(|old(table.inserted)|))
    {
      if TextFieldsMissing(body) {
        return Response(400, ErrorBody("Missing required fields"));
      }
      var reply := table.Insert(TextRow(body["taskId"], body["userId"], Field(body, "textContent"),
                                        Field(body, "selectedOption"), now));
      resp := TextInsertResponse(reply);
    }
  }
}
