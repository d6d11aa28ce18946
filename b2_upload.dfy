/** The object-storage upload adapter (starset-backend/src/utils/b2Upload.ts).

    The module keeps the upload URL and upload token of the storage service
    in module-level variables, authenticates lazily when either is missing,
    and on an upload failure whose HTTP status is 401 clears both,
    authenticates again and retries the upload exactly once. Here the
    module-level variables are the fields of a `B2Uploader` object and the
    storage SDK is a `StorageService` object whose replies are given in
    advance, one per call, and which records every call it receives.

    `UploadRun` states, as a function of the cached values and the replies
    the service will give, what one call of `uploadToB2` does: what it
    returns, what it leaves in the cache and which calls it makes. The
    method `B2Uploader.UploadToB2` is proved to behave exactly so, and the
    lemmas below state the retry policy in terms of `UploadRun`. */
module B2Upload {
  import opened Common

  /** An error thrown by the storage SDK; `status` is `error.response?.status`. */
  datatype StorageError = StorageError(status: Option<int>, message: string)

  /** What `authenticateB2` gets back from `authorize` followed by
      `getUploadUrl`: the upload URL and its token, or the error either
      call threw. */
  datatype AuthReply =
    | Granted(uploadUrl: string, authorizationToken: string)
    | AuthFailed(authError: StorageError)

  /** What `uploadFile` gets back. */
  datatype PutReply = Stored | PutFailed(putError: StorageError)

  /** One call made to the storage service, with the reply it got. */
  datatype Exchange =
    | Authenticate(authReply: AuthReply)
    | Put(uploadUrl: string, uploadAuthToken: string, fileName: string, contentType: string, putReply: PutReply)
  {
    predicate Failed()
    {
      (Authenticate? && authReply.AuthFailed?) || (Put? && putReply.PutFailed?)
    }

    function Error(): StorageError
      requires Failed()
    {
      if Authenticate? then authReply.authError else putReply.putError
    }
  }

  /** Number of authentications in a call log. */
  function AuthCount(log: seq<Exchange>): nat
  {
    if log == [] then 0
    else AuthCount(log[..|log| - 1]) + (if log[|log| - 1].Authenticate? then 1 else 0)
  }

  /** Number of `uploadFile` calls in a call log. */
  function PutCount(log: seq<Exchange>): nat
  {
    if log == [] then 0
    else PutCount(log[..|log| - 1]) + (if log[|log| - 1].Put? then 1 else 0)
  }

  lemma CountsAppend(log: seq<Exchange>, x: Exchange)
    ensures AuthCount(log + [x]) == AuthCount(log) + (if x.Authenticate? then 1 else 0)
    ensures PutCount(log + [x]) == PutCount(log) + (if x.Put? then 1 else 0)
  {
    assert (log + [x])[..|log + [x]| - 1] == log;
  }

  /** The module-level `uploadUrl` and `uploadAuthToken`. */
  datatype Cache = Cache(uploadUrl: Option<string>, uploadAuthToken: Option<string>)

  /** `!uploadUrl || !uploadAuthToken`: null and the empty string both
      count as missing. */
  predicate NeedsAuth(c: Cache)
  {
    !Present(c.uploadUrl) || !Present(c.uploadAuthToken)
  }

  /** The bucket settings read from the environment. */
  datatype Bucket = Bucket(id: string, name: string)

  /** The file being uploaded, as far as the service sees it. */
  datatype Upload = Upload(fileName: string, contentType: string)

  /** `https://f{bucketId}.backblazeb2.com/file/{bucketName}/{fileName}` */
  function PublicUrl(b: Bucket, fileName: string): string
  {
    "https://f" + b.id + ".backblazeb2.com/file/" + b.name + "/" + fileName
  }

  /** Two uploads into the same bucket get the same public URL only when
      their file names are the same. */
  lemma PublicUrlDeterminesFileName(b: Bucket, f1: string, f2: string)
    requires PublicUrl(b, f1) == PublicUrl(b, f2)
    ensures f1 == f2
  {
    var prefix := "https://f" + b.id + ".backblazeb2.com/file/" + b.name + "/";
    assert PublicUrl(b, f1) == prefix + f1;
    assert PublicUrl(b, f2) == prefix + f2;
    assert f1 == (prefix + f1)[|prefix|..];
  }

  /** The replies the service gives: the k-th authentication it ever
      receives gets `auth(k)`, the k-th upload gets `put(k)`. */
  datatype Replies = Replies(auth: nat -> AuthReply, put: nat -> PutReply)

  /** The outcome of one `uploadToB2` call, or of one part of it: the URL
      or the error it throws, the cache it leaves behind, and the calls it
      made, in order. */
  datatype Run = Run(result: Result<string, StorageError>, cache: Cache, trace: seq<Exchange>)

  function Prepend(x: Exchange, run: Run): Run
  {
    run.(trace := [x] + run.trace)
  }

  /** One call of `uploadToB2` from cache `c`, when the service has so far
      received `a` authentications and `p` uploads. The `try` block:
      authenticate if needed, then upload. Any error thrown in it, from the
      authentication as well as from the upload, goes to `Recover`. */
  function UploadRun(c: Cache, r: Replies, a: nat, p: nat, b: Bucket, f: Upload): Run
  {
    if NeedsAuth(c) then
      match r.auth(a)
      case AuthFailed(e) => Prepend(Authenticate(r.auth(a)), Recover(e, c, r, a + 1, p, b, f))
      case Granted(u, t) =>
        Prepend(Authenticate(r.auth(a)), FirstPut(Cache(Some(u), Some(t)), r, a + 1, p, b, f))
    else
      FirstPut(c, r, a, p, b, f)
  }

  /** The upload inside the `try` block, with the URL and token of cache `c`. */
  function FirstPut(c: Cache, r: Replies, a: nat, p: nat, b: Bucket, f: Upload): Run
    requires c.uploadUrl.Some? && c.uploadAuthToken.Some?
  {
    var ex := Put(c.uploadUrl.value, c.uploadAuthToken.value, f.fileName, f.contentType, r.put(p));
    match r.put(p)
    case Stored => Run(Ok(PublicUrl(b, f.fileName)), c, [ex])
    case PutFailed(e) => Prepend(ex, Recover(e, c, r, a, p + 1, b, f))
  }

  /** The `catch` block: on status 401 clear the cache, authenticate and
      upload once more, letting any error of these escape; on any other
      error rethrow it. */
  function Recover(e: StorageError, c: Cache, r: Replies, a: nat, p: nat, b: Bucket, f: Upload): Run
  {
    if e.status != Some(401) then Run(Err(e), c, [])
    else
      var auth := Authenticate(r.auth(a));
      match r.auth(a)
      case AuthFailed(e2) => Run(Err(e2), Cache(None, None), [auth])
      case Granted(u, t) =>
        var ex := Put(u, t, f.fileName, f.contentType, r.put(p));
        match r.put(p)
        case Stored => Run(Ok(PublicUrl(b, f.fileName)), Cache(Some(u), Some(t)), [auth, ex])
        case PutFailed(e3) => Run(Err(e3), Cache(Some(u), Some(t)), [auth, ex])
  }

  // -----------------------------------------------------------------------
  // The retry policy, stated of every run.

  lemma {:induction false} CountsPrepend(x: Exchange, log: seq<Exchange>)
    ensures AuthCount([x] + log) == AuthCount(log) + (if x.Authenticate? then 1 else 0)
    ensures PutCount([x] + log) == PutCount(log) + (if x.Put? then 1 else 0)
    decreases |log|
  {
    if log != [] {
      var init := log[..|log| - 1];
      assert ([x] + log)[..|[x] + log| - 1] == [x] + init;
      CountsPrepend(x, init);
    } else {
      assert ([x] + log)[..0] == [];
    }
  }

  lemma RecoverCounts(e: StorageError, c: Cache, r: Replies, a: nat, p: nat, b: Bucket, f: Upload)
    ensures var t := Recover(e, c, r, a, p, b, f).trace;
      |t| <= 2 && AuthCount(t) <= 1 && PutCount(t) <= 1 && (e.status == Some(401) <==> |t| >= 1)
  {
    var t := Recover(e, c, r, a, p, b, f).trace;
    if |t| == 2 {
      CountsPrepend(t[0], [t[1]]);
      CountsPrepend(t[1], []);
      assert t == [t[0]] + [t[1]];
    } else if |t| == 1 {
      CountsPrepend(t[0], []);
      assert t == [t[0]] + [];
    }
  }

  lemma FirstPutCounts(c: Cache, r: Replies, a: nat, p: nat, b: Bucket, f: Upload)
    requires c.uploadUrl.Some? && c.uploadAuthToken.Some?
    ensures var t := FirstPut(c, r, a, p, b, f).trace;
      1 <= |t| <= 3 && AuthCount(t) <= 1 && 1 <= PutCount(t) <= 2
  {
    var ex := Put(c.uploadUrl.value, c.uploadAuthToken.value, f.fileName, f.contentType, r.put(p));
    match r.put(p)
    case Stored =>
      CountsPrepend(ex, []);
      assert [ex] == [ex] + [];
    case PutFailed(e) =>
      RecoverCounts(e, c, r, a, p + 1, b, f);
      CountsPrepend(ex, Recover(e, c, r, a, p + 1, b, f).trace);
  }

  /** A call makes at least one call to the service, at most two
      authentications and at most two uploads. */
  lemma AtMostTwoAttempts(c: Cache, r: Replies, a: nat, p: nat, b: Bucket, f: Upload)
    ensures var t := UploadRun(c, r, a, p, b, f).trace;
      1 <= |t| <= 4 && AuthCount(t) <= 2 && PutCount(t) <= 2
  {
    if NeedsAuth(c) {
      var x := Authenticate(r.auth(a));
      match r.auth(a)
      case AuthFailed(e) =>
        RecoverCounts(e, c, r, a + 1, p, b, f);
        CountsPrepend(x, Recover(e, c, r, a + 1, p, b, f).trace);
      case Granted(u, t) =>
        FirstPutCounts(Cache(Some(u), Some(t)), r, a + 1, p, b, f);
        CountsPrepend(x, FirstPut(Cache(Some(u), Some(t)), r, a + 1, p, b, f).trace);
    } else {
      FirstPutCounts(c, r, a, p, b, f);
    }
  }

  /** The call authenticates before its first upload exactly when the
      cached URL or token is missing; otherwise its first call is an
      upload with the cached values. */
  lemma AuthenticatesFirstIffCacheMissing(c: Cache, r: Replies, a: nat, p: nat, b: Bucket, f: Upload)
    ensures var t := UploadRun(c, r, a, p, b, f).trace;
      |t| >= 1 &&
      (t[0].Authenticate? <==> NeedsAuth(c)) &&
      (!NeedsAuth(c) ==> t[0] == Put(c.uploadUrl.value, c.uploadAuthToken.value, f.fileName, f.contentType, r.put(p)))
  {
  }

  /** Only a 401 leads to another call: every call but the last one of a
      run either succeeded or failed with status 401, and there is at most
      one such failure. */
  lemma RetryOnlyAfter401(c: Cache, r: Replies, a: nat, p: nat, b: Bucket, f: Upload)
    ensures var t := UploadRun(c, r, a, p, b, f).trace;
      (forall i :: 0 <= i < |t| - 1 && t[i].Failed() ==> t[i].Error().status == Some(401)) &&
      (forall i, j :: 0 <= i < j < |t| - 1 && t[i].Failed() ==> !t[j].Failed())
  {
  }

  /** After the first failure, when its status is 401, comes exactly one
      authentication and, if that succeeds, exactly one more upload, with
      the fresh URL and token and the same file; nothing follows that. */
  lemma After401ReauthenticateAndRetryOnce(c: Cache, r: Replies, a: nat, p: nat, b: Bucket, f: Upload, i: nat)
    requires var t := UploadRun(c, r, a, p, b, f).trace;
      i < |t| && t[i].Failed() && t[i].Error().status == Some(401) &&
      forall j :: 0 <= j < i ==> !t[j].Failed()
    ensures var t := UploadRun(c, r, a, p, b, f).trace;
      i + 1 < |t| && t[i + 1].Authenticate? &&
      (t[i + 1].authReply.AuthFailed? ==> |t| == i + 2) &&
      (t[i + 1].authReply.Granted? ==>
        |t| == i + 3 &&
        t[i + 2] == Put(t[i + 1].authReply.uploadUrl, t[i + 1].authReply.authorizationToken,
                        f.fileName, f.contentType, t[i + 2].putReply))
  {
    var t := UploadRun(c, r, a, p, b, f).trace;
    if NeedsAuth(c) {
      var x := Authenticate(r.auth(a));
      match r.auth(a)
      case AuthFailed(e) =>
        assert t == [x] + Recover(e, c, r, a + 1, p, b, f).trace;
        assert t[0].Failed();
      case Granted(u, k) =>
        var fp := FirstPut(Cache(Some(u), Some(k)), r, a + 1, p, b, f);
        assert t == [x] + fp.trace;
        assert !t[0].Failed() && t[1] == fp.trace[0];
        assert t[1].Failed() || |t| == 2;
    } else {
      assert t[0].Failed() || |t| == 1;
    }
  }

  /** The error a call throws is, unchanged, the error of its last call to
      the service; a call that returns a URL ended with a stored upload. */
  lemma OutcomeIsLastReply(c: Cache, r: Replies, a: nat, p: nat, b: Bucket, f: Upload)
    ensures var run := UploadRun(c, r, a, p, b, f);
      var last := run.trace[|run.trace| - 1];
      |run.trace| >= 1 &&
      (run.result.Err? <==> last.Failed()) &&
      (run.result.Err? ==> run.result.error == last.Error()) &&
      (run.result.Ok? ==> last.Put? && last.putReply == Stored)
  {
  }

  /** The URL returned is built from the bucket and the file name alone,
      on the first try and on the retry alike: whatever the service
      replies, a successful call returns the same URL. */
  lemma UrlIgnoresReplies(c1: Cache, r1: Replies, a1: nat, p1: nat,
                          c2: Cache, r2: Replies, a2: nat, p2: nat, b: Bucket, f: Upload)
    requires UploadRun(c1, r1, a1, p1, b, f).result.Ok?
    requires UploadRun(c2, r2, a2, p2, b, f).result.Ok?
    ensures UploadRun(c1, r1, a1, p1, b, f).result == UploadRun(c2, r2, a2, p2, b, f).result
    ensures UploadRun(c1, r1, a1, p1, b, f).result.value == PublicUrl(b, f.fileName)
  {
  }

  /** Every upload of a call sends the caller's file name and content type. */
  lemma EveryPutSendsTheFile(c: Cache, r: Replies, a: nat, p: nat, b: Bucket, f: Upload)
    ensures var t := UploadRun(c, r, a, p, b, f).trace;
      forall i :: 0 <= i < |t| && t[i].Put? ==> t[i].fileName == f.fileName && t[i].contentType == f.contentType
  {
  }

  /** The cache left behind: the URL and token of the call's last
      successful authentication; cleared when the re-authentication after a
      401 failed; otherwise the cache the call started with. */
  lemma CacheAfterRun(c: Cache, r: Replies, a: nat, p: nat, b: Bucket, f: Upload)
    ensures var run := UploadRun(c, r, a, p, b, f);
      var t := run.trace;
      (forall i :: (0 <= i < |t| && t[i].Authenticate? && t[i].authReply.Granted? &&
                    (forall j :: i < j < |t| ==> !t[j].Authenticate?)) ==>
         run.cache == Cache(Some(t[i].authReply.uploadUrl), Some(t[i].authReply.authorizationToken))) &&
      ((forall i :: 0 <= i < |t| ==> !t[i].Authenticate?) ==> run.cache == c) &&
      (|t| == 1 && t[0].Authenticate? && t[0].authReply.AuthFailed? ==> run.cache == c) &&
      (t[|t| - 1].Authenticate? && t[|t| - 1].authReply.AuthFailed? && |t| >= 2 ==> run.cache == Cache(None, None))
  {
    var run := UploadRun(c, r, a, p, b, f);
    var t := run.trace;
    if NeedsAuth(c) {
      var a0 := Authenticate(r.auth(a));
      assert t[0] == a0;
      match r.auth(a)
      case AuthFailed(e) =>
        if e.status == Some(401) {
          var a1 := Authenticate(r.auth(a + 1));
          match r.auth(a + 1)
          case AuthFailed(e2) =>
            assert t == [a0, a1] && run.cache == Cache(None, None);
          case Granted(u, k) =>
            assert |t| == 3 && t[0] == a0 && t[1] == a1 && t[2].Put?;
            assert run.cache == Cache(Some(u), Some(k));
            assert forall i :: 0 <= i < |t| && t[i].Authenticate? && t[i].authReply.Granted? ==> i == 1;
        } else {
          assert t == [a0] && run.cache == c;
        }
      case Granted(u, k) =>
        var c1 := Cache(Some(u), Some(k));
        var rest := FirstPut(c1, r, a + 1, p, b, f);
        PutThenRecover(c1, r, a + 1, p, b, f);
        assert t == [a0] + rest.trace && run.cache == rest.cache;
        assert forall i :: 1 <= i < |t| ==> t[i] == rest.trace[i - 1];
        if |rest.trace| == 1 {
          assert forall i :: 0 <= i < |t| && t[i].Authenticate? ==> i == 0;
        } else if |rest.trace| == 2 {
          assert t[2].Authenticate? && t[2].authReply.AuthFailed?;
          assert forall i :: 0 <= i < |t| && t[i].Authenticate? ==> i == 0 || i == 2;
        } else {
          assert t[2].Authenticate? && !t[3].Authenticate?;
          assert forall i :: 0 <= i < |t| && t[i].Authenticate? ==> i == 0 || i == 2;
        }
    } else {
      PutThenRecover(c, r, a, p, b, f);
      if |t| == 1 {
        assert forall i :: 0 <= i < |t| ==> !t[i].Authenticate?;
      } else {
        assert forall i :: 0 <= i < |t| && t[i].Authenticate? ==> i == 1;
      }
    }
  }

  /** `CacheAfterRun` for the upload with a cached URL and token. */
  lemma PutThenRecover(c: Cache, r: Replies, a: nat, p: nat, b: Bucket, f: Upload)
    requires c.uploadUrl.Some? && c.uploadAuthToken.Some?
    ensures var run := FirstPut(c, r, a, p, b, f);
      var t := run.trace;
      2 <= |t| <= 3 ==> t[0].Put? && t[1].Authenticate?
    ensures var run := FirstPut(c, r, a, p, b, f);
      var t := run.trace;
      (|t| == 1 ==> !t[0].Authenticate? && run.cache == c) &&
      (|t| == 2 ==> t[1].authReply.AuthFailed? && run.cache == Cache(None, None)) &&
      (|t| == 3 ==> !t[2].Authenticate? && t[1].authReply.Granted? &&
                    run.cache == Cache(Some(t[1].authReply.uploadUrl), Some(t[1].authReply.authorizationToken))) &&
      1 <= |t| <= 3
  {
    var run := FirstPut(c, r, a, p, b, f);
    var t := run.trace;
    match r.put(p)
    case Stored =>
    case PutFailed(e) =>
      if e.status == Some(401) {
        match r.auth(a)
        case AuthFailed(e2) =>
        case Granted(u, k) =>
      }
  }

  /** The two scenarios of the retry policy: a single 401 followed by a
      successful retry returns the URL after one re-authentication; two
      401s in a row throw the second one, with no third upload. */
  lemma Single401ThenSuccess(c: Cache, r: Replies, a: nat, p: nat, b: Bucket, f: Upload, e: StorageError)
    requires !NeedsAuth(c) && e.status == Some(401)
    requires r.put(p) == PutFailed(e) && r.auth(a).Granted? && r.put(p + 1) == Stored
    ensures var run := UploadRun(c, r, a, p, b, f);
      run.result == Ok(PublicUrl(b, f.fileName)) && |run.trace| == 3 &&
      run.trace[1] == Authenticate(r.auth(a))
  {
  }

  lemma Two401sPropagate(c: Cache, r: Replies, a: nat, p: nat, b: Bucket, f: Upload, e1: StorageError, e2: StorageError)
    requires !NeedsAuth(c) && e1.status == Some(401) && e2.status == Some(401)
    requires r.put(p) == PutFailed(e1) && r.auth(a).Granted? && r.put(p + 1) == PutFailed(e2)
    ensures var run := UploadRun(c, r, a, p, b, f);
      run.result == Err(e2) && |run.trace| == 3 && run.trace[2].Put?
  {
  }

  /** `audio/{userId}/{taskId}_{timestamp}_{suffix}.webm`, where
      `timestamp` is `Date.now()` and `suffix` the six characters taken
      from a random number in base 36; both are passed in. */
  function GenerateAudioFileName(userId: string, taskId: string, timestamp: nat, randomSuffix: string): string
  {
    "audio/" + userId + "/" + taskId + "_" + NatToString(timestamp) + "_" + randomSuffix + ".webm"
  }

  /** Read back along its `/` separators, an audio key lies in the folder
      `audio`, in the sub-folder named by the user id, and the last part
      starts with the task id: the key can be traced back to the user when
      neither id contains a `/`. */
  lemma {:induction false} AudioKeyLayout(userId: string, taskId: string, timestamp: nat, randomSuffix: string)
    requires '/' !in userId && '/' !in taskId && '/' !in randomSuffix
    ensures var key := GenerateAudioFileName(userId, taskId, timestamp, randomSuffix);
      Split(key, '/') == ["audio", userId, taskId + "_" + NatToString(timestamp) + "_" + randomSuffix + ".webm"]
      && EndsWith(key, ".webm")
  {
    var last := taskId + "_" + NatToString(timestamp) + "_" + randomSuffix + ".webm";
    var digits := NatToString(timestamp);
    assert '/' !in digits;
    assert '/' !in last;
    var key := GenerateAudioFileName(userId, taskId, timestamp, randomSuffix);
    assert key == "audio" + ['/'] + (userId + ['/'] + last);
    SplitAt("audio", '/', userId + ['/'] + last);
    SplitAt(userId, '/', last);
    SplitNoSeparator(last, '/');
    assert key[|key| - 5..] == ".webm";
  }

  // -----------------------------------------------------------------------
  // The service and the adapter as objects.

  /** The storage SDK. Its replies are fixed in advance; `log` records
      every call it receives. */
  class StorageService {
    const auth: nat -> AuthReply
    const put: nat -> PutReply
    var log: seq<Exchange>

    constructor (auth: nat -> AuthReply, put: nat -> PutReply)
      ensures this.auth == auth && this.put == put && log == []
    {
      this.auth := auth;
      this.put := put;
      log := [];
    }

    function Script(): Replies
    {
      Replies(auth, put)
    }

    /** `authorize` then `getUploadUrl`. */
    method Authenticate() returns (reply: AuthReply)
      modifies this
      ensures reply == auth(AuthCount(old(log)))
      ensures log == old(log) + [Exchange.Authenticate(reply)]
      ensures AuthCount(log) == AuthCount(old(log)) + 1 && PutCount(log) == PutCount(old(log))
    {
      reply := auth(AuthCount(log));
      CountsAppend(log, Exchange.Authenticate(reply));
      log := log + [Exchange.Authenticate(reply)];
    }

    /** `uploadFile`; the bytes themselves are not recorded. */
    method UploadFile(uploadUrl: string, uploadAuthToken: string, fileName: string, data: seq<bv8>, contentType: string)
      returns (reply: PutReply)
      modifies this
      ensures reply == put(PutCount(old(log)))
      ensures log == old(log) + [Put(uploadUrl, uploadAuthToken, fileName, contentType, reply)]
      ensures AuthCount(log) == AuthCount(old(log)) && PutCount(log) == PutCount(old(log)) + 1
    {
      reply := put(PutCount(log));
      CountsAppend(log, Put(uploadUrl, uploadAuthToken, fileName, contentType, reply));
      log := log + [Put(uploadUrl, uploadAuthToken, fileName, contentType, reply)];
    }
  }

  /** The module state of b2Upload.ts. `authToken` is declared there and
      never assigned. */
  class B2Uploader {
    const bucket: Bucket
    const b2: StorageService
    var authToken: Option<string>
    var uploadUrl: Option<string>
    var uploadAuthToken: Option<string>

    constructor (bucket: Bucket, b2: StorageService)
      ensures this.bucket == bucket && this.b2 == b2
      ensures authToken == None && uploadUrl == None && uploadAuthToken == None
    {
      this.bucket := bucket;
      this.b2 := b2;
      authToken := None;
      uploadUrl := None;
      uploadAuthToken := None;
    }

    function Cached(): Cache
      reads this
    {
      Cache(uploadUrl, uploadAuthToken)
    }

    /** `authenticateB2`: on success both cached values come from the reply;
        on failure the error is thrown (returned here) and the cache is
        left as it was. */
    method AuthenticateB2() returns (thrown: Option<StorageError>)
      modifies this`uploadUrl, this`uploadAuthToken, b2
      ensures b2.log == old(b2.log) + [Exchange.Authenticate(b2.auth(AuthCount(old(b2.log))))]
      ensures AuthCount(b2.log) == AuthCount(old(b2.log)) + 1 && PutCount(b2.log) == PutCount(old(b2.log))
      ensures match b2.auth(AuthCount(old(b2.log)))
        case Granted(u, t) => thrown == None && Cached() == Cache(Some(u), Some(t))
        case AuthFailed(e) => thrown == Some(e) && Cached() == old(Cached())
    {
      var reply := b2.Authenticate();
      match reply
      case Granted(u, t) =>
        uploadUrl := Some(u);
        uploadAuthToken := Some(t);
        thrown := None;
      case AuthFailed(e) =>
        thrown := Some(e);
    }

    /** `uploadToB2`: behaves as `UploadRun` says. */
    method UploadToB2(fileBuffer: seq<bv8>, fileName: string, contentType: string)
      returns (result: Result<string, StorageError>)
      modifies this`uploadUrl, this`uploadAuthToken, b2
      ensures var run := UploadRun(old(Cached()), b2.Script(), AuthCount(old(b2.log)), PutCount(old(b2.log)),
                                   bucket, Upload(fileName, contentType));
        result == run.result && Cached() == run.cache && b2.log == old(b2.log) + run.trace
    {
      // try
      if NeedsAuth(Cached()) {
        var thrown := AuthenticateB2();
        if thrown.Some? {
          result := Catch(thrown.value, fileBuffer, fileName, contentType);
          return;
        }
      }
      result := TryUpload(fileBuffer, fileName, contentType);
    }

    /** The upload in the `try` block, with the cached URL and token; a
        failure goes on to the `catch` block. */
    method TryUpload(fileBuffer: seq<bv8>, fileName: string, contentType: string)
      returns (result: Result<string, StorageError>)
      requires uploadUrl.Some? && uploadAuthToken.Some?
      modifies this`uploadUrl, this`uploadAuthToken, b2
      ensures var run := FirstPut(old(Cached()), b2.Script(), AuthCount(old(b2.log)), PutCount(old(b2.log)),
                                  bucket, Upload(fileName, contentType));
        result == run.result && Cached() == run.cache && b2.log == old(b2.log) + run.trace
    {
      var reply := b2.UploadFile(uploadUrl.value, uploadAuthToken.value, fileName, fileBuffer, contentType);
      if reply.PutFailed? {
        result := Catch(reply.putError, fileBuffer, fileName, contentType);
      } else {
        result := Ok(PublicUrl(bucket, fileName));
      }
    }

    /** The `catch` block of `uploadToB2`. */
    method Catch(e: StorageError, fileBuffer: seq<bv8>, fileName: string, contentType: string)
      returns (result: Result<string, StorageError>)
      modifies this`uploadUrl, this`uploadAuthToken, b2
      ensures var run := Recover(e, old(Cached()), b2.Script(), AuthCount(old(b2.log)), PutCount(old(b2.log)),
                                 bucket, Upload(fileName, contentType));
        result == run.result && Cached() == run.cache && b2.log == old(b2.log) + run.trace
    {
      if e.status != Some(401) {
        result := Err(e);
        return;
      }
      uploadUrl := None;
      uploadAuthToken := None;
      var again := AuthenticateB2();
      if again.Some? {
        result := Err(again.value);
        return;
      }
      var reply := b2.UploadFile(uploadUrl.value, uploadAuthToken.value, fileName, fileBuffer, contentType);
      if reply.PutFailed? {
        result := Err(reply.putError);
      } else {
        result := Ok(PublicUrl(bucket, fileName));
      }
    }
  }
}
