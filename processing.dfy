/**
 * auto_remove_background: count the attempt, stage the photo, call the
 * background-removal service, deliver the result or report the error, and
 * always remove the staged photo and the "processing" message. The photo
 * download, the HTTP call and the document upload are inputs (PhotoWorld).
 */
module Processing {
  import opened Wrappers
  import opened Chat
  import opened Registry
  import opened Settings

  const StatusOk := 200                  // requests.codes.ok
  const FallbackReason := "Authorization failed"
  const OutputBase := "SnapCleaned."
  const StagedSuffix := "_input.jpg"

  function DigitChar(d: int): (c: char)
    requires 0 <= d < 10
    ensures '0' <= c <= '9'
  {
    ('0' as int + d) as char
  }

  /** Python's decimal rendering of a non-negative int. */
  function NatString(n: nat): (s: string)
    ensures |s| > 0
    ensures forall i :: 0 <= i < |s| ==> '0' <= s[i] <= '9'
    ensures n >= 10 ==> |s| >= 2
  {
    if n < 10 then [DigitChar(n)] else NatString(n / 10) + [DigitChar(n % 10)]
  }

  /** `f'{n}'` for an int: a minus sign before negative values (group chat ids are negative). */
  function IntString(n: int): (s: string)
    ensures |s| > 0
    ensures s[0] == '-' <==> n < 0
    ensures n >= 0 ==> '0' <= s[0] <= '9'
  {
    if n < 0 then "-" + NatString(-n) else NatString(n)
  }

  /** `f'{chat_id}_input.jpg'`: where the downloaded photo is staged. */
  function StagedPath(chatId: int): (path: string)
    ensures |path| > |StagedSuffix| && path[|path| - |StagedSuffix|..] == "_input.jpg"
    ensures path[0] == '-' <==> chatId < 0
    ensures chatId >= 0 ==> '0' <= path[0] <= '9'
  {
    IntString(chatId) + StagedSuffix
  }

  /** `f'SnapCleaned.{output_format}'`: the name of the delivered file. */
  function OutputFilename(format: string): (name: string)
    ensures |name| == 12 + |format| && name[..12] == "SnapCleaned." && name[12..] == format
  {
    OutputBase + format
  }

  lemma {:induction false} NatStringInjective(a: nat, b: nat)
    requires NatString(a) == NatString(b)
    ensures a == b
  {
    var s := NatString(a);
    if a >= 10 && b >= 10 {
      assert s[..|s| - 1] == NatString(a / 10);
      assert NatString(b)[..|s| - 1] == NatString(b / 10);
      NatStringInjective(a / 10, b / 10);
      assert DigitChar(a % 10) == s[|s| - 1] == DigitChar(b % 10);
    } else if a < 10 && b < 10 {
      assert DigitChar(a) == s[0] == DigitChar(b);
    }
  }

  lemma IntStringInjective(a: int, b: int)
    requires IntString(a) == IntString(b)
    ensures a == b
  {
    if a < 0 && b < 0 {
      assert IntString(a)[1..] == NatString(-a);
      assert IntString(b)[1..] == NatString(-b);
      NatStringInjective(-a, -b);
    } else if a >= 0 && b >= 0 {
      NatStringInjective(a, b);
    }
  }

  /** Photos from different chats are staged under different names. */
  lemma StagedPathsDistinct(a: int, b: int)
    requires a != b
    ensures StagedPath(a) != StagedPath(b)
  {
    if StagedPath(a) == StagedPath(b) {
      var sa, sb := IntString(a), IntString(b);
      assert |sa| == |sb|;
      assert sa == StagedPath(a)[..|sa|];
      assert sb == StagedPath(b)[..|sb|];
      IntStringInjective(a, b);
    }
  }

  /** The staged photo and the delivered file never share a name. */
  lemma StagedIsNotOutput(chatId: int, format: string)
    ensures StagedPath(chatId) != OutputFilename(format)
  {
    assert StagedPath(chatId)[0] == IntString(chatId)[0];
    assert OutputFilename(format)[0] == 'S';
  }

  /** One element of the 'errors' list of the service's JSON error body. */
  datatype ErrorEntry = ErrorObject(title: Option<string>) | NotAnObject

  /** The value under the 'errors' key. */
  datatype ErrorsField = Missing | ErrorList(entries: seq<ErrorEntry>) | NotAList

  /** What `response.json()` yields on a non-OK status; NotJsonObject when it raises or is not a dict. */
  datatype ErrorBody = NotJsonObject | JsonObject(errors: ErrorsField)

  /** The first error object carries the title `t`. */
  predicate FirstTitleIs(body: ErrorBody, t: string) {
    && body.JsonObject? && body.errors.ErrorList?
    && |body.errors.entries| > 0 && body.errors.entries[0] == ErrorObject(Some(t))
  }

  /**
   * `error_details.get('errors', [{}])[0].get('title', 'Authorization failed')`;
   * None where that expression raises.
   */
  function ErrorReason(body: ErrorBody): (reason: Option<string>)
    ensures reason.None? <==>
              || body.NotJsonObject?
              || body.errors.NotAList?
              || (body.errors.ErrorList? &&
                  (|body.errors.entries| == 0 || body.errors.entries[0].NotAnObject?))
    ensures forall t :: FirstTitleIs(body, t) ==> reason == Some(t)
    ensures reason.Some? && !FirstTitleIs(body, reason.value) ==> reason.value == FallbackReason
    ensures body.JsonObject? && body.errors.Missing? ==> reason == Some(FallbackReason)
  {
    match body
    case NotJsonObject => None
    case JsonObject(Missing) => Some(FallbackReason)
    case JsonObject(NotAList) => None
    case JsonObject(ErrorList(entries)) =>
      if |entries| == 0 then None
      else
        match entries[0]
        case NotAnObject => None
        case ErrorObject(title) => Some(title.GetOr(FallbackReason))
  }

  /** How the photo download went; a failed one may leave a partial file behind. */
  datatype Fetch = Fetched | FetchFailed(leftPartialFile: bool)

  /** What `requests.post` did: raised (timeout, connection error) or answered. */
  datatype ApiAnswer = PostRaised | Response(status: int, content: Bytes, body: ErrorBody)

  /** The outside world's part in one photo: download, service call, document upload. */
  datatype PhotoWorld = PhotoWorld(fetch: Fetch, answer: ApiAnswer, sendOk: bool)

  /** The form fields posted to the service. */
  datatype ApiRequest = ApiRequest(size: string, format: string)

  /** How one photo ends for the user. */
  datatype Outcome = Delivered(filename: string, content: Bytes) | ApiError(reason: string) | Unexpected

  /** The service answered OK, so the result is written to the output file. */
  predicate WritesOutput(w: PhotoWorld) {
    w.fetch.Fetched? && w.answer.Response? && w.answer.status == StatusOk
  }

  /** The outcome of one photo, from the world's answers and the user's preferences. */
  function Decide(w: PhotoWorld, p: Prefs): (out: Outcome)
    ensures out.Delivered? <==> WritesOutput(w) && w.sendOk
    ensures out.Delivered? ==> out.filename == OutputFilename(OutputFormat(p)) && out.content == w.answer.content
    ensures out.ApiError? <==>
              w.fetch.Fetched? && w.answer.Response? && w.answer.status != StatusOk && ErrorReason(w.answer.body).Some?
    ensures out.ApiError? ==> ErrorReason(w.answer.body) == Some(out.reason)
  {
    match w.fetch
    case FetchFailed(_) => Unexpected
    case Fetched =>
      match w.answer
      case PostRaised => Unexpected
      case Response(status, content, body) =>
        if status == StatusOk then
          if w.sendOk then Delivered(OutputFilename(OutputFormat(p)), content) else Unexpected
        else
          match ErrorReason(body)
          case Some(reason) => ApiError(reason)
          case None => Unexpected
  }

  /** The one message that reports an outcome. */
  function OutcomeNotice(out: Outcome): (n: Notice)
    ensures n.Document? <==> out.Delivered?
    ensures out.Delivered? ==> n.filename == out.filename && n.content == out.content
    ensures out.ApiError? ==> n == Reply(ApiErrorText(out.reason))
    ensures out.Unexpected? ==> n == Reply(UnexpectedText)
  {
    match out
    case Delivered(filename, content) => Document(filename, content, DocumentCaption)
    case ApiError(reason) => Reply(ApiErrorText(reason))
    case Unexpected => Reply(UnexpectedText)
  }

  /** The user of the end-to-end scenarios: never chose anything. */
  lemma DefaultUserScenarios(content: Bytes, status: int)
    requires status != StatusOk
    ensures Decide(PhotoWorld(Fetched, Response(StatusOk, content, NotJsonObject), true), Unset)
         == Delivered("SnapCleaned.png", content)
    ensures Decide(PhotoWorld(Fetched, Response(status, [], JsonObject(ErrorList([ErrorObject(Some("Insufficient credits"))]))), true), Unset)
         == ApiError("Insufficient credits")
    ensures Decide(PhotoWorld(Fetched, Response(status, [], JsonObject(Missing)), true), Unset)
         == ApiError("Authorization failed")
    ensures Decide(PhotoWorld(Fetched, Response(status, [], JsonObject(ErrorList([]))), true), Unset)
         == Unexpected
  {
    assert FirstTitleIs(JsonObject(ErrorList([ErrorObject(Some("Insufficient credits"))])), "Insufficient credits");
  }

  /** The working directory, as the set of file names that exist in it. */
  class WorkDir {
    var files: set<string>

    constructor ()
      ensures files == {}
    {
      files := {};
    }

    /** os.path.exists */
    method Exists(path: string) returns (b: bool)
      ensures b <==> path in files
    {
      b := path in files;
    }

    /** Opening a file for writing creates it. */
    method Write(path: string)
      modifies this
      ensures files == old(files) + {path}
    {
      files := files + {path};
    }

    /** os.remove, which raises for a missing file; every caller checks first. */
    method Remove(path: string)
      requires path in files
      modifies this
      ensures files == old(files) - {path}
    {
      files := files - {path};
    }
  }

  /** auto_remove_background, with try/except/finally written out as a `raised` flag. */
  method AutoRemoveBackground(registry: UserRegistry, store: UserDataStore, dir: WorkDir,
                              chatId: int, user: TelegramUser, w: PhotoWorld)
    returns (out: Outcome, request: Option<ApiRequest>, sent: seq<Notice>)
    requires registry.Valid() && store.Valid()
    modifies registry, dir
    ensures registry.Valid()
    ensures registry.users == Bump(Track(old(registry.users), Some(user)), user.id)
    ensures registry.order == TrackOrder(old(registry.users), old(registry.order), Some(user))
    ensures out == Decide(w, store.Get(user.id))
    ensures request == if w.fetch.Fetched?
                       then Some(ApiRequest(OutputSize(store.Get(user.id)), OutputFormat(store.Get(user.id))))
                       else None
    ensures request.Some? ==> request.value.size == DefaultSize || request.value.size == HdSize
    ensures sent == [ProcessingNotice, OutcomeNotice(out), DeleteProcessingNotice]
    ensures StagedPath(chatId) !in dir.files
    ensures !WritesOutput(w) ==> dir.files == old(dir.files) - {StagedPath(chatId)}
    ensures WritesOutput(w) && w.sendOk ==>
              dir.files == old(dir.files) - {StagedPath(chatId), OutputFilename(OutputFormat(store.Get(user.id)))}
    ensures WritesOutput(w) && !w.sendOk ==>
              dir.files == old(dir.files) - {StagedPath(chatId)} + {OutputFilename(OutputFormat(store.Get(user.id)))}
  {
    registry.TrackUser(Some(user));
    registry.RecordAttempt(user.id);
    sent := [ProcessingNotice];
    var photoPath := StagedPath(chatId);
    out, request := Unexpected, None;

    // try
    var raised := false;
    match w.fetch {
      case FetchFailed(partial) =>
        if partial {
          dir.Write(photoPath);
        }
        raised := true;
      case Fetched =>
        dir.Write(photoPath);
    }
    if !raised {
      var prefs := store.Get(user.id);
      KnownQualityResolves(prefs);
      var format := OutputFormat(prefs);
      request := Some(ApiRequest(OutputSize(prefs), format));
      match w.answer {
        case PostRaised =>
          raised := true;
        case Response(status, content, body) =>
          if status == StatusOk {
            var name := OutputFilename(format);
            StagedIsNotOutput(chatId, format);
            dir.Write(name);
            if w.sendOk {
              sent := sent + [Document(name, content, DocumentCaption)];
              dir.Remove(name);
              out := Delivered(name, content);
            } else {
              raised := true;
            }
          } else {
            var reason := ErrorReason(body);
            if reason.Some? {
              sent := sent + [Reply(ApiErrorText(reason.value))];
              out := ApiError(reason.value);
            } else {
              raised := true;
            }
          }
      }
    }
    // except Exception
    if raised {
      sent := sent + [Reply(UnexpectedText)];
      out := Unexpected;
    }
    // finally
    var staged := dir.Exists(photoPath);
    if staged {
      dir.Remove(photoPath);
    }
    sent := sent + [DeleteProcessingNotice];
  }
}
