/** The `POST` handler of the tactical-analysis endpoint
    (app/api/analyze/tactics/route.ts, lines 104-300). Every collaborator
    (the request body reader, the storage bucket, `fetch`, the provider's
    file and model services, the clock) is an oracle: `Services` holds the
    reply each call gets, and a ghost log records the calls in order. */
module Handler {
  import opened Wrappers
  import opened Json
  import opened Text
  import opened Schema
  import opened Errors
  import opened Source
  import opened Poller

  // ---------------------------------------------------------------------
  // Collaborators
  // ---------------------------------------------------------------------

  /** The calls the handler makes to the storage bucket, the network and the
      provider's services. */
  datatype Call =
    | GetMetadata(filename: string)
    | Download(filename: string)
    | FetchUrl(url: string)
    | UploadFile(mimeType: string, displayName: string)
    | GetFile(name: string)
    | GenerateContent(file: FileHandle)
    | DeleteFile(name: string)

  /** The bucket object's metadata; its size is read as text. */
  datatype StoredMetadata = StoredMetadata(size: Option<string>, contentType: Option<string>)

  /** A `fetch` response that arrived (a rejected `fetch`, or a failure to
      read the body, is an `Err` instead). */
  datatype FetchReply = FetchReply(ok: bool, statusText: string, contentType: Option<string>)

  datatype FunctionCall = FunctionCall(name: string, args: Value)

  /** The model's reply: its function calls (`functionCalls()` returning
      `undefined` is the empty sequence) and what `text()` gives or throws. */
  datatype Generation = Generation(functionCalls: seq<FunctionCall>, text: Result<string>)

  /** The replies of the collaborators to the calls of one request. The
      bucket's `getMetadata` is called twice for a stored file. */
  datatype Services = Services(
    metadata: Result<StoredMetadata>,
    download: Option<Thrown>,
    metadataAgain: Result<StoredMetadata>,
    fetch: Result<FetchReply>,
    upload: Result<FileHandle>,
    getFile: FileService,
    generate: Result<Generation>)

  // ---------------------------------------------------------------------
  // Responses
  // ---------------------------------------------------------------------

  /** The JSON bodies the handler answers with. A report is sent as
      `ReportToJson(report)`; the schema error's `details` (the list of
      validation issues) is not modelled. */
  datatype Body =
    | ReportBody(report: TacticalReport)
    | ErrorBody(error: string)
    | ErrorWithDetails(error: string, details: Value)
    | SchemaErrorBody(error: string)

  datatype Response = Response(status: int, body: Body)

  const MissingSource := "Either filename or presetUrl is required in the request body"
  const FileTooLarge := "File too large. Max size is 20MB."
  const ReportToolName := "saveTacticalReport"
  const BadReportFormat := "Failed to generate report in the correct format."
  const NoStructuredReport := "Failed to extract structured report."
  const AnalysisFailed := "Analysis failed"

  // ---------------------------------------------------------------------
  // The `try` block, as a specification
  // ---------------------------------------------------------------------

  /** The `try` block either returns a response or throws. */
  datatype TryOutcome = Returned(response: Response) | Threw(error: Thrown)

  /** How the `try` block went: its outcome, the identifier it captured for
      the cleanup, and the calls it made. */
  datatype Attempt = Attempt(outcome: TryOutcome, fileIdentifier: Option<string>, log: seq<Call>)

  /** The part before the wait: it stops, or yields the uploaded file. */
  datatype Acquired = Stopped(attempt: Attempt) | Uploaded(file: FileHandle, log: seq<Call>)

  /** Only the bucket, `fetch` and the upload are called before the wait. */
  predicate Preparing(c: Call) {
    c.GetMetadata? || c.Download? || c.FetchUrl? || c.UploadFile?
  }

  predicate AllPreparing(log: seq<Call>) {
    forall c :: c in log ==> Preparing(c)
  }

  /** `fileManager.uploadFile`, after the calls in `log`. */
  function Upload(mimeType: string, displayName: string, s: Services, log: seq<Call>): (r: Acquired)
    ensures r.Stopped? ==> r.attempt.fileIdentifier.None? && r.attempt.outcome.Threw?
    ensures AllPreparing(log) ==> AllPreparing(if r.Stopped? then r.attempt.log else r.log)
  {
    var log := log + [UploadFile(mimeType, displayName)];
    if s.upload.Err? then Stopped(Attempt(Threw(s.upload.error), None, log))
    else Uploaded(s.upload.value, log)
  }

  /** Lines 136-147: a stored file is refused above the size limit... */
  function FromStorage(filename: string, s: Services): (r: Acquired)
    ensures r.Stopped? ==> r.attempt.fileIdentifier.None?
    ensures AllPreparing(if r.Stopped? then r.attempt.log else r.log)
  {
    var log := [GetMetadata(filename)];
    if s.metadata.Err? then Stopped(Attempt(Threw(s.metadata.error), None, log))
    else if TooLarge(s.metadata.value.size) then
      Stopped(Attempt(Returned(Response(413, ErrorBody(FileTooLarge))), None, log))
    else Transfer(filename, s, log)
  }

  /** ...and lines 148-156: otherwise it is downloaded and uploaded under its
      own name. */
  function Transfer(filename: string, s: Services, log: seq<Call>): (r: Acquired)
    requires AllPreparing(log)
    ensures r.Stopped? ==> r.attempt.fileIdentifier.None? && r.attempt.outcome.Threw?
    ensures AllPreparing(if r.Stopped? then r.attempt.log else r.log)
  {
    var log := log + [Download(filename)];
    if s.download.Some? then Stopped(Attempt(Threw(s.download.value), None, log))
    else
      var log := log + [GetMetadata(filename)];
      if s.metadataAgain.Err? then Stopped(Attempt(Threw(s.metadataAgain.error), None, log))
      else Upload(OrDefault(s.metadataAgain.value.contentType, DefaultMimeType), filename, s, log)
  }

  /** Lines 105-119 and 157-164: a preset video is fetched and uploaded
      under the name taken from its URL. */
  function FromPreset(url: string, s: Services, now: nat): (r: Acquired)
    ensures r.Stopped? ==> r.attempt.fileIdentifier.None? && r.attempt.outcome.Threw?
    ensures AllPreparing(if r.Stopped? then r.attempt.log else r.log)
  {
    var log := [FetchUrl(url)];
    if s.fetch.Err? then Stopped(Attempt(Threw(s.fetch.error), None, log))
    else if !s.fetch.value.ok then
      Stopped(Attempt(Threw(Raise(PresetFetchFailed(url, s.fetch.value.statusText))), None, log))
    else Upload(OrDefault(s.fetch.value.contentType, DefaultMimeType), PresetDisplayName(url, now), s, log)
  }

  function Acquire(body: RequestBody, s: Services, now: nat): (r: Acquired)
    ensures r.Stopped? ==> r.attempt.fileIdentifier.None?
    ensures r.Stopped? && r.attempt.outcome.Returned? ==>
      r.attempt.outcome.response.status in {400, 413} && r.attempt.outcome.response.body.ErrorBody?
    ensures AllPreparing(if r.Stopped? then r.attempt.log else r.log)
  {
    match SelectSource(body)
    case NoSource => Stopped(Attempt(Returned(Response(400, ErrorBody(MissingSource))), None, []))
    case StoredFile(filename) => FromStorage(filename, s)
    case Preset(url) => FromPreset(url, s, now)
  }

  /** `n` copies of `c`. */
  function Repeat(c: Call, n: nat): (r: seq<Call>)
    ensures |r| == n && forall i :: 0 <= i < n ==> r[i] == c
  {
    if n == 0 then [] else [c] + Repeat(c, n - 1)
  }

  /** Lines 234-254: the first function call must be `saveTacticalReport`
      with arguments the schema accepts; without such a call the model's
      text is reported instead. */
  function ReportStage(g: Generation): (o: TryOutcome)
    ensures o.Returned? ==> (o.response.status == 200 <==> o.response.body.ReportBody?)
    ensures o.Returned? && o.response.body.ReportBody? ==>
      |g.functionCalls| > 0 && g.functionCalls[0].name == ReportToolName &&
      ParseReport(g.functionCalls[0].args) == Some(o.response.body.report)
  {
    if |g.functionCalls| > 0 && g.functionCalls[0].name == ReportToolName then
      match ParseReport(g.functionCalls[0].args)
      case Some(report) => Returned(Response(200, ReportBody(report)))
      case None => Returned(Response(500, SchemaErrorBody(BadReportFormat)))
    else if g.text.Err? then Threw(g.text.error)
    else Returned(Response(500, ErrorWithDetails(NoStructuredReport, JString("Model returned text: " + g.text.value))))
  }

  /** Lines 171-254, once the file is uploaded and its name captured. */
  function AfterUpload(file: FileHandle, log: seq<Call>, s: Services): Attempt {
    var id := Some(file.name);
    var run := Poll(file, 0, s.getFile);
    var log := log + Repeat(GetFile(file.name), run.polls);
    match run.outcome
    case Raised(e) => Attempt(Threw(e), id, log)
    case Ready(active) =>
      var log := log + [GenerateContent(active)];
      match s.generate
      case Err(e) => Attempt(Threw(e), id, log)
      case Ok(g) => Attempt(ReportStage(g), id, log)
  }

  /** The whole `try` block; `request` is what `req.json()` gives or throws. */
  function Try(request: Result<RequestBody>, s: Services, now: nat): Attempt {
    match request
    case Err(e) => Attempt(Threw(e), None, [])
    case Ok(body) =>
      match Acquire(body, s, now)
      case Stopped(a) => a
      case Uploaded(file, log) => AfterUpload(file, log, s)
  }

  /** Lines 256-284: a returned response stands; anything thrown is
      classified. */
  function Respond(outcome: TryOutcome, fileIdentifier: Option<string>): Response {
    match outcome
    case Returned(r) => r
    case Threw(e) =>
      var c := Classify(e, fileIdentifier);
      Response(c.status, ErrorWithDetails(AnalysisFailed, c.details))
  }

  /** Lines 286-298: the calls of the `finally` block. */
  function Cleanup(fileIdentifier: Option<string>): seq<Call> {
    if Given(fileIdentifier) then [DeleteFile(fileIdentifier.value)] else []
  }

  datatype Handled = Handled(response: Response, log: seq<Call>)

  /** The handler: its response and every call it makes. */
  function Handle(request: Result<RequestBody>, s: Services, now: nat): Handled {
    var a := Try(request, s, now);
    Handled(Respond(a.outcome, a.fileIdentifier), a.log + Cleanup(a.fileIdentifier))
  }

  // ---------------------------------------------------------------------
  // The handler itself
  // ---------------------------------------------------------------------

  /** What a branch of step 2 leaves behind: an early outcome, or the
      uploaded file. */
  datatype Prepared = Halted(outcome: TryOutcome) | Prepared(file: FileHandle)

  function AsAcquired(p: Prepared, log: seq<Call>): Acquired {
    if p.Halted? then Stopped(Attempt(p.outcome, None, log)) else Uploaded(p.file, log)
  }

  /** The `try` block, statement by statement. */
  method Analyze(request: Result<RequestBody>, s: Services, now: nat)
    returns (outcome: TryOutcome, fileIdentifier: Option<string>, ghost log: seq<Call>)
    ensures Attempt(outcome, fileIdentifier, log) == Try(request, s, now)
  {
    fileIdentifier := None;
    log := [];
    if request.Err? {
      outcome := Threw(request.error);
      return;
    }
    var body := request.value;
    if !Given(body.filename) && !Given(body.presetUrl) {
      outcome := Returned(Response(400, ErrorBody(MissingSource)));
      return;
    }
    var prepared;
    if Given(body.filename) {
      prepared, log := PrepareStored(body.filename.value, s);
    } else {
      prepared, log := PreparePreset(body.presetUrl.value, s, now);
    }
    if prepared.Halted? {
      outcome := prepared.outcome;
      return;
    }
    var uploaded := prepared.file;
    fileIdentifier := Some(uploaded.name);
    ghost var rest;
    outcome, rest := AwaitAndReport(uploaded, s);
    log := log + rest;
  }

  /** Lines 136-156, for a stored file. */
  method PrepareStored(filename: string, s: Services) returns (prepared: Prepared, ghost log: seq<Call>)
    ensures AsAcquired(prepared, log) == FromStorage(filename, s)
  {
    log := [GetMetadata(filename)];
    if s.metadata.Err? {
      return Halted(Threw(s.metadata.error)), log;
    }
    if TooLarge(s.metadata.value.size) {
      return Halted(Returned(Response(413, ErrorBody(FileTooLarge)))), log;
    }
    log := log + [Download(filename)];
    if s.download.Some? {
      return Halted(Threw(s.download.value)), log;
    }
    log := log + [GetMetadata(filename)];
    if s.metadataAgain.Err? {
      return Halted(Threw(s.metadataAgain.error)), log;
    }
    var contentType := OrDefault(s.metadataAgain.value.contentType, DefaultMimeType);
    log := log + [UploadFile(contentType, filename)];
    if s.upload.Err? {
      return Halted(Threw(s.upload.error)), log;
    }
    prepared := Prepared(s.upload.value);
  }

  /** Lines 105-119 and 157-164, for a preset video. */
  method PreparePreset(url: string, s: Services, now: nat) returns (prepared: Prepared, ghost log: seq<Call>)
    ensures AsAcquired(prepared, log) == FromPreset(url, s, now)
  {
    var displayName := PresetDisplayName(url, now);
    log := [FetchUrl(url)];
    if s.fetch.Err? {
      return Halted(Threw(s.fetch.error)), log;
    }
    if !s.fetch.value.ok {
      return Halted(Threw(Raise(PresetFetchFailed(url, s.fetch.value.statusText)))), log;
    }
    var contentType := OrDefault(s.fetch.value.contentType, DefaultMimeType);
    log := log + [UploadFile(contentType, displayName)];
    if s.upload.Err? {
      return Halted(Threw(s.upload.error)), log;
    }
    prepared := Prepared(s.upload.value);
  }

  /** Lines 171-254: the wait, the model call and the handling of its reply. */
  method AwaitAndReport(uploaded: FileHandle, s: Services) returns (outcome: TryOutcome, ghost log: seq<Call>)
    ensures forall before :: AfterUpload(uploaded, before, s) == Attempt(outcome, Some(uploaded.name), before + log)
  {
    var waitOutcome, polls := AwaitActive(uploaded, s.getFile);
    log := Repeat(GetFile(uploaded.name), polls);
    if waitOutcome.Raised? {
      outcome := Threw(waitOutcome.error);
      return;
    }
    var file := waitOutcome.file;
    log := log + [GenerateContent(file)];
    if s.generate.Err? {
      outcome := Threw(s.generate.error);
      return;
    }
    var calls := s.generate.value.functionCalls;
    if |calls| > 0 && calls[0].name == ReportToolName {
      var report := ParseReport(calls[0].args);
      if report.Some? {
        outcome := Returned(Response(200, ReportBody(report.value)));
      } else {
        outcome := Returned(Response(500, SchemaErrorBody(BadReportFormat)));
      }
      return;
    }
    var text := s.generate.value.text;
    if text.Err? {
      outcome := Threw(text.error);
      return;
    }
    outcome := Returned(Response(500, ErrorWithDetails(NoStructuredReport, JString("Model returned text: " + text.value))));
  }

  /** `POST`: the `try` block, its `catch` and its `finally`.
      `deleteFailure` is what `deleteFile` throws, if anything; the handler
      catches it and only logs it, so the response does not depend on it. */
  method Post(request: Result<RequestBody>, s: Services, now: nat, deleteFailure: Option<Thrown>)
    returns (response: Response, ghost log: seq<Call>)
    ensures response == Handle(request, s, now).response
    ensures log == Handle(request, s, now).log
    ensures Count(log, IsDelete) == if Given(Try(request, s, now).fileIdentifier) then 1 else 0
  {
    var outcome, fileIdentifier;
    outcome, fileIdentifier, log := Analyze(request, s, now);
    if outcome.Returned? {
      response := outcome.response;
    } else {
      var c := Classify(outcome.error, fileIdentifier);
      response := Response(c.status, ErrorWithDetails(AnalysisFailed, c.details));
    }
    if Given(fileIdentifier) {
      log := log + [DeleteFile(fileIdentifier.value)];
    }
    DeletedOnce(request, s, now);
  }

  // ---------------------------------------------------------------------
  // Counting calls
  // ---------------------------------------------------------------------

  predicate IsDelete(c: Call) {
    c.DeleteFile?
  }

  predicate IsGetFile(c: Call) {
    c.GetFile?
  }

  /** The number of calls in `log` of the kind `p`. */
  function Count(log: seq<Call>, p: Call -> bool): (n: nat)
    ensures n <= |log|
  {
    if log == [] then 0 else (if p(log[0]) then 1 else 0) + Count(log[1..], p)
  }

  lemma {:induction false} CountAppend(a: seq<Call>, b: seq<Call>, p: Call -> bool)
    ensures Count(a + b, p) == Count(a, p) + Count(b, p)
  {
    if a == [] {
      assert a + b == b;
    } else {
      assert (a + b)[1..] == a[1..] + b;
      CountAppend(a[1..], b, p);
    }
  }

  lemma {:induction false} CountNone(log: seq<Call>, p: Call -> bool)
    requires forall c :: c in log ==> !p(c)
    ensures Count(log, p) == 0
  {
    if log != [] {
      assert log[0] in log;
      assert forall c :: c in log[1..] ==> c in log;
      CountNone(log[1..], p);
    }
  }

  lemma {:induction false} CountRepeat(c: Call, n: nat, p: Call -> bool)
    ensures Count(Repeat(c, n), p) == if p(c) then n else 0
  {
    if n > 0 {
      CountRepeat(c, n - 1, p);
    }
  }

  // ---------------------------------------------------------------------
  // Properties of the handler
  // ---------------------------------------------------------------------

  /** The `try` block calls `deleteFile` nowhere: an identifier is captured
      exactly when an upload succeeded, and it is the uploaded file's name. */
  lemma TryNeverDeletes(request: Result<RequestBody>, s: Services, now: nat)
    ensures Count(Try(request, s, now).log, IsDelete) == 0
    ensures Try(request, s, now).fileIdentifier.Some? <==>
      request.Ok? && Acquire(request.value, s, now).Uploaded?
    ensures Try(request, s, now).fileIdentifier.Some? ==>
      Try(request, s, now).fileIdentifier == Some(Acquire(request.value, s, now).file.name)
  {
    var a := Try(request, s, now);
    if request.Ok? && Acquire(request.value, s, now).Uploaded? {
      var acquired := Acquire(request.value, s, now);
      var run := Poll(acquired.file, 0, s.getFile);
      var polled := acquired.log + Repeat(GetFile(acquired.file.name), run.polls);
      assert forall c :: c in Repeat(GetFile(acquired.file.name), run.polls) ==> c.GetFile?;
      if run.outcome.Ready? {
        assert a.log == polled + [GenerateContent(run.outcome.file)];
      }
      CountNone(a.log, IsDelete);
    } else {
      CountNone(a.log, IsDelete);
    }
  }

  /** `deleteFile` is called exactly once, as the last call, when an
      identifier was captured, and never otherwise. */
  lemma DeletedOnce(request: Result<RequestBody>, s: Services, now: nat)
    ensures Count(Handle(request, s, now).log, IsDelete) ==
      if Given(Try(request, s, now).fileIdentifier) then 1 else 0
    ensures Given(Try(request, s, now).fileIdentifier) ==>
      Handle(request, s, now).log[|Handle(request, s, now).log| - 1] ==
        DeleteFile(Try(request, s, now).fileIdentifier.value)
  {
    var a := Try(request, s, now);
    TryNeverDeletes(request, s, now);
    CountAppend(a.log, Cleanup(a.fileIdentifier), IsDelete);
  }

  /** The `getFile` calls are exactly those of the wait, so there are at
      most 150 of them. */
  lemma GetFileCalls(request: Result<RequestBody>, s: Services, now: nat)
    ensures Count(Handle(request, s, now).log, IsGetFile) ==
      if request.Ok? && Acquire(request.value, s, now).Uploaded?
      then Poll(Acquire(request.value, s, now).file, 0, s.getFile).polls
      else 0
    ensures Count(Handle(request, s, now).log, IsGetFile) <= 150
  {
    var a := Try(request, s, now);
    var h := Handle(request, s, now);
    CountAppend(a.log, Cleanup(a.fileIdentifier), IsGetFile);
    CountNone(Cleanup(a.fileIdentifier), IsGetFile);
    if request.Ok? && Acquire(request.value, s, now).Uploaded? {
      var acquired := Acquire(request.value, s, now);
      var run := Poll(acquired.file, 0, s.getFile);
      var polls := Repeat(GetFile(acquired.file.name), run.polls);
      CountNone(acquired.log, IsGetFile);
      CountRepeat(GetFile(acquired.file.name), run.polls, IsGetFile);
      CountAppend(acquired.log, polls, IsGetFile);
      if run.outcome.Ready? {
        assert a.log == acquired.log + polls + [GenerateContent(run.outcome.file)];
        CountAppend(acquired.log + polls, [GenerateContent(run.outcome.file)], IsGetFile);
      }
      AtMost150Polls(acquired.file, s.getFile);
    } else {
      CountNone(a.log, IsGetFile);
    }
  }

  /** The model is only ever asked about a file that is `ACTIVE`. */
  lemma GeneratesOnlyWhenActive(request: Result<RequestBody>, s: Services, now: nat)
    ensures forall c :: c in Handle(request, s, now).log && c.GenerateContent? ==> c.file.state == Active
  {
  }

  /** A body with neither field given is answered with 400, and nothing is
      called. */
  lemma MissingSourceIs400(body: RequestBody, s: Services, now: nat)
    requires !Given(body.filename) && !Given(body.presetUrl)
    ensures Handle(Ok(body), s, now) == Handled(Response(400, ErrorBody(MissingSource)), [])
  {
  }

  /** `filename` wins: when it is given, `presetUrl` is ignored. */
  lemma FilenameWins(filename: string, presetUrl: Option<string>, s: Services, now: nat)
    requires filename != ""
    ensures Handle(Ok(RequestBody(Some(filename), presetUrl)), s, now) ==
            Handle(Ok(RequestBody(Some(filename), None)), s, now)
  {
    var both, alone := RequestBody(Some(filename), presetUrl), RequestBody(Some(filename), None);
    assert SelectSource(both) == SelectSource(alone) == StoredFile(filename);
    assert Acquire(both, s, now) == Acquire(alone, s, now);
  }

  /** A stored file reported as larger than 20 MiB is refused with 413
      after the one metadata call; nothing is uploaded or deleted. */
  lemma OversizeIs413(filename: string, presetUrl: Option<string>, s: Services, now: nat, n: nat)
    requires filename != ""
    requires s.metadata.Ok? && s.metadata.value.size == Some(Decimal(n)) && n > MaxStoredBytes
    ensures Handle(Ok(RequestBody(Some(filename), presetUrl)), s, now) ==
            Handled(Response(413, ErrorBody(FileTooLarge)), [GetMetadata(filename)])
  {
    TooLargeIff(n);
  }

  /** A stored file of exactly 20 MiB goes on to be downloaded. */
  lemma ExactLimitProceeds(filename: string, s: Services)
    requires s.metadata.Ok? && s.metadata.value.size == Some(Decimal(MaxStoredBytes))
    ensures FromStorage(filename, s) == Transfer(filename, s, [GetMetadata(filename)])
  {
    TooLargeIff(MaxStoredBytes);
  }

  /** Lines 238-249: a report is returned exactly when the first function
      call is `saveTacticalReport` and the schema accepts its arguments. */
  lemma ReportStageIff(g: Generation)
    ensures ReportStage(g).Returned? && ReportStage(g).response.status == 200 <==>
      |g.functionCalls| > 0 && g.functionCalls[0].name == ReportToolName && ValidReport(g.functionCalls[0].args)
    ensures ReportStage(g).Returned? && ReportStage(g).response.status == 200 ==>
      ReportStage(g).response.body == ReportBody(ParseReport(g.functionCalls[0].args).value)
  {
  }

  /** A `saveTacticalReport` call whose arguments the schema rejects is
      answered with 500 and the report-format error. */
  lemma ReportRejected(g: Generation)
    requires |g.functionCalls| > 0 && g.functionCalls[0].name == ReportToolName
    requires !ValidReport(g.functionCalls[0].args)
    ensures ReportStage(g) == Returned(Response(500, SchemaErrorBody(BadReportFormat)))
  {
  }

  /** Without a first `saveTacticalReport` call, the model's text is read:
      if reading it throws, that error goes to the `catch` block, and
      otherwise the answer is 500 with the text as details. */
  lemma NoReportCall(g: Generation)
    requires !(|g.functionCalls| > 0 && g.functionCalls[0].name == ReportToolName)
    ensures ReportStage(g) ==
      if g.text.Err? then Threw(g.text.error)
      else Returned(Response(500, ErrorWithDetails(NoStructuredReport, JString("Model returned text: " + g.text.value))))
  {
  }

  /** Status 200 is sent only with a report, and only when the model was
      asked about an active file and answered with a valid tool call; the
      report sent is the one the schema read from the call's arguments. */
  lemma OkOnlyWithReport(request: Result<RequestBody>, s: Services, now: nat)
    ensures Handle(request, s, now).response.status == 200 <==> Handle(request, s, now).response.body.ReportBody?
    ensures Handle(request, s, now).response.body.ReportBody? ==>
      s.generate.Ok? &&
      |s.generate.value.functionCalls| > 0 &&
      s.generate.value.functionCalls[0].name == ReportToolName &&
      ParseReport(s.generate.value.functionCalls[0].args) == Some(Handle(request, s, now).response.body.report) &&
      exists c :: c in Handle(request, s, now).log && c.GenerateContent?
  {
    var a := Try(request, s, now);
    if request.Ok? && Acquire(request.value, s, now).Uploaded? {
      var acquired := Acquire(request.value, s, now);
      var run := Poll(acquired.file, 0, s.getFile);
      if run.outcome.Ready? {
        var c := GenerateContent(run.outcome.file);
        assert a.log == acquired.log + Repeat(GetFile(acquired.file.name), run.polls) + [c];
        assert c in Handle(request, s, now).log;
      }
    }
  }

  // ---------------------------------------------------------------------
  // Scenarios
  // ---------------------------------------------------------------------

  /** A file that stays `PROCESSING` is polled 150 times, answered with 500
      (not the gateway-timeout status) and then deleted, provided its name
      is not empty. */
  lemma StuckProcessingIs500(body: RequestBody, s: Services, now: nat)
    requires Acquire(body, s, now).Uploaded? && Acquire(body, s, now).file.state == Processing
    requires forall k :: s.getFile(k).Ok? && s.getFile(k).value.state == Processing
    ensures Handle(Ok(body), s, now).response ==
      Response(500, ErrorWithDetails(AnalysisFailed, JString(TimedOut(Processing))))
    ensures Count(Handle(Ok(body), s, now).log, IsGetFile) == 150
    ensures Handle(Ok(body), s, now).log ==
      Acquire(body, s, now).log + Repeat(GetFile(Acquire(body, s, now).file.name), 150) +
      Cleanup(Some(Acquire(body, s, now).file.name))
  {
    var file := Acquire(body, s, now).file;
    AlwaysProcessingTimesOut(file, s.getFile);
    KnownStatesUnmarked();
    TimedOutIs500(Processing, Some(file.name));
    GetFileCalls(Ok(body), s, now);
  }

  /** A file the provider reports as `FAILED` is answered with 500 naming
      it; the model is not called. */
  lemma FailedFileIs500(body: RequestBody, s: Services, now: nat)
    requires Acquire(body, s, now).Uploaded? && Acquire(body, s, now).file.state == Failed
    requires Unmarked(Acquire(body, s, now).file.displayName)
    ensures Handle(Ok(body), s, now).response ==
      Response(500, ErrorWithDetails(AnalysisFailed, JString(ProcessingFailed(Acquire(body, s, now).file.displayName))))
    ensures forall c :: c in Handle(Ok(body), s, now).log ==> !c.GenerateContent?
  {
    var acquired := Acquire(body, s, now);
    FailedAtOnce(acquired.file, 0, s.getFile);
    ProcessingFailedIs500(acquired.file.displayName, Some(acquired.file.name));
    assert Repeat(GetFile(acquired.file.name), 0) == [];
  }

  /** A `getFile` error that mentions `getFile` and 404 is answered with
      404, naming the captured identifier. */
  lemma MissingUploadIs404(body: RequestBody, s: Services, now: nat, e: Thrown)
    requires Acquire(body, s, now).Uploaded? && Acquire(body, s, now).file.state == Processing
    requires s.getFile(0) == Err(e) && Message(e).Some?
    requires !Contains(Message(e).value, TimeoutMarker) && !Contains(Message(e).value, PresetMarker)
    requires Contains(Message(e).value, GetFileMarker) && Contains(Message(e).value, "404")
    ensures Handle(Ok(body), s, now).response ==
      Response(404, ErrorWithDetails(AnalysisFailed, JString(
        "Uploaded file not found (" + Acquire(body, s, now).file.name + "). It might have expired or been deleted.")))
  {
  }

  /** A preset URL that answers with an error status is answered with 502;
      nothing is uploaded, so nothing is deleted. */
  lemma PresetRefusedIs502(url: string, s: Services, now: nat)
    requires url != ""
    requires s.fetch.Ok? && !s.fetch.value.ok
    requires !Contains(url, TimeoutMarker) && !Contains(s.fetch.value.statusText, TimeoutMarker)
    ensures Handle(Ok(RequestBody(None, Some(url))), s, now) ==
      Handled(Response(502, ErrorWithDetails(AnalysisFailed,
                JString("Failed to retrieve preset video: " + PresetFetchFailed(url, s.fetch.value.statusText)))),
              [FetchUrl(url)])
  {
    PresetFetchFailedIs502(url, s.fetch.value.statusText, None);
  }

  /** A file that is `ACTIVE` at once and a valid tool call: the report is
      returned, the model was called once with that file, and the file is
      deleted afterwards. */
  lemma ReportReturned(body: RequestBody, s: Services, now: nat)
    requires Acquire(body, s, now).Uploaded? && Acquire(body, s, now).file.state == Active
    requires s.generate.Ok? && |s.generate.value.functionCalls| > 0
    requires s.generate.value.functionCalls[0].name == ReportToolName
    requires ValidReport(s.generate.value.functionCalls[0].args)
    ensures Handle(Ok(body), s, now).response ==
      Response(200, ReportBody(ParseReport(s.generate.value.functionCalls[0].args).value))
    ensures Handle(Ok(body), s, now).log ==
      Acquire(body, s, now).log + [GenerateContent(Acquire(body, s, now).file)] +
      Cleanup(Some(Acquire(body, s, now).file.name))
  {
    var acquired := Acquire(body, s, now);
    assert Repeat(GetFile(acquired.file.name), 0) == [];
    assert acquired.log + [] == acquired.log;
  }

  /** A preset video that the provider reports `PROCESSING` at upload and
      on the first poll and `ACTIVE` on the second, and a valid tool call:
      the report is returned, and the calls are the fetch, the upload, two
      polls, the model call and the deletion. */
  lemma PresetEndToEnd(url: string, s: Services, now: nat)
    requires url != ""
    requires s.fetch.Ok? && s.fetch.value.ok
    requires s.upload.Ok? && s.upload.value.state == Processing && s.upload.value.name != ""
    requires s.getFile(0).Ok? && s.getFile(0).value.state == Processing
    requires s.getFile(1).Ok? && s.getFile(1).value.state == Active
    requires s.generate.Ok? && |s.generate.value.functionCalls| > 0
    requires s.generate.value.functionCalls[0].name == ReportToolName
    requires ValidReport(s.generate.value.functionCalls[0].args)
    ensures Handle(Ok(RequestBody(None, Some(url))), s, now) ==
      Handled(Response(200, ReportBody(ParseReport(s.generate.value.functionCalls[0].args).value)),
              [FetchUrl(url),
               UploadFile(OrDefault(s.fetch.value.contentType, DefaultMimeType), PresetDisplayName(url, now)),
               GetFile(s.upload.value.name), GetFile(s.upload.value.name),
               GenerateContent(s.getFile(1).value),
               DeleteFile(s.upload.value.name)])
  {
    var id := s.upload.value.name;
    var body := RequestBody(None, Some(url));
    var uploadLog := [FetchUrl(url), UploadFile(OrDefault(s.fetch.value.contentType, DefaultMimeType), PresetDisplayName(url, now))];
    assert SelectSource(body) == Preset(url);
    assert FromPreset(url, s, now) == Uploaded(s.upload.value, uploadLog);
    assert Acquire(body, s, now) == Uploaded(s.upload.value, uploadLog);
    TwoPausesThenReport(s.upload.value, uploadLog, s);
    assert Try(Ok(body), s, now) == AfterUpload(s.upload.value, uploadLog, s);
    assert Cleanup(Some(id)) == [DeleteFile(id)];
    assert uploadLog + [GetFile(id), GetFile(id), GenerateContent(s.getFile(1).value)] + [DeleteFile(id)] ==
      [uploadLog[0], uploadLog[1], GetFile(id), GetFile(id), GenerateContent(s.getFile(1).value), DeleteFile(id)];
  }

  /** The wait and the model step of that scenario, after any preparation
      calls `log`. */
  lemma TwoPausesThenReport(file: FileHandle, log: seq<Call>, s: Services)
    requires file.state == Processing
    requires s.getFile(0).Ok? && s.getFile(0).value.state == Processing
    requires s.getFile(1).Ok? && s.getFile(1).value.state == Active
    requires s.generate.Ok? && |s.generate.value.functionCalls| > 0
    requires s.generate.value.functionCalls[0].name == ReportToolName
    requires ValidReport(s.generate.value.functionCalls[0].args)
    ensures AfterUpload(file, log, s) ==
      Attempt(Returned(Response(200, ReportBody(ParseReport(s.generate.value.functionCalls[0].args).value))),
              Some(file.name),
              log + [GetFile(file.name), GetFile(file.name), GenerateContent(s.getFile(1).value)])
  {
    ReadyAfterTwoPauses(file, s.getFile);
    assert Repeat(GetFile(file.name), 2) == [GetFile(file.name), GetFile(file.name)];
    assert log + [GetFile(file.name), GetFile(file.name)] + [GenerateContent(s.getFile(1).value)] ==
      log + [GetFile(file.name), GetFile(file.name), GenerateContent(s.getFile(1).value)];
    var g := s.generate.value;
    assert ReportStage(g) == Returned(Response(200, ReportBody(ParseReport(g.functionCalls[0].args).value)));
  }
}
