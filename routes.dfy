/** The HTTP routes of the server and the automatic pipeline an upload starts.
    A handler is a run of store writes: `updateProject` calls, which change a
    project record, and `addBuildLog` calls, which append to the log table.
    The builder's setup stages and the build run on the model's project tree
    (`SetupStages`, `AnalyzeAndBuild`); saving and extracting the archive and
    the analysis of `/analyze` arrive as their outcome, a parameter of the
    handler, and so do the process shell, the archive writer and the clock,
    read once per request. */
module Routes {
  import opened Wrappers
  import opened Strings
  import opened UploadRules
  import opened Storage
  import opened ProjectAnalyzer
  import opened Workspace
  import Templates
  import ApkBuilder

  // ---------------------------------------------------------------- upload checks

  /** A file as the multipart parser hands it over: original name, content, size and MIME type. */
  datatype UploadedFile = UploadedFile(originalName: string, content: seq<byte>, size: nat, mimeType: string)

  /** The rules an uploaded archive can break. */
  datatype UploadError = NotZipName | EmptyFile | OverLimit | NameTooLong | BadNameCharacters | NotZipArchive

  datatype UploadWarning = UnexpectedMime(mimeType: string) | LargeUpload

  /** The error texts of `/api/projects/validate`; `formatSize` is `formatFileSize`. */
  function ValidateMessage(e: UploadError, size: nat, formatSize: nat -> string): string {
    match e
    case NotZipName => "Only ZIP files are supported"
    case EmptyFile => "File is empty"
    case OverLimit => "File size (" + formatSize(size) + ") exceeds maximum limit (" + formatSize(MaxFileSize) + ")"
    case NameTooLong => "File name is too long (maximum 255 characters)"
    case BadNameCharacters => "File name contains invalid characters"
    case NotZipArchive => "File is not a valid ZIP archive"
  }

  /** The error texts of `/api/projects/upload`, which words the size limit differently. */
  function UploadMessage(e: UploadError, formatSize: nat -> string): string {
    match e
    case OverLimit => "File size exceeds maximum limit of " + formatSize(MaxFileSize)
    case _ => ValidateMessage(e, 0, formatSize)
  }

  function WarningMessage(w: UploadWarning): string {
    match w
    case UnexpectedMime(m) => "Unexpected file type: " + m + ". Expected ZIP format"
    case LargeUpload => "Large file detected. Upload may take longer"
  }

  /** The condition under which each rule adds its error. */
  predicate Violates(f: UploadedFile, e: UploadError) {
    match e
    case NotZipName => !HasZipExtension(f.originalName)
    case EmptyFile => f.size == 0
    case OverLimit => f.size > MaxFileSize
    case NameTooLong => LongName(f.originalName)
    case BadNameCharacters => HasPathCharacters(f.originalName)
    case NotZipArchive => !HasZipMagic(f.content)
  }

  function IfViolates(f: UploadedFile, e: UploadError): seq<UploadError> {
    if Violates(f, e) then [e] else []
  }

  /** The errors `/validate` collects, in the order it checks the rules. */
  function ValidateErrors(f: UploadedFile): seq<UploadError> {
    IfViolates(f, NotZipName) + IfViolates(f, EmptyFile) + IfViolates(f, OverLimit)
    + IfViolates(f, NameTooLong) + IfViolates(f, BadNameCharacters) + IfViolates(f, NotZipArchive)
  }

  /** The errors `/upload` collects: the same rules without the two name rules. */
  function UploadErrors(f: UploadedFile): seq<UploadError> {
    IfViolates(f, NotZipName) + IfViolates(f, EmptyFile) + IfViolates(f, OverLimit) + IfViolates(f, NotZipArchive)
  }

  /** The warnings `/validate` collects. */
  function ValidateWarnings(f: UploadedFile): seq<UploadWarning> {
    MimeWarning(f) + (if f.size > LargeFileSize then [LargeUpload] else [])
  }

  function MimeWarning(f: UploadedFile): seq<UploadWarning> {
    if f.mimeType != "" && f.mimeType !in AllowedMimeTypes then [UnexpectedMime(f.mimeType)] else []
  }

  /** An error is reported exactly when its rule is broken; the two size errors
      exclude each other, and the archive error means the content does not start with `PK`. */
  lemma ValidateErrorsMeaning(f: UploadedFile)
    ensures forall e :: e in ValidateErrors(f) <==> Violates(f, e)
    ensures !(EmptyFile in ValidateErrors(f) && OverLimit in ValidateErrors(f))
  {
    forall e ensures e in ValidateErrors(f) <==> Violates(f, e) {
      assert e in IfViolates(f, e) <==> Violates(f, e);
    }
  }

  /** Both routes report the archive error exactly when the content does not
      start with the two bytes `P`, `K`. */
  lemma ZipErrorMeaning(f: UploadedFile)
    ensures NotZipArchive in ValidateErrors(f) <==> !(|f.content| >= 2 && f.content[0] == 0x50 && f.content[1] == 0x4B)
    ensures NotZipArchive in UploadErrors(f) <==> NotZipArchive in ValidateErrors(f)
  {
    ValidateErrorsMeaning(f);
    UploadErrorsMeaning(f);
    ZipMagicMeaning(f.content);
  }

  /** `/upload` reports a broken rule exactly when it is not a name rule. */
  lemma UploadErrorsMeaning(f: UploadedFile)
    ensures forall e :: e in UploadErrors(f) <==> Violates(f, e) && e != NameTooLong && e != BadNameCharacters
    ensures !(EmptyFile in UploadErrors(f) && OverLimit in UploadErrors(f))
  {
    forall e ensures e in UploadErrors(f) <==> Violates(f, e) && e != NameTooLong && e != BadNameCharacters {
      assert e in IfViolates(f, e) <==> Violates(f, e);
    }
  }

  /** A file passes `/validate` exactly when it has a `.zip` name, a size from
      one byte to 500 MiB, a short name without path characters and the `PK`
      signature; neither the MIME type nor the large-file warning has a say. */
  lemma ValidateAcceptsIff(f: UploadedFile)
    ensures ValidateErrors(f) == [] <==>
      && HasZipExtension(f.originalName) && 0 < f.size <= MaxFileSize
      && !LongName(f.originalName) && !HasPathCharacters(f.originalName) && HasZipMagic(f.content)
    ensures forall m :: ValidateErrors(f.(mimeType := m)) == ValidateErrors(f)
  {
    ValidateErrorsMeaning(f);
    if ValidateErrors(f) != [] {
      assert ValidateErrors(f)[0] in ValidateErrors(f);
    }
  }

  /** A file passes `/upload` exactly when it has a `.zip` name, a size from one
      byte to 500 MiB and the `PK` signature; so whatever `/validate` accepts,
      `/upload` accepts too. */
  lemma UploadAcceptsIff(f: UploadedFile)
    ensures UploadErrors(f) == [] <==> HasZipExtension(f.originalName) && 0 < f.size <= MaxFileSize && HasZipMagic(f.content)
    ensures ValidateErrors(f) == [] ==> UploadErrors(f) == []
  {
    UploadErrorsMeaning(f);
    ValidateAcceptsIff(f);
    if UploadErrors(f) != [] {
      assert UploadErrors(f)[0] in UploadErrors(f);
    }
  }

  /** The converse fails: `/upload` takes a name with a parent-directory step
      that `/validate` turns away. */
  lemma UploadIgnoresNameRules()
    ensures var f := UploadedFile("../a.zip", [0x50, 0x4B], 2, "application/zip");
      UploadErrors(f) == [] && ValidateErrors(f) == [BadNameCharacters]
  {
    var f := UploadedFile("../a.zip", [0x50, 0x4B], 2, "application/zip");
    ParentStepName();
    ZipMagicMeaning(f.content);
  }

  /** `../a.zip` ends in `.zip`, is short, and holds a parent-directory step. */
  lemma ParentStepName()
    ensures HasZipExtension("../a.zip") && !LongName("../a.zip") && HasPathCharacters("../a.zip")
  {
    var name := "../a.zip";
    assert ToLower(name) == name;
    assert StartsWith(name, "..");
  }

  /** Each warning is raised exactly when its condition holds, and a file between
      100 MiB and 500 MiB draws the large-file warning without a size error. */
  lemma ValidateWarningsMeaning(f: UploadedFile)
    ensures UnexpectedMime(f.mimeType) in ValidateWarnings(f) <==> f.mimeType != "" && f.mimeType !in AllowedMimeTypes
    ensures forall m :: UnexpectedMime(m) in ValidateWarnings(f) ==> m == f.mimeType
    ensures LargeUpload in ValidateWarnings(f) <==> f.size > LargeFileSize
    ensures LargeFileSize < f.size <= MaxFileSize ==>
      LargeUpload in ValidateWarnings(f) && EmptyFile !in ValidateErrors(f) && OverLimit !in ValidateErrors(f)
  {
    WarningsRaised(f);
    if LargeFileSize < f.size <= MaxFileSize {
      ValidateErrorsMeaning(f);
      assert !Violates(f, EmptyFile) && !Violates(f, OverLimit);
    }
  }

  lemma WarningsRaised(f: UploadedFile)
    ensures UnexpectedMime(f.mimeType) in ValidateWarnings(f) <==> f.mimeType != "" && f.mimeType !in AllowedMimeTypes
    ensures forall m :: UnexpectedMime(m) in ValidateWarnings(f) ==> m == f.mimeType
    ensures LargeUpload in ValidateWarnings(f) <==> f.size > LargeFileSize
  {
    assert LargeUpload !in MimeWarning(f);
  }

  datatype FileInfo = FileInfo(name: string, size: nat, mimeType: string)

  /** `{name, size, type: mimetype || 'application/zip'}` */
  function InfoOf(f: UploadedFile): (info: FileInfo)
    ensures info.name == f.originalName && info.size == f.size
    ensures info.mimeType != ""
    ensures f.mimeType != "" ==> info.mimeType == f.mimeType
  {
    FileInfo(f.originalName, f.size, if f.mimeType != "" then f.mimeType else "application/zip")
  }

  /** The body of a `/validate` response: status 400 when no file was sent, 200 otherwise. */
  datatype ValidateReply =
    | NoFileToValidate
    | Validated(isValid: bool, errors: seq<UploadError>, warnings: seq<UploadWarning>, fileInfo: FileInfo, zipValid: bool)

  /** What `/validate` answers for a file: valid exactly when no rule is broken. */
  function ValidateResult(f: UploadedFile): ValidateReply {
    var errors := ValidateErrors(f);
    Validated(errors == [], errors, ValidateWarnings(f), InfoOf(f), HasZipMagic(f.content))
  }

  /** `POST /api/projects/validate`: checks the file without storing anything. */
  method Validate(file: Option<UploadedFile>) returns (reply: ValidateReply)
    ensures file.None? ==> reply == NoFileToValidate
    ensures file.Some? ==> reply == ValidateResult(file.value)
  {
    if file.None? {
      return NoFileToValidate;
    }
    var f := file.value;
    var errors: seq<UploadError> := [];
    var warnings: seq<UploadWarning> := [];
    if Violates(f, NotZipName) {
      errors := errors + [NotZipName];
    }
    assert errors == IfViolates(f, NotZipName);
    ghost var before := errors;
    if f.size == 0 {
      errors := errors + [EmptyFile];
    } else if f.size > MaxFileSize {
      errors := errors + [OverLimit];
    }
    assert errors == before + IfViolates(f, EmptyFile) + IfViolates(f, OverLimit);
    if f.mimeType != "" && f.mimeType !in AllowedMimeTypes {
      warnings := warnings + [UnexpectedMime(f.mimeType)];
    }
    assert warnings == MimeWarning(f);
    before := errors;
    if Violates(f, NameTooLong) {
      errors := errors + [NameTooLong];
    }
    assert errors == before + IfViolates(f, NameTooLong);
    before := errors;
    if Violates(f, BadNameCharacters) {
      errors := errors + [BadNameCharacters];
    }
    assert errors == before + IfViolates(f, BadNameCharacters);
    before := errors;
    var zipValid := true;
    if Violates(f, NotZipArchive) {
      errors := errors + [NotZipArchive];
      zipValid := false;
    }
    assert errors == before + IfViolates(f, NotZipArchive);
    if f.size > LargeFileSize {
      warnings := warnings + [LargeUpload];
    }
    assert warnings == ValidateWarnings(f);
    assert errors == ValidateErrors(f);
    assert zipValid == HasZipMagic(f.content);
    reply := Validated(|errors| == 0, errors, warnings, InfoOf(f), zipValid);
  }

  /** The checks `/upload` makes before it stores anything. */
  method CheckUpload(f: UploadedFile) returns (errors: seq<UploadError>)
    ensures errors == UploadErrors(f)
  {
    errors := [];
    if Violates(f, NotZipName) {
      errors := errors + [NotZipName];
    }
    assert errors == IfViolates(f, NotZipName);
    ghost var before := errors;
    if f.size == 0 {
      errors := errors + [EmptyFile];
    } else if f.size > MaxFileSize {
      errors := errors + [OverLimit];
    }
    assert errors == before + IfViolates(f, EmptyFile) + IfViolates(f, OverLimit);
    before := errors;
    if Violates(f, NotZipArchive) {
      errors := errors + [NotZipArchive];
    }
    assert errors == before + IfViolates(f, NotZipArchive);
  }

  /** The record `/upload` creates: the name is the file name with its first
      `.zip` removed, the status `uploaded` and the progress 10. */
  function NewUpload(f: UploadedFile): NewProject {
    NewProject(ReplaceFirst(f.originalName, ".zip", ""), f.originalName, f.size,
      None, Some(Uploaded), Some(10), None, None, None, None, None, None)
  }

  // ---------------------------------------------------------------- log lines and writes

  /** A build-log record without its id. */
  datatype LogLine = LogLine(projectId: int, level: Level, message: string, timestamp: int)

  function LineOf(l: BuildLog): LogLine {
    LogLine(l.projectId, l.level, l.message, l.timestamp)
  }

  /** The log table without the ids. */
  function Lines(logs: seq<BuildLog>): (ls: seq<LogLine>)
    ensures |ls| == |logs|
  {
    if logs == [] then [] else Lines(logs[..|logs| - 1]) + [LineOf(logs[|logs| - 1])]
  }

  lemma LinesSnoc(logs: seq<BuildLog>, l: BuildLog)
    ensures Lines(logs + [l]) == Lines(logs) + [LineOf(l)]
  {
    assert (logs + [l])[..|logs|] == logs;
  }

  /** One line per message, all of one project and level, stamped `now`. */
  function Each(projectId: int, level: Level, messages: seq<string>, now: int): (ls: seq<LogLine>)
    ensures |ls| == |messages|
  {
    if messages == [] then []
    else Each(projectId, level, messages[..|messages| - 1], now) + [LogLine(projectId, level, messages[|messages| - 1], now)]
  }

  /** One `updateProject(projectId, update)` call. */
  datatype Write = Write(projectId: int, update: ProjectUpdate)

  function ProgressOnly(n: int): (u: ProjectUpdate)
    ensures u.progress == Some(n) && u.status.None?
  {
    NoUpdate.(progress := Some(n))
  }

  /** The progress values a run of writes sets, in order. */
  function Progressions(ws: seq<Write>): seq<int> {
    if ws == [] then []
    else
      var last := ws[|ws| - 1];
      Progressions(ws[..|ws| - 1]) + (if last.update.progress.Some? then [last.update.progress.value] else [])
  }

  lemma {:induction false} ProgressionsAppend(a: seq<Write>, b: seq<Write>)
    ensures Progressions(a + b) == Progressions(a) + Progressions(b)
    decreases |b|
  {
    if b == [] {
      assert a + b == a;
    } else {
      var init := b[..|b| - 1];
      assert (a + b)[..|a + b| - 1] == a + init;
      ProgressionsAppend(a, init);
      ApkBuilder.ConcatAssoc(Progressions(a), Progressions(init),
        if b[|b| - 1].update.progress.Some? then [b[|b| - 1].update.progress.value] else []);
    }
  }

  // ---------------------------------------------------------------- replies and log texts

  /** What a handler answers, with its HTTP status under `StatusCode`. */
  datatype Reply =
    | NoFile
    | ValidationFailed(errors: seq<UploadError>)
    | ExtractionFailed(details: string)
    | UploadDone(project: Project)
    | NotFound
    | AnalysisDone(analysis: Analysis)
    | AnalysisFailed
    | NotAnalyzed
    | StepFailed(step: nat, stageErrors: seq<string>)
    | SetupDone
    | BuildDone(result: ApkBuilder.BuildResult)
    | Deleted

  function StatusCode(r: Reply): int {
    match r
    case NoFile => 400
    case ValidationFailed(_) => 400
    case ExtractionFailed(_) => 500
    case NotFound => 404
    case AnalysisFailed => 500
    case NotAnalyzed => 400
    case StepFailed(_, _) => 500
    case _ => 200
  }

  const ExtractingLine := "Extracting ZIP file..."
  const AutoAnalysisLine := "Automatically starting project analysis..."
  const AnalysisStartLine := "Starting project analysis..."
  const SetupStartLine := "Starting comprehensive project setup..."
  const AutoSetupLine := "Automatically starting comprehensive project setup..."
  const Step1Header := "STEP 1/4: Installing project dependencies..."
  const Step2Header := "STEP 2/4: Creating missing files and directories..."
  const Step3Header := "STEP 3/4: Setting up required SDKs..."
  const Step4Header := "STEP 4/4: Installing build tools..."
  const SetupDoneLine := "\U{2705} Project setup completed successfully! All dependencies installed, missing files created, SDKs configured, and build tools ready."
  const AutoSetupDoneLine := "Project setup completed successfully! Starting APK generation..."
  const BuildStartLine := "Starting APK build..."
  const AutoBuildLine := "Automatically starting APK build process..."
  const AutoBuildDoneLine := "\U{1F389} APK generation completed successfully! Ready for download."

  function UploadStartedLine(name: string, sizeText: string): string {
    "File upload started: " + name + " (" + sizeText + ")"
  }

  /** `${Date.now()}_${originalname}`: the name the archive is saved under. */
  function SavedName(f: UploadedFile, now: int): string {
    IntToString(now) + "_" + f.originalName
  }

  /** `path.join(process.cwd(), 'builds', `project_${id}`)` */
  function ProjectDirectory(cwd: string, id: int): string {
    cwd + "/builds/project_" + IntToString(id)
  }

  // ---------------------------------------------------------------- what the handlers write

  /** The lines one step of `/setup` adds after `before`: its heading, then the
      stage's logs, then the stage's errors. */
  function StepLog(before: seq<LogLine>, id: int, header: string, r: ApkBuilder.StageResult, now: int): seq<LogLine> {
    before + [LogLine(id, InfoLevel, header, now)] + Each(id, InfoLevel, r.logs, now) + Each(id, ErrorLevel, r.errors, now)
  }

  /** The writes one step of `/setup` adds after `before`: its progress, then
      the error status at that progress when the stage failed. */
  function StepWrites(before: seq<Write>, id: int, progress: int, r: ApkBuilder.StageResult): seq<Write> {
    before + [Write(id, ProgressOnly(progress))] + (if r.success then [] else [Write(id, StatusProgress(Error, progress))])
  }

  /** The log of `/setup` after `before`: the step of each stage, up to the
      first that fails, and the closing line when none fails. */
  function SetupLog(before: seq<LogLine>, id: int, d: ApkBuilder.StageResult, m: ApkBuilder.StageResult,
                    s: ApkBuilder.StageResult, t: ApkBuilder.StageResult, now: int): seq<LogLine> {
    var l1 := StepLog(before + [LogLine(id, InfoLevel, SetupStartLine, now)], id, Step1Header, d, now);
    if !d.success then l1 else
    var l2 := StepLog(l1, id, Step2Header, m, now);
    if !m.success then l2 else
    var l3 := StepLog(l2, id, Step3Header, s, now);
    if !s.success then l3 else
    var l4 := StepLog(l3, id, Step4Header, t, now);
    if !t.success then l4 else l4 + [LogLine(id, InfoLevel, SetupDoneLine, now)]
  }

  /** The writes of `/setup` after `before`. */
  function SetupWrites(before: seq<Write>, id: int, d: ApkBuilder.StageResult, m: ApkBuilder.StageResult,
                       s: ApkBuilder.StageResult, t: ApkBuilder.StageResult): seq<Write> {
    var w1 := StepWrites(before + [Write(id, StatusProgress(Setup, 25))], id, 30, d);
    if !d.success then w1 else
    var w2 := StepWrites(w1, id, 40, m);
    if !m.success then w2 else
    var w3 := StepWrites(w2, id, 50, s);
    if !s.success then w3 else
    var w4 := StepWrites(w3, id, 60, t);
    if !t.success then w4 else w4 + [Write(id, StatusProgress(SetupComplete, 65))]
  }

  /** The status and progress `/setup` leaves: an error at the progress of
      the first failing stage, else `setup-complete` at 65. */
  function SetupEnd(d: ApkBuilder.StageResult, m: ApkBuilder.StageResult,
                    s: ApkBuilder.StageResult, t: ApkBuilder.StageResult): (Status, int) {
    if !d.success then (Error, 30)
    else if !m.success then (Error, 40)
    else if !s.success then (Error, 50)
    else if !t.success then (Error, 60)
    else (SetupComplete, 65)
  }

  function SetupReply(d: ApkBuilder.StageResult, m: ApkBuilder.StageResult,
                      s: ApkBuilder.StageResult, t: ApkBuilder.StageResult): Reply {
    if !d.success then StepFailed(1, d.errors)
    else if !m.success then StepFailed(2, m.errors)
    else if !s.success then StepFailed(3, s.errors)
    else if !t.success then StepFailed(4, t.errors)
    else SetupDone
  }

  /** The writes the progress callback of a build makes, one per report. */
  function ProgressWrites(id: int, reports: seq<ApkBuilder.Report>): (ws: seq<Write>)
    ensures |ws| == |reports|
  {
    if reports == [] then []
    else ProgressWrites(id, reports[..|reports| - 1]) + [Write(id, ProgressOnly(reports[|reports| - 1].progress))]
  }

  /** The lines the progress callback of a build logs, one per report. */
  function ReportLines(id: int, reports: seq<ApkBuilder.Report>, now: int): (ls: seq<LogLine>)
    ensures |ls| == |reports|
  {
    if reports == [] then []
    else ReportLines(id, reports[..|reports| - 1], now) + [LogLine(id, InfoLevel, reports[|reports| - 1].message, now)]
  }

  /** The update `/analyze` makes from a finished analysis. */
  function AnalysisUpdate(a: Analysis): ProjectUpdate {
    NoUpdate.(framework := Some(a.framework), status := Some(if a.hasValidStructure then Analyzed else Error),
      progress := Some(50), buildConfig := Some(a.buildConfig), projectStats := Some(a.projectStats))
  }

  /** The update a finished build makes. */
  function BuildOutcome(r: ApkBuilder.BuildResult): ProjectUpdate {
    if r.success then NoUpdate.(status := Some(Completed), progress := Some(100), apkPath := r.apkPath, apkSize := r.apkSize)
    else StatusProgress(Error, 100)
  }

  /** Updating a key twice keeps the later value. */
  lemma UpdateTwice<K, V>(m: map<K, V>, k: K, a: V, b: V)
    ensures m[k := a][k := b] == m[k := b]
  {
  }

  lemma MergedStatusProgress(p: Project, s: Status, n: int, now: int)
    ensures Merged(p, StatusProgress(s, n), now) == p.(status := s, progress := n, updatedAt := now)
  {
  }

  lemma MergedProgress(p: Project, n: int, now: int)
    ensures Merged(p, ProgressOnly(n), now) == p.(progress := n, updatedAt := now)
  {
  }

  /** The four stages `/setup` runs, and the project tree after them. */
  datatype SetupRun = SetupRun(
    deps: ApkBuilder.StageResult, files: ApkBuilder.StageResult,
    sdk: ApkBuilder.StageResult, tools: ApkBuilder.StageResult, tree: Tree)

  /** `installDependencies`, `detectAndCreateMissingFiles`, `setupSDKAndEnvironment`
      and `installBuildTools` on the project directory; the build tools look at
      the directory the file creator left. None of the four stages fails. */
  function SetupStages(t: Tree, a: Analysis, shell: string -> ApkBuilder.Exec, render: Templates.Document -> string): (run: SetupRun)
    ensures run.deps.success && run.files.success && run.sdk.success && run.tools.success
    ensures run.tree == ApkBuilder.PreparedTree(t, ApkBuilder.FrameworkOf(a.framework), render)
  {
    var (files, u) := ApkBuilder.DetectAndCreateMissingFiles(t, a, render);
    SetupRun(ApkBuilder.InstallDependencies(a, shell), files, ApkBuilder.SetupSdkAndEnvironment(a, shell),
      ApkBuilder.InstallBuildTools(u, a, shell), u)
  }

  /** A project after a finished build: `completed` with the archive's path
      and size, or `error`, at 100 either way. */
  function Built(p: Project, r: ApkBuilder.BuildResult, now: int): Project {
    p.(status := if r.success then Completed else Error, progress := 100,
       apkPath := if r.success then r.apkPath else p.apkPath,
       apkSize := if r.success then r.apkSize else p.apkSize, updatedAt := now)
  }

  /** The line the automatic build adds after a successful build. */
  function DoneLine(id: int, r: ApkBuilder.BuildResult, now: int): seq<LogLine> {
    if r.success then [LogLine(id, InfoLevel, AutoBuildDoneLine, now)] else []
  }

  lemma MergedBuildOutcome(p: Project, r: ApkBuilder.BuildResult, now: int)
    requires r.success ==> r.apkPath.Some? && r.apkSize.Some?
    ensures Merged(p, BuildOutcome(r), now) == Built(p, r, now)
  {
  }

  /** The log of the automatic setup after `before`: its opening line, each
      step's heading followed by the stage's logs (never its errors), and the
      closing line. */
  function AutoSetupLog(before: seq<LogLine>, id: int, run: SetupRun, now: int): seq<LogLine> {
    var l1 := AutoStepLog(before + [LogLine(id, InfoLevel, AutoSetupLine, now)], id, Step1Header, run.deps, now);
    var l2 := AutoStepLog(l1, id, Step2Header, run.files, now);
    var l3 := AutoStepLog(l2, id, Step3Header, run.sdk, now);
    AutoStepLog(l3, id, Step4Header, run.tools, now) + [LogLine(id, InfoLevel, AutoSetupDoneLine, now)]
  }

  /** One step of the automatic setup: its heading, then the stage's logs. */
  function AutoStepLog(before: seq<LogLine>, id: int, header: string, r: ApkBuilder.StageResult, now: int): seq<LogLine> {
    before + [LogLine(id, InfoLevel, header, now)] + Each(id, InfoLevel, r.logs, now)
  }

  /** The writes of the automatic setup after `before`. */
  function AutoSetupWrites(before: seq<Write>, id: int): seq<Write> {
    before + [Write(id, StatusProgress(Setup, 25))] + [Write(id, ProgressOnly(30))] + [Write(id, ProgressOnly(40))]
      + [Write(id, ProgressOnly(50))] + [Write(id, StatusProgress(SetupComplete, 60))]
  }

  /** What `/build` and the automatic build do with the project directory:
      `analyzeProject`, then `buildApk` on that analysis. Of the builder's
      contract, the handlers rely on when the build succeeds, what a success
      carries and how the reports end. */
  method AnalyzeAndBuild(t: Tree, parse: string -> Result<PackageJson>, host: ApkBuilder.Host,
                         render: Templates.Document -> string)
    returns (a: Analysis, r: ApkBuilder.BuildResult, reports: seq<ApkBuilder.Report>, u: Tree)
    ensures r.success <==> ApkBuilder.Builds(t, a, render)
    ensures r.success ==> r.apkPath == Some(ApkBuilder.ApkPath) && r.apkSize.Some?
    ensures ApkBuilder.EndsBuild(reports) && |reports| >= 1
  {
    a := AnalyzeProject(t, parse);
    r, reports, u := ApkBuilder.BuildApk(t, a, host, render);
  }

  // ---------------------------------------------------------------- properties of the traces

  /** A log line is one of `Each`'s exactly when it has the project, the level
      and the time, and its message is one of the messages. */
  lemma {:induction false} EachMeaning(projectId: int, level: Level, messages: seq<string>, now: int)
    ensures forall l :: l in Each(projectId, level, messages, now) <==>
      l.projectId == projectId && l.level == level && l.message in messages && l.timestamp == now
    decreases |messages|
  {
    if messages != [] {
      var init := messages[..|messages| - 1];
      EachMeaning(projectId, level, init, now);
      assert messages == init + [messages[|messages| - 1]];
    }
  }

  lemma ProgressionsSnoc(ws: seq<Write>, w: Write)
    ensures Progressions(ws + [w]) == Progressions(ws) + (if w.update.progress.Some? then [w.update.progress.value] else [])
  {
    assert (ws + [w])[..|ws|] == ws;
  }

  lemma {:induction false} ProgressWritesProgressions(id: int, reports: seq<ApkBuilder.Report>)
    ensures Progressions(ProgressWrites(id, reports)) == ApkBuilder.Progresses(reports)
    decreases |reports|
  {
    if reports != [] {
      var init := reports[..|reports| - 1];
      var last := reports[|reports| - 1];
      ProgressWritesProgressions(id, init);
      ProgressionsSnoc(ProgressWrites(id, init), Write(id, ProgressOnly(last.progress)));
      assert init + [last] == reports;
      ApkBuilder.ProgressesAppend(init, [last]);
    }
  }

  /** The progress of one step of `/setup`: set once, and once more alongside
      the error status when the stage failed. */
  lemma StepProgress(before: seq<Write>, id: int, progress: int, r: ApkBuilder.StageResult)
    ensures Progressions(StepWrites(before, id, progress, r)) ==
      Progressions(before) + (if r.success then [progress] else [progress, progress])
  {
    ProgressionsSnoc(before, Write(id, ProgressOnly(progress)));
    if !r.success {
      ProgressionsSnoc(before + [Write(id, ProgressOnly(progress))], Write(id, StatusProgress(Error, progress)));
    } else {
      assert before + [Write(id, ProgressOnly(progress))] + [] == before + [Write(id, ProgressOnly(progress))];
    }
  }

  /** The progress a client polling `/setup` sees: 25, then 30, 40, 50 and 60
      up to the first failing stage, whose value is written twice, then 65
      when no stage fails. */
  lemma SetupProgress(id: int, d: ApkBuilder.StageResult, m: ApkBuilder.StageResult,
                      s: ApkBuilder.StageResult, t: ApkBuilder.StageResult)
    ensures var ps := Progressions(SetupWrites([], id, d, m, s, t));
      && (!d.success ==> ps == [25, 30, 30])
      && (d.success && !m.success ==> ps == [25, 30, 40, 40])
      && (d.success && m.success && !s.success ==> ps == [25, 30, 40, 50, 50])
      && (d.success && m.success && s.success && !t.success ==> ps == [25, 30, 40, 50, 60, 60])
      && (d.success && m.success && s.success && t.success ==> ps == [25, 30, 40, 50, 60, 65])
  {
    var w0 := [Write(id, StatusProgress(Setup, 25))];
    ProgressionsSnoc([], Write(id, StatusProgress(Setup, 25)));
    assert [] + [Write(id, StatusProgress(Setup, 25))] == w0;
    var w1 := StepWrites(w0, id, 30, d);
    StepProgress(w0, id, 30, d);
    var ps := Progressions(SetupWrites([], id, d, m, s, t));
    if !d.success {
      assert SetupWrites([], id, d, m, s, t) == w1;
      assert ps == [25, 30, 30];
    } else {
      var w2 := StepWrites(w1, id, 40, m);
      StepProgress(w1, id, 40, m);
      if !m.success {
        assert SetupWrites([], id, d, m, s, t) == w2;
        assert ps == [25, 30, 40, 40];
      } else {
        var w3 := StepWrites(w2, id, 50, s);
        StepProgress(w2, id, 50, s);
        if !s.success {
          assert SetupWrites([], id, d, m, s, t) == w3;
          assert ps == [25, 30, 40, 50, 50];
        } else {
          var w4 := StepWrites(w3, id, 60, t);
          StepProgress(w3, id, 60, t);
          if !t.success {
            assert SetupWrites([], id, d, m, s, t) == w4;
            assert ps == [25, 30, 40, 50, 60, 60];
          } else {
            ProgressionsSnoc(w4, Write(id, StatusProgress(SetupComplete, 65)));
            assert SetupWrites([], id, d, m, s, t) == w4 + [Write(id, StatusProgress(SetupComplete, 65))];
            assert ps == [25, 30, 40, 50, 60, 65];
          }
        }
      }
    }
  }

  /** The progress of `/setup` never goes down, and it ends where the record is left. */
  lemma SetupProgressMonotone(id: int, d: ApkBuilder.StageResult, m: ApkBuilder.StageResult,
                              s: ApkBuilder.StageResult, t: ApkBuilder.StageResult)
    ensures var ps := Progressions(SetupWrites([], id, d, m, s, t));
      ApkBuilder.NonDecreasing(ps) && |ps| >= 3 && ps[|ps| - 1] == SetupEnd(d, m, s, t).1
  {
    SetupProgress(id, d, m, s, t);
    ApkBuilder.StepsNonDecreasing(Progressions(SetupWrites([], id, d, m, s, t)));
  }

  /** With the builder's own stages, none of which fails, `/setup` always
      completes: the reply is a success and the progress runs 25, 30, 40, 50,
      60, 65. */
  lemma SetupAlwaysCompletes(id: int, t: Tree, a: Analysis, shell: string -> ApkBuilder.Exec, render: Templates.Document -> string)
    ensures var run := SetupStages(t, a, shell, render);
      && SetupReply(run.deps, run.files, run.sdk, run.tools) == SetupDone
      && SetupEnd(run.deps, run.files, run.sdk, run.tools) == (SetupComplete, 65)
      && Progressions(SetupWrites([], id, run.deps, run.files, run.sdk, run.tools)) == [25, 30, 40, 50, 60, 65]
  {
    var run := SetupStages(t, a, shell, render);
    SetupProgress(id, run.deps, run.files, run.sdk, run.tools);
  }

  /** `/setup` logs each error of the file creator as an error line once the
      dependencies step has passed. */
  lemma SetupLogsCreationErrors(id: int, d: ApkBuilder.StageResult, m: ApkBuilder.StageResult,
                                s: ApkBuilder.StageResult, t: ApkBuilder.StageResult, now: int, e: string)
    requires d.success && e in m.errors
    ensures LogLine(id, ErrorLevel, e, now) in SetupLog([], id, d, m, s, t, now)
  {
    EachMeaning(id, ErrorLevel, m.errors, now);
    var l1 := StepLog([LogLine(id, InfoLevel, SetupStartLine, now)], id, Step1Header, d, now);
    assert LogLine(id, ErrorLevel, e, now) in StepLog(l1, id, Step2Header, m, now);
  }

  /** The automatic setup writes only info lines: a stage's errors, such as a
      failed file creation, never reach the log. */
  lemma AutoSetupLogsNoErrors(id: int, run: SetupRun, now: int)
    ensures forall l :: l in AutoSetupLog([], id, run, now) ==> l.level == InfoLevel && l.projectId == id
  {
    EachMeaning(id, InfoLevel, run.deps.logs, now);
    EachMeaning(id, InfoLevel, run.files.logs, now);
    EachMeaning(id, InfoLevel, run.sdk.logs, now);
    EachMeaning(id, InfoLevel, run.tools.logs, now);
  }

  /** The automatic setup's progress runs 25, 30, 40, 50, 60: it stops five
      short of where `/setup` leaves a project. */
  lemma AutoSetupProgress(id: int)
    ensures Progressions(AutoSetupWrites([], id)) == [25, 30, 40, 50, 60]
  {
    var w1 := [Write(id, StatusProgress(Setup, 25))];
    ProgressionsSnoc([], w1[0]);
    var w2 := w1 + [Write(id, ProgressOnly(30))];
    ProgressionsSnoc(w1, Write(id, ProgressOnly(30)));
    var w3 := w2 + [Write(id, ProgressOnly(40))];
    ProgressionsSnoc(w2, Write(id, ProgressOnly(40)));
    var w4 := w3 + [Write(id, ProgressOnly(50))];
    ProgressionsSnoc(w3, Write(id, ProgressOnly(50)));
    ProgressionsSnoc(w4, Write(id, StatusProgress(SetupComplete, 60)));
  }

  /** The progress a client polling a build sees: 60, then the builder's
      reports, which never go down and end at 100, then 100. The first report
      is 10, so the value falls from 60 to 10 as the build starts. */
  lemma BuildProgress(id: int, reports: seq<ApkBuilder.Report>, r: ApkBuilder.BuildResult)
    requires ApkBuilder.EndsBuild(reports)
    ensures var ps := Progressions([Write(id, StatusProgress(Building, 60))] + ProgressWrites(id, reports) + [Write(id, BuildOutcome(r))]);
      && ps == [60] + ApkBuilder.Progresses(reports) + [100]
      && ApkBuilder.NonDecreasing(ApkBuilder.Progresses(reports))
      && ps[0] == 60 && ps[1] == 10 && ps[|ps| - 2] == 100 && ps[|ps| - 1] == 100
  {
    BuildTrace(id, reports, r);
    ApkBuilder.ProgressMonotone(reports);
    ApkBuilder.FirstReport(reports);
    var ps := ApkBuilder.Progresses(reports);
    assert ([60] + ps + [100])[1] == ps[0];
    assert ([60] + ps + [100])[|ps|] == ps[|ps| - 1];
  }

  /** The progress values of a build's writes, in order. */
  lemma BuildTrace(id: int, reports: seq<ApkBuilder.Report>, r: ApkBuilder.BuildResult)
    ensures Progressions([Write(id, StatusProgress(Building, 60))] + ProgressWrites(id, reports) + [Write(id, BuildOutcome(r))])
      == [60] + ApkBuilder.Progresses(reports) + [100]
  {
    var w0 := [Write(id, StatusProgress(Building, 60))];
    ProgressionsSnoc([], w0[0]);
    ProgressionsAppend(w0, ProgressWrites(id, reports));
    ProgressWritesProgressions(id, reports);
    ProgressionsSnoc(w0 + ProgressWrites(id, reports), Write(id, BuildOutcome(r)));
  }

  // ---------------------------------------------------------------- the server

  /** The route handlers over the one store the process keeps. */
  class Server {
    var store: MemStorage
    /** The `updateProject` calls made so far. The store keeps only the latest
        record; this list is what a client polling the project could have
        seen along the way. */
    ghost var updates: seq<Write>

    ghost predicate Valid()
      reads this, store
    {
      store.Valid()
    }

    constructor ()
      ensures Valid() && fresh(store) && updates == []
      ensures store.projects == map[] && store.buildLogs == [] && store.users == map[]
    {
      store := new MemStorage();
      updates := [];
    }

    /** The users and the project keys are as they were. */
    twostate predicate SameKeys()
      reads this, store
    {
      && store == old(store)
      && store.users == old(store.users) && store.userOrder == old(store.userOrder)
      && store.userIdCounter == old(store.userIdCounter)
      && store.projectOrder == old(store.projectOrder) && store.projectIdCounter == old(store.projectIdCounter)
    }

    /** Each log added took the next id. */
    twostate predicate LogsCounted()
      reads this, store
    {
      store.logIdCounter - old(store.logIdCounter) == |store.buildLogs| - |old(store.buildLogs)|
    }

    /** `addBuildLog({projectId, level, message})` */
    method Log(projectId: int, level: Level, message: string, now: int)
      requires Valid()
      modifies store
      ensures Valid() && SameKeys() && LogsCounted()
      ensures Lines(store.buildLogs) == Lines(old(store.buildLogs)) + [LogLine(projectId, level, message, now)]
      ensures store.projects == old(store.projects)
    {
      var l := store.AddBuildLog(projectId, level, message, now);
      LinesSnoc(old(store.buildLogs), l);
    }

    /** `for (const m of messages) addBuildLog({projectId, level, message: m})` */
    method LogEach(projectId: int, level: Level, messages: seq<string>, now: int)
      requires Valid()
      modifies store
      ensures Valid() && SameKeys() && LogsCounted()
      ensures Lines(store.buildLogs) == Lines(old(store.buildLogs)) + Each(projectId, level, messages, now)
      ensures store.projects == old(store.projects)
    {
      var i := 0;
      while i < |messages|
        invariant 0 <= i <= |messages|
        invariant Valid() && SameKeys() && LogsCounted()
        invariant Lines(store.buildLogs) == Lines(old(store.buildLogs)) + Each(projectId, level, messages[..i], now)
        invariant store.projects == old(store.projects)
      {
        Log(projectId, level, messages[i], now);
        assert messages[..i + 1][..i] == messages[..i];
        ApkBuilder.ConcatAssoc(Lines(old(store.buildLogs)), Each(projectId, level, messages[..i], now),
          [LogLine(projectId, level, messages[i], now)]);
        i := i + 1;
      }
      assert messages[..i] == messages;
    }

    /** `updateProject(id, u)`: merges `u` into the record when there is one. */
    method Update(id: int, u: ProjectUpdate, now: int)
      requires Valid()
      modifies this, store
      ensures Valid() && SameKeys()
      ensures id in old(store.projects) ==> store.projects == old(store.projects)[id := Merged(old(store.projects)[id], u, now)]
      ensures id !in old(store.projects) ==> store.projects == old(store.projects)
      ensures updates == old(updates) + [Write(id, u)]
      ensures store.buildLogs == old(store.buildLogs) && store.logIdCounter == old(store.logIdCounter)
    {
      var r := store.UpdateProject(id, u, now);
      updates := updates + [Write(id, u)];
    }

    // ------------------------------------------------------------ upload

    /** `POST /api/projects/upload`. A file that breaks an upload rule is
        turned away before anything is stored; otherwise the project is
        created at `uploaded`/10, the archive saved (`saveFailure` is the
        message of a failed save) and extracted (`extractFailure` likewise),
        and the project left at `extracted`/25, or at `error`/0 when either
        step fails. */
    method Upload(file: Option<UploadedFile>, now: int, formatSize: nat -> string, cwd: string,
                  saveFailure: Option<string>, extractFailure: Option<string>) returns (reply: Reply)
      requires Valid()
      modifies this, store
      ensures Valid() && store == old(store) && LogsCounted()
      ensures store.users == old(store.users) && store.userOrder == old(store.userOrder)
      ensures store.userIdCounter == old(store.userIdCounter)
      ensures file.None? || UploadErrors(file.value) != [] ==>
        && reply == (if file.None? then NoFile else ValidationFailed(UploadErrors(file.value)))
        && store.projects == old(store.projects) && store.buildLogs == old(store.buildLogs)
        && store.projectOrder == old(store.projectOrder) && store.projectIdCounter == old(store.projectIdCounter)
        && updates == old(updates)
      ensures file.Some? && UploadErrors(file.value) == [] ==>
        var f := file.value;
        var id := old(store.projectIdCounter);
        var p := NewRecord(id, NewUpload(f), now);
        var started := Lines(old(store.buildLogs)) + [LogLine(id, InfoLevel, UploadStartedLine(f.originalName, formatSize(f.size)), now)];
        var saved := started + [LogLine(id, InfoLevel, "File saved successfully: " + SavedName(f, now), now)]
          + [LogLine(id, InfoLevel, ExtractingLine, now)];
        && id !in old(store.projects)
        && store.projectOrder == old(store.projectOrder) + [id] && store.projectIdCounter == id + 1
        && (saveFailure.Some? ==>
              && reply == ExtractionFailed(saveFailure.value)
              && Lines(store.buildLogs) == started + [LogLine(id, ErrorLevel, "ZIP extraction failed: " + saveFailure.value, now)]
              && updates == old(updates) + [Write(id, StatusProgress(Error, 0))]
              && store.projects == old(store.projects)[id := p.(status := Error, progress := 0)])
        && (saveFailure.None? && extractFailure.Some? ==>
              && reply == ExtractionFailed(extractFailure.value)
              && Lines(store.buildLogs) == saved + [LogLine(id, ErrorLevel, "ZIP extraction failed: " + extractFailure.value, now)]
              && updates == old(updates) + [Write(id, StatusProgress(Uploaded, 15))] + [Write(id, StatusProgress(Error, 0))]
              && store.projects == old(store.projects)[id := p.(status := Error, progress := 0)])
        && (saveFailure.None? && extractFailure.None? ==>
              && reply == UploadDone(p.(status := Extracted, progress := 25))
              && Lines(store.buildLogs) == saved
                   + [LogLine(id, InfoLevel, "ZIP file extracted successfully to: " + ProjectDirectory(cwd, id), now)]
              && updates == old(updates) + [Write(id, StatusProgress(Uploaded, 15))] + [Write(id, StatusProgress(Extracted, 25))]
              && store.projects == old(store.projects)[id := p.(status := Extracted, progress := 25)])
    {
      if file.None? {
        return NoFile;
      }
      var f := file.value;
      var errors := CheckUpload(f);
      if errors != [] {
        return ValidationFailed(errors);
      }
      ghost var m0 := store.projects;
      var project := store.CreateProject(NewUpload(f), now);
      var id := project.id;
      Log(id, InfoLevel, UploadStartedLine(f.originalName, formatSize(f.size)), now);
      if saveFailure.Some? {
        Log(id, ErrorLevel, "ZIP extraction failed: " + saveFailure.value, now);
        Update(id, StatusProgress(Error, 0), now);
        UpdateTwice(m0, id, project, Merged(project, StatusProgress(Error, 0), now));
        MergedStatusProgress(project, Error, 0, now);
        return ExtractionFailed(saveFailure.value);
      }
      Log(id, InfoLevel, "File saved successfully: " + SavedName(f, now), now);
      Update(id, StatusProgress(Uploaded, 15), now);
      ghost var p1 := Merged(project, StatusProgress(Uploaded, 15), now);
      UpdateTwice(m0, id, project, p1);
      MergedStatusProgress(project, Uploaded, 15, now);
      Log(id, InfoLevel, ExtractingLine, now);
      if extractFailure.Some? {
        Log(id, ErrorLevel, "ZIP extraction failed: " + extractFailure.value, now);
        Update(id, StatusProgress(Error, 0), now);
        UpdateTwice(m0, id, p1, Merged(p1, StatusProgress(Error, 0), now));
        MergedStatusProgress(p1, Error, 0, now);
        return ExtractionFailed(extractFailure.value);
      }
      Log(id, InfoLevel, "ZIP file extracted successfully to: " + ProjectDirectory(cwd, id), now);
      Update(id, StatusProgress(Extracted, 25), now);
      UpdateTwice(m0, id, p1, Merged(p1, StatusProgress(Extracted, 25), now));
      MergedStatusProgress(p1, Extracted, 25, now);
      reply := UploadDone(store.projects[id]);
    }

    /** The analysis an upload schedules three seconds after it succeeds:
        `outcome` is what `analyzeProject` returned, or the message it failed
        with. Only the status, the progress and the analysis are written;
        the framework and the configuration are left to `/analyze`. */
    method AutoAnalyze(id: int, outcome: Result<Analysis>, now: int)
      requires Valid()
      modifies this, store
      ensures Valid() && SameKeys() && LogsCounted()
      ensures outcome.Success? ==>
        && Lines(store.buildLogs) == Lines(old(store.buildLogs)) + [LogLine(id, InfoLevel, AutoAnalysisLine, now)]
             + [LogLine(id, InfoLevel, "Analysis complete. Framework detected: " + outcome.value.framework, now)]
        && updates == old(updates) + [Write(id, NoUpdate.(status := Some(Analyzed), progress := Some(50), analysis := Some(outcome.value)))]
        && (id in old(store.projects) ==> store.projects == old(store.projects)[id :=
              old(store.projects)[id].(status := Analyzed, progress := 50, analysis := Some(outcome.value), updatedAt := now)])
        && (id !in old(store.projects) ==> store.projects == old(store.projects))
      ensures outcome.Failure? ==>
        && Lines(store.buildLogs) == Lines(old(store.buildLogs)) + [LogLine(id, InfoLevel, AutoAnalysisLine, now)]
             + [LogLine(id, ErrorLevel, "Automatic analysis failed: " + outcome.error, now)]
        && updates == old(updates) && store.projects == old(store.projects)
    {
      Log(id, InfoLevel, AutoAnalysisLine, now);
      if outcome.Failure? {
        Log(id, ErrorLevel, "Automatic analysis failed: " + outcome.error, now);
        return;
      }
      var a := outcome.value;
      Update(id, NoUpdate.(status := Some(Analyzed), progress := Some(50), analysis := Some(a)), now);
      Log(id, InfoLevel, "Analysis complete. Framework detected: " + a.framework, now);
    }

    /** `POST /api/projects/:id/analyze`: `outcome` is what `analyzeProject`
        returned, or the message it failed with. The project ends `analyzed`
        at 50 when the structure is valid and `error` at 50 when it is not,
        with the analysis stored either way; a failing analyzer leaves it
        `error` at 0. */
    method Analyze(id: int, outcome: Result<Analysis>, now: int) returns (reply: Reply)
      requires Valid()
      modifies this, store
      ensures Valid() && SameKeys() && LogsCounted()
      ensures id !in old(store.projects) ==>
        reply == NotFound && store.projects == old(store.projects) && store.buildLogs == old(store.buildLogs) && updates == old(updates)
      ensures id in old(store.projects) && outcome.Failure? ==>
        && reply == AnalysisFailed
        && Lines(store.buildLogs) == Lines(old(store.buildLogs)) + [LogLine(id, InfoLevel, AnalysisStartLine, now)]
        && updates == old(updates) + [Write(id, StatusProgress(Analyzing, 10))] + [Write(id, StatusProgress(Error, 0))]
        && store.projects == old(store.projects)[id := old(store.projects)[id].(status := Error, progress := 0, updatedAt := now)]
      ensures id in old(store.projects) && outcome.Success? ==>
        var a := outcome.value;
        && reply == AnalysisDone(a)
        && Lines(store.buildLogs) == Lines(old(store.buildLogs)) + [LogLine(id, InfoLevel, AnalysisStartLine, now)]
             + [LogLine(id, if a.hasValidStructure then InfoLevel else ErrorLevel, "Analysis complete. Framework: " + a.framework, now)]
             + Each(id, ErrorLevel, a.errors, now)
        && updates == old(updates) + [Write(id, StatusProgress(Analyzing, 10))] + [Write(id, AnalysisUpdate(a))]
             + [Write(id, NoUpdate.(analysis := Some(a)))]
        && store.projects == old(store.projects)[id := old(store.projects)[id].(
             framework := Some(a.framework), status := if a.hasValidStructure then Analyzed else Error, progress := 50,
             buildConfig := Some(a.buildConfig), projectStats := Some(a.projectStats), analysis := Some(a), updatedAt := now)]
    {
      if id !in store.projects {
        return NotFound;
      }
      ghost var m0 := store.projects;
      ghost var p1 := Merged(m0[id], StatusProgress(Analyzing, 10), now);
      Update(id, StatusProgress(Analyzing, 10), now);
      Log(id, InfoLevel, AnalysisStartLine, now);
      if outcome.Failure? {
        Update(id, StatusProgress(Error, 0), now);
        UpdateTwice(m0, id, p1, Merged(p1, StatusProgress(Error, 0), now));
        MergedStatusProgress(p1, Error, 0, now);
        return AnalysisFailed;
      }
      var a := outcome.value;
      RecordAnalysis(id, a, now);
      UpdateTwice(m0, id, p1, p1.(framework := Some(a.framework), status := if a.hasValidStructure then Analyzed else Error,
        progress := 50, buildConfig := Some(a.buildConfig), projectStats := Some(a.projectStats), analysis := Some(a)));
      reply := AnalysisDone(a);
    }

    /** The part of `/analyze` after a successful analysis: the results, the
        closing line, one error line per analysis error, then the analysis itself. */
    method RecordAnalysis(id: int, a: Analysis, now: int)
      requires Valid() && id in store.projects
      modifies this, store
      ensures Valid() && SameKeys() && LogsCounted()
      ensures Lines(store.buildLogs) == Lines(old(store.buildLogs))
        + [LogLine(id, if a.hasValidStructure then InfoLevel else ErrorLevel, "Analysis complete. Framework: " + a.framework, now)]
        + Each(id, ErrorLevel, a.errors, now)
      ensures updates == old(updates) + [Write(id, AnalysisUpdate(a))] + [Write(id, NoUpdate.(analysis := Some(a)))]
      ensures store.projects == old(store.projects)[id := old(store.projects)[id].(
        framework := Some(a.framework), status := if a.hasValidStructure then Analyzed else Error, progress := 50,
        buildConfig := Some(a.buildConfig), projectStats := Some(a.projectStats), analysis := Some(a), updatedAt := now)]
    {
      ghost var m0 := store.projects;
      Update(id, AnalysisUpdate(a), now);
      ghost var p2 := Merged(m0[id], AnalysisUpdate(a), now);
      Log(id, if a.hasValidStructure then InfoLevel else ErrorLevel, "Analysis complete. Framework: " + a.framework, now);
      LogEach(id, ErrorLevel, a.errors, now);
      Update(id, NoUpdate.(analysis := Some(a)), now);
      UpdateTwice(m0, id, p2, Merged(p2, NoUpdate.(analysis := Some(a)), now));
    }

    // ------------------------------------------------------------ setup

    /** One step of `/setup`: its heading, its progress, the stage's logs and
        errors, and the error status at that progress when the stage failed. */
    method RunStep(id: int, header: string, progress: int, r: ApkBuilder.StageResult, now: int)
      requires Valid() && id in store.projects
      modifies this, store
      ensures Valid() && SameKeys() && LogsCounted()
      ensures Lines(store.buildLogs) == StepLog(Lines(old(store.buildLogs)), id, header, r, now)
      ensures updates == StepWrites(old(updates), id, progress, r)
      ensures store.projects == old(store.projects)[id := old(store.projects)[id].(
        status := if r.success then old(store.projects)[id].status else Error, progress := progress, updatedAt := now)]
    {
      ghost var m0 := store.projects;
      Log(id, InfoLevel, header, now);
      Update(id, ProgressOnly(progress), now);
      ghost var p1 := Merged(m0[id], ProgressOnly(progress), now);
      MergedProgress(m0[id], progress, now);
      LogEach(id, InfoLevel, r.logs, now);
      LogEach(id, ErrorLevel, r.errors, now);
      if !r.success {
        Update(id, StatusProgress(Error, progress), now);
        UpdateTwice(m0, id, p1, Merged(p1, StatusProgress(Error, progress), now));
        MergedStatusProgress(p1, Error, progress, now);
      }
    }

    /** The body of `/setup` for an analysed project, given the outcome of each
        stage: `setup`/25, then the four steps at 30, 40, 50 and 60, stopping
        at the first stage that fails, then `setup-complete`/65. */
    method RunSetup(id: int, d: ApkBuilder.StageResult, m: ApkBuilder.StageResult,
                    s: ApkBuilder.StageResult, t: ApkBuilder.StageResult, now: int) returns (reply: Reply)
      requires Valid() && id in store.projects
      modifies this, store
      ensures Valid() && SameKeys() && LogsCounted()
      ensures reply == SetupReply(d, m, s, t)
      ensures Lines(store.buildLogs) == SetupLog(Lines(old(store.buildLogs)), id, d, m, s, t, now)
      ensures updates == SetupWrites(old(updates), id, d, m, s, t)
      ensures store.projects == old(store.projects)[id := old(store.projects)[id].(
        status := SetupEnd(d, m, s, t).0, progress := SetupEnd(d, m, s, t).1, updatedAt := now)]
    {
      ghost var m0 := store.projects;
      Update(id, StatusProgress(Setup, 25), now);
      MergedStatusProgress(m0[id], Setup, 25, now);
      ghost var p := m0[id].(status := Setup, progress := 25, updatedAt := now);
      Log(id, InfoLevel, SetupStartLine, now);
      RunStep(id, Step1Header, 30, d, now);
      UpdateTwice(m0, id, p, p.(status := if d.success then Setup else Error, progress := 30));
      if !d.success {
        return StepFailed(1, d.errors);
      }
      RunStep(id, Step2Header, 40, m, now);
      UpdateTwice(m0, id, p.(progress := 30), p.(status := if m.success then Setup else Error, progress := 40));
      if !m.success {
        return StepFailed(2, m.errors);
      }
      RunStep(id, Step3Header, 50, s, now);
      UpdateTwice(m0, id, p.(progress := 40), p.(status := if s.success then Setup else Error, progress := 50));
      if !s.success {
        return StepFailed(3, s.errors);
      }
      RunStep(id, Step4Header, 60, t, now);
      UpdateTwice(m0, id, p.(progress := 50), p.(status := if t.success then Setup else Error, progress := 60));
      if !t.success {
        return StepFailed(4, t.errors);
      }
      Log(id, InfoLevel, SetupDoneLine, now);
      Update(id, StatusProgress(SetupComplete, 65), now);
      UpdateTwice(m0, id, p.(progress := 60), Merged(p.(progress := 60), StatusProgress(SetupComplete, 65), now));
      MergedStatusProgress(p.(progress := 60), SetupComplete, 65, now);
      reply := SetupDone;
    }

    /** `POST /api/projects/:id/setup` on the project directory `t`: a missing
        project or one without an analysis is refused untouched; otherwise the
        stages run on the stored analysis. `u` is the directory afterwards. */
    method SetupProject(id: int, t: Tree, shell: string -> ApkBuilder.Exec, render: Templates.Document -> string, now: int)
      returns (reply: Reply, u: Tree)
      requires Valid()
      modifies this, store
      ensures Valid() && SameKeys() && LogsCounted()
      ensures id !in old(store.projects) || old(store.projects)[id].analysis.None? ==>
        && reply == (if id !in old(store.projects) then NotFound else NotAnalyzed)
        && u == t && store.projects == old(store.projects) && store.buildLogs == old(store.buildLogs) && updates == old(updates)
      ensures id in old(store.projects) && old(store.projects)[id].analysis.Some? ==>
        var run := SetupStages(t, old(store.projects)[id].analysis.value, shell, render);
        && reply == SetupReply(run.deps, run.files, run.sdk, run.tools)
        && Lines(store.buildLogs) == SetupLog(Lines(old(store.buildLogs)), id, run.deps, run.files, run.sdk, run.tools, now)
        && updates == SetupWrites(old(updates), id, run.deps, run.files, run.sdk, run.tools)
        && store.projects == old(store.projects)[id := old(store.projects)[id].(
             status := SetupEnd(run.deps, run.files, run.sdk, run.tools).0,
             progress := SetupEnd(run.deps, run.files, run.sdk, run.tools).1, updatedAt := now)]
        && u == run.tree
    {
      u := t;
      var project := store.GetProject(id);
      if project.None? {
        return NotFound, u;
      }
      if project.value.analysis.None? {
        return NotAnalyzed, u;
      }
      var run := SetupStages(t, project.value.analysis.value, shell, render);
      reply := RunSetup(id, run.deps, run.files, run.sdk, run.tools, now);
      u := run.tree;
    }

    // ------------------------------------------------------------ build

    /** The build's progress callback, once per report:
        `updateProject(id, {progress})`, then the report's message as a log. */
    method Replay(id: int, reports: seq<ApkBuilder.Report>, now: int)
      requires Valid() && id in store.projects
      modifies this, store
      ensures Valid() && SameKeys() && LogsCounted()
      ensures Lines(store.buildLogs) == Lines(old(store.buildLogs)) + ReportLines(id, reports, now)
      ensures updates == old(updates) + ProgressWrites(id, reports)
      ensures reports == [] ==> store.projects == old(store.projects)
      ensures reports != [] ==> store.projects == old(store.projects)[id :=
        old(store.projects)[id].(progress := reports[|reports| - 1].progress, updatedAt := now)]
    {
      ghost var m0 := store.projects;
      var i := 0;
      while i < |reports|
        invariant 0 <= i <= |reports|
        invariant Valid() && SameKeys() && LogsCounted()
        invariant id in store.projects
        invariant Lines(store.buildLogs) == Lines(old(store.buildLogs)) + ReportLines(id, reports[..i], now)
        invariant updates == old(updates) + ProgressWrites(id, reports[..i])
        invariant i == 0 ==> store.projects == m0
        invariant i > 0 ==> store.projects == m0[id := m0[id].(progress := reports[i - 1].progress, updatedAt := now)]
      {
        ghost var before := store.projects;
        Update(id, ProgressOnly(reports[i].progress), now);
        MergedProgress(before[id], reports[i].progress, now);
        if i > 0 {
          UpdateTwice(m0, id, before[id], m0[id].(progress := reports[i].progress, updatedAt := now));
        }
        Log(id, InfoLevel, reports[i].message, now);
        assert reports[..i + 1][..i] == reports[..i];
        ApkBuilder.ConcatAssoc(Lines(old(store.buildLogs)), ReportLines(id, reports[..i], now),
          [LogLine(id, InfoLevel, reports[i].message, now)]);
        ApkBuilder.ConcatAssoc(old(updates), ProgressWrites(id, reports[..i]), [Write(id, ProgressOnly(reports[i].progress))]);
        i := i + 1;
      }
      assert reports[..i] == reports;
    }

    /** What a finished build leaves: the outcome on the record, the closing
        line when `announce` asks for one and the build succeeded, then the
        build's logs and errors. */
    method RecordBuild(id: int, r: ApkBuilder.BuildResult, announce: bool, now: int)
      requires Valid() && id in store.projects
      requires r.success ==> r.apkPath.Some? && r.apkSize.Some?
      modifies this, store
      ensures Valid() && SameKeys() && LogsCounted()
      ensures announce ==>
        Lines(store.buildLogs) == Lines(old(store.buildLogs)) + DoneLine(id, r, now)
          + Each(id, InfoLevel, r.logs, now) + Each(id, ErrorLevel, r.errors, now)
      ensures !announce ==>
        Lines(store.buildLogs) == Lines(old(store.buildLogs)) + Each(id, InfoLevel, r.logs, now) + Each(id, ErrorLevel, r.errors, now)
      ensures updates == old(updates) + [Write(id, BuildOutcome(r))]
      ensures store.projects == old(store.projects)[id := Built(old(store.projects)[id], r, now)]
    {
      ghost var m0 := store.projects;
      Update(id, BuildOutcome(r), now);
      MergedBuildOutcome(m0[id], r, now);
      if announce && r.success {
        Log(id, InfoLevel, AutoBuildDoneLine, now);
      } else if announce {
        assert Lines(store.buildLogs) + DoneLine(id, r, now) == Lines(store.buildLogs);
      }
      LogEach(id, InfoLevel, r.logs, now);
      LogEach(id, ErrorLevel, r.errors, now);
    }

    /** The part of a build after `building`/60: the analysis and the build,
        the callback's writes for each report, then the outcome. */
    method RunBuild(id: int, t: Tree, parse: string -> Result<PackageJson>, host: ApkBuilder.Host,
                    render: Templates.Document -> string, announce: bool, now: int)
      returns (a: Analysis, r: ApkBuilder.BuildResult, reports: seq<ApkBuilder.Report>, u: Tree)
      requires Valid() && id in store.projects
      modifies this, store
      ensures Valid() && SameKeys() && LogsCounted()
      ensures r.success <==> ApkBuilder.Builds(t, a, render)
      ensures r.success ==> r.apkPath == Some(ApkBuilder.ApkPath)
      ensures ApkBuilder.EndsBuild(reports)
      ensures announce ==>
        Lines(store.buildLogs) == Lines(old(store.buildLogs)) + ReportLines(id, reports, now) + DoneLine(id, r, now)
          + Each(id, InfoLevel, r.logs, now) + Each(id, ErrorLevel, r.errors, now)
      ensures !announce ==>
        Lines(store.buildLogs) == Lines(old(store.buildLogs)) + ReportLines(id, reports, now)
          + Each(id, InfoLevel, r.logs, now) + Each(id, ErrorLevel, r.errors, now)
      ensures updates == old(updates) + ProgressWrites(id, reports) + [Write(id, BuildOutcome(r))]
      ensures store.projects == old(store.projects)[id := Built(old(store.projects)[id], r, now)]
    {
      ghost var m0 := store.projects;
      a, r, reports, u := AnalyzeAndBuild(t, parse, host, render);
      Replay(id, reports, now);
      ghost var p := m0[id].(progress := reports[|reports| - 1].progress, updatedAt := now);
      RecordBuild(id, r, announce, now);
      UpdateTwice(m0, id, p, Built(p, r, now));
    }

    /** `POST /api/projects/:id/build` on the project directory `t`: `building`/60,
        a fresh analysis of the directory, the build with its progress reports,
        then the outcome. `analysis`, `reports` and `u` are the analysis, the
        builder's reports and the directory afterwards. */
    method Build(id: int, t: Tree, parse: string -> Result<PackageJson>, host: ApkBuilder.Host,
                 render: Templates.Document -> string, now: int)
      returns (reply: Reply, analysis: Option<Analysis>, reports: seq<ApkBuilder.Report>, u: Tree)
      requires Valid()
      modifies this, store
      ensures Valid() && SameKeys() && LogsCounted()
      ensures id !in old(store.projects) ==>
        reply == NotFound && u == t && reports == []
        && store.projects == old(store.projects) && store.buildLogs == old(store.buildLogs) && updates == old(updates)
      ensures id in old(store.projects) ==>
        && reply.BuildDone?
        && var r := reply.result;
        && analysis.Some? && (r.success <==> ApkBuilder.Builds(t, analysis.value, render))
        && (r.success ==> r.apkPath == Some(ApkBuilder.ApkPath))
        && ApkBuilder.EndsBuild(reports)
        && Lines(store.buildLogs) == Lines(old(store.buildLogs)) + [LogLine(id, InfoLevel, BuildStartLine, now)]
             + ReportLines(id, reports, now) + Each(id, InfoLevel, r.logs, now) + Each(id, ErrorLevel, r.errors, now)
        && updates == old(updates) + [Write(id, StatusProgress(Building, 60))] + ProgressWrites(id, reports)
             + [Write(id, BuildOutcome(r))]
        && store.projects == old(store.projects)[id := Built(old(store.projects)[id], r, now)]
    {
      u := t;
      reports := [];
      analysis := None;
      var project := store.GetProject(id);
      if project.None? {
        return NotFound, analysis, reports, u;
      }
      ghost var m0 := store.projects;
      Update(id, StatusProgress(Building, 60), now);
      MergedStatusProgress(m0[id], Building, 60, now);
      ghost var p1 := m0[id].(status := Building, progress := 60, updatedAt := now);
      Log(id, InfoLevel, BuildStartLine, now);
      var a, r;
      a, r, reports, u := RunBuild(id, t, parse, host, render, false, now);
      analysis := Some(a);
      UpdateTwice(m0, id, p1, Built(p1, r, now));
      reply := BuildDone(r);
    }

    // ------------------------------------------------------------ the automatic pipeline

    /** One step of the automatic setup: its heading, the stage's logs, then `u`. */
    method AutoStep(id: int, header: string, r: ApkBuilder.StageResult, u: ProjectUpdate, now: int)
      requires Valid() && id in store.projects
      modifies this, store
      ensures Valid() && SameKeys() && LogsCounted()
      ensures Lines(store.buildLogs) == AutoStepLog(Lines(old(store.buildLogs)), id, header, r, now)
      ensures updates == old(updates) + [Write(id, u)]
      ensures store.projects == old(store.projects)[id := Merged(old(store.projects)[id], u, now)]
    {
      Log(id, InfoLevel, header, now);
      LogEach(id, InfoLevel, r.logs, now);
      Update(id, u, now);
    }

    /** The setup an automatic analysis schedules: the four stages run without
        stopping and without logging their errors, and the project ends
        `setup-complete` at 60; the build that follows is `AutoBuild`. */
    method AutoSetup(id: int, t: Tree, shell: string -> ApkBuilder.Exec, render: Templates.Document -> string, now: int)
      returns (u: Tree)
      requires Valid()
      modifies this, store
      ensures Valid() && SameKeys() && LogsCounted()
      ensures id !in old(store.projects) || old(store.projects)[id].analysis.None? ==>
        u == t && store.projects == old(store.projects) && store.buildLogs == old(store.buildLogs) && updates == old(updates)
      ensures id in old(store.projects) && old(store.projects)[id].analysis.Some? ==>
        var run := SetupStages(t, old(store.projects)[id].analysis.value, shell, render);
        && Lines(store.buildLogs) == AutoSetupLog(Lines(old(store.buildLogs)), id, run, now)
        && updates == AutoSetupWrites(old(updates), id)
        && store.projects == old(store.projects)[id := old(store.projects)[id].(status := SetupComplete, progress := 60, updatedAt := now)]
        && u == run.tree
    {
      u := t;
      var project := store.GetProject(id);
      if project.None? || project.value.analysis.None? {
        return u;
      }
      var run := SetupStages(t, project.value.analysis.value, shell, render);
      RunAutoSetup(id, run, now);
      u := run.tree;
    }

    /** The writes of the automatic setup for an analysed project, given the
        outcome of each stage. */
    method RunAutoSetup(id: int, run: SetupRun, now: int)
      requires Valid() && id in store.projects
      modifies this, store
      ensures Valid() && SameKeys() && LogsCounted()
      ensures Lines(store.buildLogs) == AutoSetupLog(Lines(old(store.buildLogs)), id, run, now)
      ensures updates == AutoSetupWrites(old(updates), id)
      ensures store.projects == old(store.projects)[id := old(store.projects)[id].(status := SetupComplete, progress := 60, updatedAt := now)]
    {
      ghost var m0 := store.projects;
      Log(id, InfoLevel, AutoSetupLine, now);
      Update(id, StatusProgress(Setup, 25), now);
      MergedStatusProgress(m0[id], Setup, 25, now);
      ghost var p := m0[id].(status := Setup, progress := 25, updatedAt := now);
      AutoStep(id, Step1Header, run.deps, ProgressOnly(30), now);
      MergedProgress(p, 30, now);
      UpdateTwice(m0, id, p, p.(progress := 30));
      AutoStep(id, Step2Header, run.files, ProgressOnly(40), now);
      MergedProgress(p.(progress := 30), 40, now);
      UpdateTwice(m0, id, p.(progress := 30), p.(progress := 40));
      AutoStep(id, Step3Header, run.sdk, ProgressOnly(50), now);
      MergedProgress(p.(progress := 40), 50, now);
      UpdateTwice(m0, id, p.(progress := 40), p.(progress := 50));
      AutoStep(id, Step4Header, run.tools, StatusProgress(SetupComplete, 60), now);
      MergedStatusProgress(p.(progress := 50), SetupComplete, 60, now);
      UpdateTwice(m0, id, p.(progress := 50), p.(status := SetupComplete, progress := 60));
      Log(id, InfoLevel, AutoSetupDoneLine, now);
    }

    /** The build an automatic setup schedules: as `/build`, except that it
        opens with its own line before the `building`/60 write and closes a
        successful build with the download line. */
    method AutoBuild(id: int, t: Tree, parse: string -> Result<PackageJson>, host: ApkBuilder.Host,
                     render: Templates.Document -> string, now: int)
      returns (result: Option<ApkBuilder.BuildResult>, analysis: Option<Analysis>, reports: seq<ApkBuilder.Report>, u: Tree)
      requires Valid()
      modifies this, store
      ensures Valid() && SameKeys() && LogsCounted()
      ensures id !in old(store.projects) ==>
        result.None? && u == t && reports == []
        && store.projects == old(store.projects) && store.buildLogs == old(store.buildLogs) && updates == old(updates)
      ensures id in old(store.projects) ==>
        && result.Some?
        && var r := result.value;
        && analysis.Some? && (r.success <==> ApkBuilder.Builds(t, analysis.value, render))
        && (r.success ==> r.apkPath == Some(ApkBuilder.ApkPath))
        && ApkBuilder.EndsBuild(reports)
        && Lines(store.buildLogs) == Lines(old(store.buildLogs)) + [LogLine(id, InfoLevel, AutoBuildLine, now)]
             + ReportLines(id, reports, now) + DoneLine(id, r, now)
             + Each(id, InfoLevel, r.logs, now) + Each(id, ErrorLevel, r.errors, now)
        && updates == old(updates) + [Write(id, StatusProgress(Building, 60))] + ProgressWrites(id, reports)
             + [Write(id, BuildOutcome(r))]
        && store.projects == old(store.projects)[id := Built(old(store.projects)[id], r, now)]
    {
      u := t;
      reports := [];
      analysis := None;
      var project := store.GetProject(id);
      if project.None? {
        return None, analysis, reports, u;
      }
      ghost var m0 := store.projects;
      Log(id, InfoLevel, AutoBuildLine, now);
      Update(id, StatusProgress(Building, 60), now);
      MergedStatusProgress(m0[id], Building, 60, now);
      ghost var p1 := m0[id].(status := Building, progress := 60, updatedAt := now);
      var a, r;
      a, r, reports, u := RunBuild(id, t, parse, host, render, true, now);
      analysis := Some(a);
      UpdateTwice(m0, id, p1, Built(p1, r, now));
      result := Some(r);
    }

    // ------------------------------------------------------------ delete

    /** `DELETE /api/projects/:id`: the project's logs, then the project; the
        reply is a success whether or not the project existed. */
    method Delete(id: int) returns (reply: Reply)
      requires Valid()
      modifies store
      ensures Valid() && store == old(store) && reply == Deleted
      ensures store.projects == old(store.projects) - {id}
      ensures store.projectOrder == Remove(old(store.projectOrder), id)
      ensures store.buildLogs == WithoutProject(old(store.buildLogs), id)
      ensures store.users == old(store.users) && store.userOrder == old(store.userOrder)
      ensures store.userIdCounter == old(store.userIdCounter) && store.projectIdCounter == old(store.projectIdCounter)
      ensures store.logIdCounter == old(store.logIdCounter)
    {
      store.ClearBuildLogs(id);
      var _ := store.DeleteProject(id);
      reply := Deleted;
    }
  }
}
