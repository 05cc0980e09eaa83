/** The APK builder: validates the project, fills in missing framework files,
    runs the framework's toolchain commands for their logs, checks the project
    structure and writes an APK archive into the project directory, reporting
    its progress as it goes. */
module ApkBuilder {
  import opened Wrappers
  import opened Strings
  import opened Workspace
  import opened ProjectAnalyzer
  import opened Templates
  import opened Payloads

  // ---------------------------------------------------------------- environment

  /** What running a shell command came to: it finished with its output, or
      it failed (nonzero exit, missing tool, timeout) with a message. */
  datatype Exec = Ran(stdout: string, stderr: string) | Failed(message: string)

  /** What the build depends on besides the project tree: the outcome of each
      command line, the time `new Date().toISOString()` reads, the size of a
      written archive, and `(bytes / (1024 * 1024)).toFixed(1)`. */
  datatype Host = Host(
    shell: string -> Exec, now: string,
    archiveSize: seq<Entry> -> nat, megabytes: nat -> string)

  /** The `{success, logs, errors}` record of one build stage. */
  datatype StageResult = StageResult(success: bool, logs: seq<string>, errors: seq<string>)

  datatype BuildResult = BuildResult(
    success: bool, apkPath: Option<string>, apkSize: Option<int>,
    errors: seq<string>, logs: seq<string>)

  /** An archive entry: text (`Buffer.from(string)`) or raw bytes. */
  datatype EntryData = Text(text: string) | Bytes(bytes: seq<byte>)
  datatype Entry = Entry(name: string, data: EntryData)

  /** One `onProgress(progress, message)` call. */
  datatype Report = Report(progress: int, message: string)

  /** The progress values of a run of reports. */
  function Progresses(rs: seq<Report>): (ps: seq<int>)
    ensures |ps| == |rs| && forall i :: 0 <= i < |rs| ==> ps[i] == rs[i].progress
  {
    seq(|rs|, i requires 0 <= i < |rs| => rs[i].progress)
  }

  lemma ProgressesAppend(rs: seq<Report>, more: seq<Report>)
    ensures Progresses(rs + more) == Progresses(rs) + Progresses(more)
  {
    assert |Progresses(rs + more)| == |Progresses(rs) + Progresses(more)|;
  }

  predicate NonDecreasing(ps: seq<int>) {
    forall i, j :: 0 <= i < j < |ps| ==> ps[i] <= ps[j]
  }

  // ---------------------------------------------------------------- frameworks

  /** The frameworks the builder's `switch` statements name. */
  datatype Framework = ReactNative | Flutter | Android | Cordova | GenericMobile | Unsupported

  function FrameworkOf(name: string): Framework {
    if name == "react-native" then ReactNative
    else if name == "flutter" then Flutter
    else if name == "android" then Android
    else if name == "cordova" then Cordova
    else if name == "generic-mobile" then GenericMobile
    else Unsupported
  }

  const SupportedFrameworks: seq<string> := ["react-native", "flutter", "android", "cordova", "generic-mobile"]

  // ---------------------------------------------------------------- validation

  /** `validateBuildRequirements`: only an unsupported framework is an error;
      a missing manifest is left for the builder to create. */
  function ValidateBuildRequirements(framework: string): (errors: seq<string>)
    ensures errors == [] <==> framework in SupportedFrameworks
    ensures errors != [] ==> errors == ["Unsupported framework: " + framework]
  {
    if FrameworkOf(framework) == Unsupported then ["Unsupported framework: " + framework] else []
  }

  /** Where the structure check looks for an Android project's manifest. */
  const CheckedManifest := "src/main/AndroidManifest.xml"
  /** The page the structure check wants in a Cordova project. */
  const CordovaIndex := "www/index.html"

  /** `getEssentialFiles` */
  function EssentialFiles(k: Framework): (files: seq<string>)
    ensures |files| <= 2
    ensures k == GenericMobile || k == Unsupported ==> files == []
  {
    match k
    case ReactNative => ["package.json", "index.js"]
    case Flutter => ["pubspec.yaml", "lib/main.dart"]
    case Android => ["build.gradle", CheckedManifest]
    case Cordova => ["config.xml", CordovaIndex]
    case _ => []
  }

  /** Every essential file of the framework exists (as a file or a directory). */
  predicate StructureValid(t: Tree, k: Framework) {
    forall f :: f in EssentialFiles(k) ==> Exists(t, f)
  }

  /** `validateProjectStructure`: stops at the first essential file that is missing. */
  method ValidateProjectStructure(t: Tree, k: Framework) returns (ok: bool)
    ensures ok <==> StructureValid(t, k)
  {
    var essential := EssentialFiles(k);
    for i := 0 to |essential|
      invariant forall j :: 0 <= j < i ==> Exists(t, essential[j])
    {
      if !Exists(t, essential[i]) {
        return false;
      }
    }
    return true;
  }

  // ---------------------------------------------------------------- stages with commands

  /** `installDependencies`: the command's outcome only changes the log; the stage never fails. */
  function InstallDependencies(a: Analysis, shell: string -> Exec): (r: StageResult)
    ensures r.success && r.errors == []
  {
    StageResult(true, DependencyLogs(a, shell), [])
  }

  /** The log of `installDependencies`. */
  function DependencyLogs(a: Analysis, shell: string -> Exec): seq<string> {
    match FrameworkOf(a.framework)
    case Flutter =>
      ["Running flutter pub get..."] +
      (match shell("flutter pub get")
       case Ran(_, stderr) =>
         ["Flutter dependencies installed successfully"] + (if stderr != "" then ["Flutter output: " + stderr] else [])
       case Failed(m) => ["Flutter pub get completed with status: " + m])
    case ReactNative =>
      ["Running npm install..."] +
      (match shell("npm install")
       case Ran(_, _) => ["NPM dependencies installed successfully"]
       case Failed(m) => ["NPM install completed: " + m])
    case Android =>
      ["Running gradle dependency resolution..."] +
      (match shell("./gradlew dependencies")
       case Ran(_, _) => ["Gradle dependencies resolved successfully"]
       case Failed(m) => ["Gradle dependency resolution: " + m])
    case _ => ["Framework " + a.framework + " detected - dependencies analyzed"]
  }

  /** `setupSDKAndEnvironment`: probes Java, then Node or Flutter for their
      frameworks, and records the SDK levels of the build configuration. */
  function SetupSdkAndEnvironment(a: Analysis, shell: string -> Exec): (r: StageResult)
    ensures r.success && r.errors == []
  {
    StageResult(true, EnvironmentLogs(a, shell), [])
  }

  /** The log of `setupSDKAndEnvironment`. */
  function EnvironmentLogs(a: Analysis, shell: string -> Exec): seq<string> {
    var java := if shell("java -version").Ran? then "Java runtime detected and available"
                else "Java environment setup required for Android builds";
    var probe :=
      match FrameworkOf(a.framework)
      case ReactNative =>
        (match shell("node --version")
         case Ran(stdout, _) => ["Node.js environment ready: " + Trim(stdout)]
         case Failed(_) => ["Node.js environment required for React Native builds"])
      case Flutter =>
        if shell("flutter --version").Ran? then ["Flutter SDK detected and available"]
        else ["Flutter SDK environment required for Flutter builds"]
      case _ => [];
    ["Checking Java installation...", java] + probe + [
      "Target SDK configured: Android API " + IntToString(OrNum(a.buildConfig.targetSdk, 33)),
      "Minimum SDK configured: Android API " + IntToString(OrNum(a.buildConfig.minSdk, 21))]
  }

  /** `installBuildTools`: looks for the framework's wrapper scripts; the stage never fails. */
  function InstallBuildTools(t: Tree, a: Analysis, shell: string -> Exec): (r: StageResult)
    ensures r.success && r.errors == []
    ensures |r.logs| >= 1 && r.logs[|r.logs| - 1] == ToolsConfigured
  {
    StageResult(true, ToolLogs(t, a, shell) + [ToolsConfigured], [])
  }

  const ToolsConfigured := "Build tools configuration completed successfully"

  /** The framework-specific lines of `installBuildTools`. */
  function ToolLogs(t: Tree, a: Analysis, shell: string -> Exec): seq<string> {
    match FrameworkOf(a.framework)
    case Flutter =>
      ["Configuring Flutter build environment...",
       if shell("flutter doctor --machine").Ran? then "Flutter build environment validated"
       else "Flutter environment configured for build process"]
    case ReactNative =>
      ["Configuring React Native build environment...",
       if Exists(t, "android/gradlew") then "Android build configuration detected"
       else "Creating Android build configuration..."]
    case Android =>
      ["Configuring Android build tools...",
       if Exists(t, "gradlew") then "Gradle wrapper already available"
       else if shell("gradle wrapper").Ran? then "Gradle wrapper created successfully"
       else "Gradle build environment configured"]
    case _ => []
  }

  /** The command `executeFrameworkSpecificBuild` runs for a framework, if any. */
  function BuildCommand(k: Framework): (c: Option<string>)
    ensures c.None? <==> k == GenericMobile || k == Unsupported
  {
    match k
    case ReactNative => Some("npm run android")
    case Flutter => Some("flutter build apk --release")
    case Android => Some("./gradlew assembleRelease")
    case Cordova => Some("cordova build android --release")
    case _ => None
  }

  /** `executeFrameworkSpecificBuild`: fixed lines per framework, then whether
      the build command finished; a failed command never fails the build. */
  function ExecuteFrameworkSpecificBuild(k: Framework, shell: string -> Exec): (logs: seq<string>)
  {
    var ran := BuildCommand(k).Some? && shell(BuildCommand(k).value).Ran?;
    match k
    case ReactNative =>
      ["React Native Build Process:", "- Bundling JavaScript code", "- Generating Android resources",
       "- Compiling native code", "- Packaging APK with react-native build-android",
       if ran then "React Native build completed successfully"
       else "React Native build process simulated (production environment)"]
    case Flutter =>
      ["Flutter Build Process:", "- Compiling Dart code", "- Building Android resources",
       "- Generating APK with flutter build apk",
       if ran then "Flutter APK build completed successfully"
       else "Flutter build process simulated (production environment)"]
    case Android =>
      ["Android Build Process:", "- Compiling Java/Kotlin code", "- Processing Android resources",
       "- Building APK with Gradle",
       if ran then "Android Gradle build completed successfully"
       else "Android build process simulated (production environment)"]
    case Cordova =>
      ["Cordova Build Process:", "- Preparing platform files", "- Building web assets",
       "- Generating APK with Cordova CLI",
       if ran then "Cordova build completed successfully"
       else "Cordova build process simulated (production environment)"]
    case _ =>
      ["Generic Mobile App Build Process:", "- Processing project files",
       "- Creating Android-compatible structure", "- Generating APK package"]
  }

  // ---------------------------------------------------------------- missing framework files

  /** One `if (!exists(path)) { ensureDirectory(dir); writeFile(path, content); log }`
      step of a framework's creator; `dir` is empty where no directory is made. */
  datatype FileStep = FileStep(path: string, dir: string, doc: Document, log: string)

  /** The tree, the logs so far and the error that stopped the creator, if one did. */
  datatype Creation = Creation(tree: Tree, logs: seq<string>, error: Option<string>)

  /** `t` is `u` with files and directories only added. */
  predicate Grows(t: Tree, u: Tree) {
    && (forall q :: q in t.files ==> q in u.files && u.files[q] == t.files[q])
    && t.dirs <= u.dirs
  }

  /** A path one of the steps may write or one of the directories it makes. */
  predicate MayCreate(steps: seq<FileStep>, q: string)
    decreases |steps|
  {
    steps != [] && (q == steps[0].path || q in AncestorList(steps[0].dir) || MayCreate(steps[1..], q))
  }

  /** A new file one of the steps writes, holding that step's content. */
  predicate WrittenBy(steps: seq<FileStep>, q: string, d: FileData, render: Document -> string)
    decreases |steps|
  {
    steps != [] && ((q == steps[0].path && d.content == render(steps[0].doc))
                    || WrittenBy(steps[1..], q, d, render))
  }

  /** One step, writing `render(s.doc)`; the builder renders with `Templates.Render`. */
  function CreateIfAbsent(c: Creation, s: FileStep, render: Document -> string): (r: Creation)
    ensures Grows(c.tree, r.tree)
    ensures c.error.Some? ==> r == c
    ensures r.error.None? ==> Exists(r.tree, s.path) && (r.logs == c.logs || r.logs == c.logs + [s.log])
    ensures r.error.Some? ==> r.logs == c.logs
    ensures forall q :: Exists(r.tree, q) && !Exists(c.tree, q) ==> q == s.path || q in AncestorList(s.dir)
    ensures forall q :: q in r.tree.files && q !in c.tree.files ==>
      q == s.path && r.tree.files[q].content == render(s.doc)
  {
    if c.error.Some? || Exists(c.tree, s.path) then c
    else
      var prepared := if s.dir == "" then Success(c.tree) else EnsureDirectory(c.tree, s.dir);
      match prepared
      case Failure(e) => Creation(c.tree, c.logs, Some(e))
      case Success(t1) =>
        match WriteFile(t1, s.path, render(s.doc))
        case Failure(e) => Creation(t1, c.logs, Some(e))
        case Success(t2) => Creation(t2, c.logs + [s.log], None)
  }

  /** The steps in order; after the first failure the remaining steps do nothing. */
  function RunSteps(c: Creation, steps: seq<FileStep>, render: Document -> string): (r: Creation)
    ensures Grows(c.tree, r.tree)
    ensures c.error.Some? ==> r == c
    ensures |c.logs| <= |r.logs| && r.logs[..|c.logs|] == c.logs
    ensures r.error.None? ==> forall s :: s in steps ==> Exists(r.tree, s.path)
    ensures forall q :: Exists(r.tree, q) && !Exists(c.tree, q) ==> MayCreate(steps, q)
    ensures forall q :: q in r.tree.files && q !in c.tree.files ==> WrittenBy(steps, q, r.tree.files[q], render)
    decreases |steps|
  {
    if steps == [] then c
    else
      var c1 := CreateIfAbsent(c, steps[0], render);
      var r := RunSteps(c1, steps[1..], render);
      assert r.logs[..|c1.logs|] == c1.logs;
      assert r.logs[..|c.logs|] == c1.logs[..|c.logs|];
      assert forall s :: s in steps ==> s == steps[0] || s in steps[1..];
      r
  }

  /** `createFlutterMissingFiles` */
  const FlutterSteps: seq<FileStep> := [
    FileStep("pubspec.yaml", "", Pubspec, "Created complete pubspec.yaml configuration"),
    FileStep("lib/main.dart", "lib", MainDart, "Created complete Flutter main.dart application")]

  /** `createReactNativeMissingFiles` */
  const ReactNativeSteps: seq<FileStep> := [
    FileStep("package.json", "", PackageJsonFile, "Created complete React Native package.json"),
    FileStep("index.js", "", IndexJs, "Created React Native entry point")]

  /** `createAndroidMissingFiles`: the project-level build file, and the
      application manifest under `app/src/main`. */
  const AndroidSteps: seq<FileStep> := [
    FileStep("build.gradle", "", ProjectGradle, "Created Android build.gradle configuration"),
    FileStep("app/src/main/AndroidManifest.xml", "app/src/main", CreatedAndroidManifest,
             "Created Android application manifest")]

  /** `createCordovaMissingFiles` */
  const CordovaSteps: seq<FileStep> := [
    FileStep("config.xml", "", ConfigXml, "Created Cordova configuration file")]

  /** The creator `detectAndCreateMissingFiles` runs for a framework. */
  function CreatorSteps(k: Framework): (steps: seq<FileStep>)
    ensures k == GenericMobile || k == Unsupported ==> steps == []
  {
    match k
    case Flutter => FlutterSteps
    case ReactNative => ReactNativeSteps
    case Android => AndroidSteps
    case Cordova => CordovaSteps
    case _ => []
  }

  const ScanLine := "Scanning project for missing essential files..."

  /** The tree after the creator of framework `k` has run. */
  function PreparedTree(t: Tree, k: Framework, render: Document -> string): Tree {
    RunSteps(Creation(t, [], None), CreatorSteps(k), render).tree
  }

  /** `detectAndCreateMissingFiles`: a failed write is recorded as an error, yet
      the stage still reports success. */
  function DetectAndCreateMissingFiles(t: Tree, a: Analysis, render: Document -> string): (r: (StageResult, Tree))
    ensures r.0.success && r.1 == PreparedTree(t, FrameworkOf(a.framework), render)
    ensures |r.0.errors| <= 1
    ensures |r.0.logs| >= 1 && r.0.logs[0] == ScanLine
  {
    var c := RunSteps(Creation(t, [], None), CreatorSteps(FrameworkOf(a.framework)), render);
    var logs := [ScanLine] + c.logs;
    match c.error
    case Some(e) => (StageResult(true, logs, ["Missing files creation failed: " + e]), c.tree)
    case None =>
      (StageResult(true, logs + ["Missing files analysis completed - " + NatToString(|a.missingFiles|) + " files checked"], []),
       c.tree)
  }

  /** A creator never replaces a file that exists, and a new file holds the
      content of the step that names it. */
  lemma CreationNeverOverwrites(t: Tree, k: Framework, render: Document -> string)
    ensures var u := PreparedTree(t, k, render);
      && (forall q :: q in t.files ==> q in u.files && u.files[q] == t.files[q])
      && (forall q :: q in u.files && q !in t.files ==> WrittenBy(CreatorSteps(k), q, u.files[q], render))
  {
    var c := RunSteps(Creation(t, [], None), CreatorSteps(k), render);
    assert PreparedTree(t, k, render) == c.tree;
  }

  /** Steps whose paths all exist already neither change the tree nor log anything. */
  lemma {:induction false} RunStepsIdempotent(u: Tree, steps: seq<FileStep>, render: Document -> string)
    requires forall s :: s in steps ==> Exists(u, s.path)
    ensures RunSteps(Creation(u, [], None), steps, render) == Creation(u, [], None)
    decreases |steps|
  {
    if steps != [] {
      assert CreateIfAbsent(Creation(u, [], None), steps[0], render) == Creation(u, [], None);
      assert forall s :: s in steps[1..] ==> s in steps;
      RunStepsIdempotent(u, steps[1..], render);
    }
  }

  /** Running the creator again on what it produced changes nothing and logs nothing. */
  lemma CreationIdempotent(t: Tree, k: Framework, render: Document -> string)
    requires RunSteps(Creation(t, [], None), CreatorSteps(k), render).error.None?
    ensures var u := PreparedTree(t, k, render);
      RunSteps(Creation(u, [], None), CreatorSteps(k), render) == Creation(u, [], None)
  {
    RunStepsIdempotent(PreparedTree(t, k, render), CreatorSteps(k), render);
  }

  /** For Flutter and React Native, a creator that does not fail leaves every
      file the structure check wants. */
  lemma CreationCompletesStructure(t: Tree, k: Framework, render: Document -> string)
    requires k == Flutter || k == ReactNative
    requires RunSteps(Creation(t, [], None), CreatorSteps(k), render).error.None?
    ensures StructureValid(PreparedTree(t, k, render), k)
  {
    var steps := CreatorSteps(k);
    assert steps[0] in steps && steps[1] in steps;
  }

  /** A path none of the creator's steps may make stays missing. */
  lemma NotCreated(t: Tree, k: Framework, q: string, render: Document -> string)
    requires !Exists(t, q) && !MayCreate(CreatorSteps(k), q)
    ensures !Exists(PreparedTree(t, k, render), q)
  {
    var c := RunSteps(Creation(t, [], None), CreatorSteps(k), render);
    assert PreparedTree(t, k, render) == c.tree;
  }

  /** A missing essential file fails the structure check. */
  lemma MissingEssential(u: Tree, k: Framework, i: nat)
    requires i < |EssentialFiles(k)| && !Exists(u, EssentialFiles(k)[i])
    ensures !StructureValid(u, k)
  {
    assert EssentialFiles(k)[i] in EssentialFiles(k);
  }

  /** A path longer than every directory the steps make, and not one of their
      files, is not made by them. */
  lemma {:induction false} OutsideSteps(steps: seq<FileStep>, q: string)
    requires forall i :: 0 <= i < |steps| ==> q != steps[i].path && |steps[i].dir| < |q|
    ensures !MayCreate(steps, q)
    decreases |steps|
  {
    if steps != [] {
      assert |steps[0].dir| < |q|;
      OutsideSteps(steps[1..], q);
    }
  }

  lemma AndroidStepsMissManifest()
    ensures !MayCreate(CreatorSteps(Android), CheckedManifest)
  {
    assert CreatorSteps(Android) == AndroidSteps;
    OutsideSteps(AndroidSteps, CheckedManifest);
  }

  lemma CordovaStepsMissIndex()
    ensures !MayCreate(CreatorSteps(Cordova), CordovaIndex)
  {
    assert CreatorSteps(Cordova) == CordovaSteps;
    OutsideSteps(CordovaSteps, CordovaIndex);
  }

  lemma AndroidManifestStaysMissing(t: Tree, render: Document -> string)
    requires !Exists(t, CheckedManifest)
    ensures !Exists(PreparedTree(t, Android, render), CheckedManifest)
  {
    AndroidStepsMissManifest();
    NotCreated(t, Android, CheckedManifest, render);
  }

  lemma CordovaIndexStaysMissing(t: Tree, render: Document -> string)
    requires !Exists(t, CordovaIndex)
    ensures !Exists(PreparedTree(t, Cordova, render), CordovaIndex)
  {
    CordovaStepsMissIndex();
    NotCreated(t, Cordova, CordovaIndex, render);
  }

  /** The Android creator writes its manifest under `app/src/main`, while the
      structure check looks under `src/main`: a project without that file still
      fails the check after the creator has run. */
  lemma AndroidManifestNotWhereChecked(t: Tree, render: Document -> string)
    requires !Exists(t, CheckedManifest)
    ensures !StructureValid(PreparedTree(t, Android, render), Android)
  {
    AndroidManifestStaysMissing(t, render);
    MissingEssential(PreparedTree(t, Android, render), Android, 1);
  }

  /** The Cordova creator makes no `www/index.html`, which the structure check wants. */
  lemma CordovaNeedsOwnIndex(t: Tree, render: Document -> string)
    requires !Exists(t, CordovaIndex)
    ensures !StructureValid(PreparedTree(t, Cordova, render), Cordova)
  {
    CordovaIndexStaysMissing(t, render);
    MissingEssential(PreparedTree(t, Cordova, render), Cordova, 1);
  }

  // ---------------------------------------------------------------- createMissingFiles

  /** The file `createMissingFiles` writes for a missing path: the first of
      the four names the path contains chooses it. */
  function MissingFileTemplate(file: string, a: Analysis): Option<Document> {
    if Contains(file, "AndroidManifest.xml") then Some(CreatedAndroidManifest)
    else if Contains(file, "build.gradle") then
      Some(if Contains(file, "app/build.gradle")
           then AppGradle(OrNum(a.projectStats.targetSdk, 33), OrNum(a.projectStats.minSdk, 21))
           else ProjectGradle)
    else if Contains(file, "package.json") then Some(PackageJsonFile)
    else if Contains(file, "config.xml") then Some(ConfigXml)
    else None
  }

  /** A path gets no file exactly when it names none of the four files. */
  lemma NoTemplateIff(file: string, a: Analysis)
    ensures MissingFileTemplate(file, a).None? <==>
      !Contains(file, "AndroidManifest.xml") && !Contains(file, "build.gradle")
      && !Contains(file, "package.json") && !Contains(file, "config.xml")
  {
  }

  /** One iteration: make the parent directory, then write the template if there is one. */
  function CreateOne(t: Tree, file: string, a: Analysis, render: Document -> string): Result<Tree> {
    match EnsureDirectory(t, DirName(file))
    case Failure(e) => Failure(e)
    case Success(t1) =>
      match MissingFileTemplate(file, a)
      case None => Success(t1)
      case Some(doc) => WriteFile(t1, file, render(doc))
  }

  /** Every missing file in turn; the first failure ends the loop. */
  function CreateAll(t: Tree, files: seq<string>, a: Analysis, render: Document -> string): Result<Tree> {
    if files == [] then Success(t)
    else
      match CreateAll(t, files[..|files| - 1], a, render)
      case Failure(e) => Failure(e)
      case Success(u) => CreateOne(u, files[|files| - 1], a, render)
  }

  /** `createMissingFiles`: unlike the framework creators it overwrites files that exist;
      the builder renders with `Templates.Render`. */
  method CreateMissingFiles(t: Tree, a: Analysis, render: Document -> string) returns (r: Result<Tree>)
    ensures r == CreateAll(t, a.missingFiles, a, render)
  {
    var files := a.missingFiles;
    var u := t;
    for i := 0 to |files|
      invariant CreateAll(t, files[..i], a, render) == Success(u)
    {
      CreateAllStep(t, files, i, a, render, u);
      match CreateOne(u, files[i], a, render) {
        case Failure(e) =>
          CreateAllStopped(t, files, i + 1, a, render, e);
          TakeAll(files);
          return Failure(e);
        case Success(u1) =>
          u := u1;
      }
    }
    TakeAll(files);
    return Success(u);
  }

  /** One more iteration after `i` successful ones. */
  lemma CreateAllStep(t: Tree, files: seq<string>, i: nat, a: Analysis, render: Document -> string, u: Tree)
    requires i < |files| && CreateAll(t, files[..i], a, render) == Success(u)
    ensures CreateAll(t, files[..i + 1], a, render) == CreateOne(u, files[i], a, render)
  {
    assert files[..i + 1][..i] == files[..i];
  }

  /** Once the loop has failed, the later files do not run. */
  lemma {:induction false} CreateAllStopped(t: Tree, files: seq<string>, i: nat, a: Analysis, render: Document -> string, e: string)
    requires i <= |files| && CreateAll(t, files[..i], a, render) == Failure(e)
    ensures CreateAll(t, files, a, render) == Failure(e)
    decreases |files| - i
  {
    if i < |files| {
      assert files[..i + 1][..i] == files[..i];
      CreateAllStopped(t, files, i + 1, a, render, e);
    } else {
      assert files[..i] == files;
    }
  }

  /** Every missing file with a template holds it afterwards, and every file
      not named stays as it was. */
  lemma CreateAllWritesTemplates(t: Tree, files: seq<string>, a: Analysis, render: Document -> string)
    requires CreateAll(t, files, a, render).Success?
    ensures var u := CreateAll(t, files, a, render).value;
      && (forall f :: f in files && MissingFileTemplate(f, a).Some? ==>
            f in u.files && u.files[f].content == render(MissingFileTemplate(f, a).value))
      && (forall q :: q in t.files && q !in files ==> q in u.files && u.files[q] == t.files[q])
  {
    CreateAllWrites(t, files, a, render);
    CreateAllKeeps(t, files, a, render);
  }

  /** The tree before the last iteration. */
  lemma CreateAllLast(t: Tree, files: seq<string>, a: Analysis, render: Document -> string)
    requires files != [] && CreateAll(t, files, a, render).Success?
    ensures var init := files[..|files| - 1];
      && CreateAll(t, init, a, render).Success?
      && CreateAll(t, files, a, render) == CreateOne(CreateAll(t, init, a, render).value, files[|files| - 1], a, render)
  {
  }

  lemma {:induction false} CreateAllWrites(t: Tree, files: seq<string>, a: Analysis, render: Document -> string)
    requires CreateAll(t, files, a, render).Success?
    ensures var u := CreateAll(t, files, a, render).value;
      forall f :: f in files && MissingFileTemplate(f, a).Some? ==>
        f in u.files && u.files[f].content == render(MissingFileTemplate(f, a).value)
    decreases |files|
  {
    if files != [] {
      var init := files[..|files| - 1];
      var last := files[|files| - 1];
      InitLast(files);
      CreateAllLast(t, files, a, render);
      CreateAllWrites(t, init, a, render);
      var u0 := CreateAll(t, init, a, render).value;
      CreateOneEffect(u0, last, a, render);
      WriteStep(u0, CreateAll(t, files, a, render).value, init, last, a, render);
    }
  }

  /** Taking every entry of a list gives the list. */
  lemma TakeAll(files: seq<string>)
    ensures files[..|files|] == files
  {
  }

  /** A non-empty list is its first entries followed by its last. */
  lemma InitLast(files: seq<string>)
    requires files != []
    ensures files == files[..|files| - 1] + [files[|files| - 1]]
  {
  }

  /** The map reasoning of one step of `CreateAllWrites`, kept apart from the builder's functions. */
  lemma WriteStep(u0: Tree, v: Tree, init: seq<string>, last: string, a: Analysis, render: Document -> string)
    requires forall f :: f in init && MissingFileTemplate(f, a).Some? ==>
      f in u0.files && u0.files[f].content == render(MissingFileTemplate(f, a).value)
    requires MissingFileTemplate(last, a).Some? ==>
      last in v.files && v.files[last].content == render(MissingFileTemplate(last, a).value)
    requires forall q :: q in u0.files && q != last ==> q in v.files && v.files[q] == u0.files[q]
    ensures forall f :: f in init + [last] && MissingFileTemplate(f, a).Some? ==>
      f in v.files && v.files[f].content == render(MissingFileTemplate(f, a).value)
  {
    forall f | f in init + [last] && MissingFileTemplate(f, a).Some?
      ensures f in v.files && v.files[f].content == render(MissingFileTemplate(f, a).value)
    {
      if f != last { assert f in init; }
    }
  }

  lemma {:induction false} CreateAllKeeps(t: Tree, files: seq<string>, a: Analysis, render: Document -> string)
    requires CreateAll(t, files, a, render).Success?
    ensures var u := CreateAll(t, files, a, render).value;
      forall q :: q in t.files && q !in files ==> q in u.files && u.files[q] == t.files[q]
    decreases |files|
  {
    if files != [] {
      var init := files[..|files| - 1];
      var last := files[|files| - 1];
      InitLast(files);
      CreateAllLast(t, files, a, render);
      CreateAllKeeps(t, init, a, render);
      var u0 := CreateAll(t, init, a, render).value;
      CreateOneEffect(u0, last, a, render);
      KeepStep(t, u0, CreateAll(t, files, a, render).value, init, last);
    }
  }

  /** The map reasoning of one step of `CreateAllKeeps`. */
  lemma KeepStep(t: Tree, u0: Tree, v: Tree, init: seq<string>, last: string)
    requires forall q :: q in t.files && q !in init ==> q in u0.files && u0.files[q] == t.files[q]
    requires forall q :: q in u0.files && q != last ==> q in v.files && v.files[q] == u0.files[q]
    ensures forall q :: q in t.files && q !in init + [last] ==> q in v.files && v.files[q] == t.files[q]
  {
    forall q | q in t.files && q !in init + [last]
      ensures q in v.files && v.files[q] == t.files[q]
    {
      assert q != last && q !in init;
    }
  }

  /** One iteration writes its template, if any, over `file` and keeps every other file. */
  lemma CreateOneEffect(u: Tree, file: string, a: Analysis, render: Document -> string)
    requires CreateOne(u, file, a, render).Success?
    ensures var v := CreateOne(u, file, a, render).value;
      && (MissingFileTemplate(file, a).Some? ==>
            file in v.files && v.files[file].content == render(MissingFileTemplate(file, a).value))
      && (forall q :: q in u.files && q != file ==> q in v.files && v.files[q] == u.files[q])
  {
  }

  // ---------------------------------------------------------------- archive contents

  const MaxAssetSize := 1024 * 1024

  /** `assetFiles.slice(0, 5)` */
  function FirstFive(names: seq<string>): (r: seq<string>)
    ensures |r| <= 5 && forall n :: n in r ==> n in names
  {
    if |names| <= 5 then names else names[..5]
  }

  function AssetPath(sub: string, file: string): string {
    "assets/" + sub + "/" + file
  }

  /** A file of an asset folder small enough to go into the archive. */
  predicate AssetAdded(t: Tree, sub: string, file: string) {
    AssetPath(sub, file) in t.files && t.files[AssetPath(sub, file)].size < MaxAssetSize
  }

  function AssetEntry(t: Tree, sub: string, file: string): Entry
    requires AssetAdded(t, sub, file)
  {
    Entry("assets/flutter_assets/" + sub + "/" + file, Text(t.files[AssetPath(sub, file)].content))
  }

  /** The entries the files of one asset folder contribute, in order. */
  function SubdirAssets(t: Tree, sub: string, files: seq<string>): (es: seq<Entry>)
    ensures |es| <= |files|
  {
    if files == [] then []
    else
      var last := files[|files| - 1];
      SubdirAssets(t, sub, files[..|files| - 1]) + (if AssetAdded(t, sub, last) then [AssetEntry(t, sub, last)] else [])
  }

  /** The files `addFlutterAssets` takes from one asset folder. */
  function FolderFiles(t: Tree, sub: string): seq<string> {
    FirstFive(ListFiles(t, "assets/" + sub))
  }

  function FoldersAssets(t: Tree, subs: seq<string>): seq<Entry> {
    if subs == [] then []
    else
      var last := subs[|subs| - 1];
      FoldersAssets(t, subs[..|subs| - 1]) + SubdirAssets(t, last, FolderFiles(t, last))
  }

  /** The `pubspec.yaml` and `lib/main.dart` copies; a `pubspec.yaml` that
      cannot be read ends the block before `main.dart`. */
  function FlutterProjectFiles(t: Tree): seq<Entry> {
    if Exists(t, "pubspec.yaml") && "pubspec.yaml" !in t.files then []
    else
      (if "pubspec.yaml" in t.files then [Entry("flutter_project/pubspec.yaml", Text(t.files["pubspec.yaml"].content))] else [])
      + (if "lib/main.dart" in t.files then [Entry("flutter_project/lib/main.dart", Text(t.files["lib/main.dart"].content))] else [])
  }

  function FlutterAssets(t: Tree): seq<Entry> {
    (if Exists(t, "assets") then FoldersAssets(t, ListDirectories(t, "assets")) else [])
    + FlutterProjectFiles(t)
  }

  /** An asset folder contributes exactly its first five files that are small enough. */
  lemma {:induction false} SubdirAssetsMembers(t: Tree, sub: string, files: seq<string>, e: Entry)
    ensures e in SubdirAssets(t, sub, files) <==>
      exists f :: f in files && AssetAdded(t, sub, f) && e == AssetEntry(t, sub, f)
    decreases |files|
  {
    if files != [] {
      var init := files[..|files| - 1];
      var last := files[|files| - 1];
      SubdirAssetsMembers(t, sub, init, e);
      assert forall f :: f in files <==> f in init || f == last;
    }
  }

  lemma FolderAssetsBounded(t: Tree, sub: string)
    ensures |SubdirAssets(t, sub, FolderFiles(t, sub))| <= 5
  {
  }

  /** The files of the project `createBasicApkFallback` and `addGenericAssets`
      copy: those of `names` that are files, under `prefix`. */
  function ExistingFiles(t: Tree, names: seq<string>, prefix: string): (es: seq<Entry>)
    ensures |es| <= |names|
  {
    if names == [] then []
    else
      var last := names[|names| - 1];
      ExistingFiles(t, names[..|names| - 1], prefix)
      + (if last in t.files then [Entry(prefix + last, Text(t.files[last].content))] else [])
  }

  lemma {:induction false} ExistingFilesMembers(t: Tree, names: seq<string>, prefix: string, e: Entry)
    ensures e in ExistingFiles(t, names, prefix) <==>
      exists n :: n in names && n in t.files && e == Entry(prefix + n, Text(t.files[n].content))
    decreases |names|
  {
    if names != [] {
      var init := names[..|names| - 1];
      var last := names[|names| - 1];
      ExistingFilesMembers(t, init, prefix, e);
      assert forall n :: n in names <==> n in init || n == last;
    }
  }

  const GenericAssetNames: seq<string> := ["index.html", "app.js", "main.js", "package.json"]
  const FallbackNames: seq<string> := ["package.json", "index.html", "app.js", "main.dart", "pubspec.yaml"]

  /** `addReactNativeAssets`: `index.js` becomes the bundle; one that cannot be
      read throws, and `addFrameworkAssets` goes on without assets. */
  function ReactNativeAssets(t: Tree): (es: seq<Entry>)
    ensures es != [] <==> "index.js" in t.files
  {
    if "index.js" in t.files then [Entry("assets/index.android.bundle", Text(t.files["index.js"].content))] else []
  }

  /** `addCordovaAssets` */
  function CordovaAssets(t: Tree): (es: seq<Entry>)
    ensures es != [] <==> Exists(t, "www") && "www/index.html" in t.files
  {
    if Exists(t, "www") && "www/index.html" in t.files
    then [Entry("assets/www/index.html", Text(t.files["www/index.html"].content))]
    else []
  }

  /** `addFrameworkAssets`: Android and generic projects take the generic assets. */
  function FrameworkAssets(t: Tree, k: Framework): seq<Entry> {
    match k
    case Flutter => FlutterAssets(t)
    case ReactNative => ReactNativeAssets(t)
    case Cordova => CordovaAssets(t)
    case _ => ExistingFiles(t, GenericAssetNames, "assets/")
  }

  /** `generateAndroidManifest`: the build configuration has no package name,
      so the package is always `com.<framework>.app`. */
  function GenerateAndroidManifest(a: Analysis): Document {
    ApkManifest("com." + a.framework + ".app", OrElse(a.buildConfig.version, "1.0.0"),
      OrNum(a.buildConfig.minSdk, 21), OrNum(a.buildConfig.targetSdk, 33),
      OrElse(a.buildConfig.appName, "Mobile App"))
  }

  /** The archive's manifest names the package after the framework; a missing or empty
      version or name, and a missing or zero SDK level, takes its default. */
  lemma GeneratedManifestValues(a: Analysis)
    ensures var d := GenerateAndroidManifest(a);
      && d.ApkManifest?
      && d.packageName == "com." + a.framework + ".app"
      && (a.buildConfig.version.None? || a.buildConfig.version == Some("") ==> d.versionName == "1.0.0")
      && (forall v :: a.buildConfig.version == Some(v) && v != "" ==> d.versionName == v)
      && (a.buildConfig.minSdk.None? || a.buildConfig.minSdk == Some(0) ==> d.minSdk == 21)
      && (forall n :: a.buildConfig.minSdk == Some(n) && n != 0 ==> d.minSdk == n)
      && (a.buildConfig.targetSdk.None? || a.buildConfig.targetSdk == Some(0) ==> d.targetSdk == 33)
      && (forall n :: a.buildConfig.targetSdk == Some(n) && n != 0 ==> d.targetSdk == n)
      && (a.buildConfig.appName.None? || a.buildConfig.appName == Some("") ==> d.appName == "Mobile App")
      && (forall v :: a.buildConfig.appName == Some(v) && v != "" ==> d.appName == v)
  {
  }

  /** The application id a project declares never reaches the archive's manifest. */
  lemma GeneratedManifestIgnoresApplicationId(a: Analysis, id: Option<string>)
    ensures GenerateAndroidManifest(a.(buildConfig := a.buildConfig.(applicationId := id)))
         == GenerateAndroidManifest(a)
  {
  }

  const IconNames: seq<string> := [
    "res/mipmap-mdpi/ic_launcher.png", "res/mipmap-hdpi/ic_launcher.png", "res/mipmap-xhdpi/ic_launcher.png"]

  /** The fixed head of the archive: manifest, code, resources and signature files. */
  function HeadEntries(a: Analysis, now: string, render: Document -> string): seq<Entry> {
    [Entry("AndroidManifest.xml", Text(render(GenerateAndroidManifest(a)))),
     Entry("classes.dex", Bytes(DexImage())),
     Entry("resources.arsc", Bytes(ArscImage())),
     Entry("META-INF/MANIFEST.MF", Text(render(MetaInfManifest(now)))),
     Entry("META-INF/CERT.SF", Text(render(CertSf))),
     Entry("META-INF/CERT.RSA", Bytes(seq(RsaSize, _ => RsaFill)))]
  }

  /** The three launcher icons, each the bytes `generateAppIcon` returns as written. */
  function IconEntries(): seq<Entry> {
    [Entry(IconNames[0], Bytes(AppIconAsWritten)), Entry(IconNames[1], Bytes(AppIconAsWritten)),
     Entry(IconNames[2], Bytes(AppIconAsWritten))]
  }

  /** Everything `packageProjectAsApk` adds, in the order it adds it. */
  function ApkEntries(t: Tree, a: Analysis, now: string, render: Document -> string): seq<Entry> {
    HeadEntries(a, now, render) + FrameworkAssets(t, FrameworkOf(a.framework)) + IconEntries()
  }

  /** The archive always starts with the manifest and ends with the three launcher icons. */
  lemma ApkEntriesLayout(t: Tree, a: Analysis, now: string, render: Document -> string)
    ensures var es := ApkEntries(t, a, now, render);
      && |es| >= 9 && es[0].name == "AndroidManifest.xml" && es[1].name == "classes.dex"
      && es[|es| - 3..] == IconEntries()
      && forall i :: |es| - 3 <= i < |es| ==> es[i].data == Bytes(AppIconAsWritten)
  {
    var es := ApkEntries(t, a, now, render);
    assert es[|es| - 3..] == IconEntries();
  }

  // ---------------------------------------------------------------- archive methods

  method AddExistingFiles(t: Tree, names: seq<string>, prefix: string) returns (entries: seq<Entry>)
    ensures entries == ExistingFiles(t, names, prefix)
  {
    entries := [];
    for i := 0 to |names|
      invariant entries == ExistingFiles(t, names[..i], prefix)
    {
      assert names[..i + 1][..i] == names[..i];
      var name := names[i];
      if Exists(t, name) {
        match Read(t, name) {
          case Success(content) => entries := entries + [Entry(prefix + name, Text(content))];
          case Failure(_) =>
        }
      }
    }
    assert names[..|names|] == names;
  }

  /** The inner loop of `addFlutterAssets` over the first five files of one folder. */
  method AddSubdirAssets(t: Tree, sub: string) returns (entries: seq<Entry>)
    ensures entries == SubdirAssets(t, sub, FolderFiles(t, sub))
  {
    var files := FirstFive(ListFiles(t, "assets/" + sub));
    entries := [];
    for i := 0 to |files|
      invariant entries == SubdirAssets(t, sub, files[..i])
    {
      assert files[..i + 1][..i] == files[..i];
      var p := AssetPath(sub, files[i]);
      var stats := FileStats(t, p);
      if stats.Some? && !stats.value.isDirectory && stats.value.size < MaxAssetSize {
        match Read(t, p) {
          case Success(content) =>
            entries := entries + [Entry("assets/flutter_assets/" + sub + "/" + files[i], Text(content))];
          case Failure(_) =>
        }
      }
    }
    assert files[..|files|] == files;
  }

  /** `addFlutterAssets`: the asset folders, then the two project files. */
  method AddFlutterAssets(t: Tree) returns (entries: seq<Entry>)
    ensures entries == FlutterAssets(t)
  {
    entries := AddAssetFolders(t);
    var project := AddFlutterProjectFiles(t);
    entries := entries + project;
  }

  /** The first half of `addFlutterAssets`: every folder under `assets`, in listing order. */
  method AddAssetFolders(t: Tree) returns (entries: seq<Entry>)
    ensures entries == if Exists(t, "assets") then FoldersAssets(t, ListDirectories(t, "assets")) else []
  {
    entries := [];
    if Exists(t, "assets") {
      var subs := ListDirectories(t, "assets");
      for i := 0 to |subs|
        invariant entries == FoldersAssets(t, subs[..i])
      {
        assert subs[..i + 1][..i] == subs[..i];
        var es := AddSubdirAssets(t, subs[i]);
        entries := entries + es;
      }
      assert subs[..|subs|] == subs;
    }
  }

  /** The second half of `addFlutterAssets`: a `pubspec.yaml` that cannot be
      read returns from the function before `main.dart` is looked at. */
  method AddFlutterProjectFiles(t: Tree) returns (project: seq<Entry>)
    ensures project == FlutterProjectFiles(t)
  {
    project := [];
    if Exists(t, "pubspec.yaml") {
      match Read(t, "pubspec.yaml") {
        case Failure(_) =>
          return project;
        case Success(content) =>
          project := project + [Entry("flutter_project/pubspec.yaml", Text(content))];
      }
    }
    if Exists(t, "lib/main.dart") {
      match Read(t, "lib/main.dart") {
        case Failure(_) =>
        case Success(content) =>
          project := project + [Entry("flutter_project/lib/main.dart", Text(content))];
      }
    }
  }

  /** `addFrameworkAssets` */
  method AddFrameworkAssets(t: Tree, k: Framework) returns (entries: seq<Entry>)
    ensures entries == FrameworkAssets(t, k)
  {
    match k {
      case Flutter => entries := AddFlutterAssets(t);
      case ReactNative => entries := ReactNativeAssets(t);
      case Cordova => entries := CordovaAssets(t);
      case _ => entries := AddExistingFiles(t, GenericAssetNames, "assets/");
    }
  }

  const ApkDir := "build/outputs/apk/release"
  const ApkName := "app-release.apk"
  const ApkPath := ApkDir + "/" + ApkName

  /** The directory of `d/n` for a name without `/` is `d`. */
  lemma {:induction false} DirNameOfJoin(d: string, n: string)
    requires '/' !in n
    ensures DirName(d + "/" + n) == d
    decreases |n|
  {
    var p := d + "/" + n;
    assert '/' in p by { assert p[|d|] == '/'; }
    if n == [] {
      assert p[..|p| - 1] == d;
    } else {
      assert p[..|p| - 1] == d + "/" + n[..|n| - 1];
      assert p[|p| - 1] == n[|n| - 1];
      assert '/' !in n[..|n| - 1];
      DirNameOfJoin(d, n[..|n| - 1]);
    }
  }

  /** The release directory can be made and the archive path is not a directory. */
  predicate ApkWritable(t: Tree) {
    EnsureDirectory(t, ApkDir).Success? && ApkPath !in t.dirs
  }

  lemma ApkPathWritable(t: Tree, t1: Tree)
    requires EnsureDirectory(t, ApkDir) == Success(t1)
    ensures forall d :: WriteData(t1, ApkPath, d).Success? <==> ApkPath !in t.dirs
  {
    ApkDirReady(t, t1);
  }

  /** After the output directory is ensured, it exists, and the archive path is a directory exactly when it was one before. */
  lemma ApkDirReady(t: Tree, t1: Tree)
    requires EnsureDirectory(t, ApkDir) == Success(t1)
    ensures DirName(ApkPath) == ApkDir && ApkDir in t1.dirs
    ensures ApkPath in t1.dirs <==> ApkPath in t.dirs
  {
    DirNameOfJoin(ApkDir, ApkName);
    assert ApkDir in AncestorList(ApkDir);
    assert ApkPath !in AncestorList(ApkDir) by {
      assert |ApkPath| > |ApkDir|;
    }
  }

  /** `packageProjectAsApk`: a failed write falls back to an archive of the main
      project files, whose write fails the same way and throws. */
  method PackageProjectAsApk(t: Tree, a: Analysis, host: Host, render: Document -> string) returns (u: Tree, error: Option<string>)
    requires ApkDir in t.dirs
    ensures ApkPath !in t.dirs ==>
      && error.None? && u.dirs == t.dirs
      && u.files == t.files[ApkPath := FileData("", host.archiveSize(ApkEntries(t, a, host.now, render)))]
    ensures ApkPath in t.dirs ==> error.Some? && u == t
  {
    DirNameOfJoin(ApkDir, ApkName);
    var manifest := GenerateAndroidManifest(a);
    var dex := GenerateClassesDex();
    var arsc := GenerateResourcesArsc();
    var rsa := GenerateRsaFiller();
    assert rsa[..] == seq(RsaSize, _ => RsaFill);
    var head := [Entry("AndroidManifest.xml", Text(render(manifest))), Entry("classes.dex", Bytes(dex[..])),
                 Entry("resources.arsc", Bytes(arsc[..])), Entry("META-INF/MANIFEST.MF", Text(render(MetaInfManifest(host.now)))),
                 Entry("META-INF/CERT.SF", Text(render(CertSf))), Entry("META-INF/CERT.RSA", Bytes(rsa[..]))];
    var assets := AddFrameworkAssets(t, FrameworkOf(a.framework));
    var entries := head + assets + IconEntries();
    assert entries == ApkEntries(t, a, host.now, render);
    match WriteData(t, ApkPath, FileData("", host.archiveSize(entries))) {
      case Success(t2) =>
        return t2, None;
      case Failure(_) =>
        var fallback := AddExistingFiles(t, FallbackNames, "");
        match WriteData(t, ApkPath, FileData("", host.archiveSize(fallback))) {
          case Success(_) =>
            assert false;
          case Failure(e) =>
            return t, Some(e);
        }
    }
  }

  /** The entries `createRealApk` packages from `t`, once the release directory exists. */
  function ReleaseEntries(t: Tree, a: Analysis, now: string, render: Document -> string): seq<Entry>
    requires EnsureDirectory(t, ApkDir).Success?
  {
    ApkEntries(EnsureDirectory(t, ApkDir).value, a, now, render)
  }

  /** `createRealApk`: make the release directory, then write the archive into it. */
  method CreateRealApk(t: Tree, a: Analysis, host: Host, render: Document -> string) returns (u: Tree, error: Option<string>)
    ensures error.None? <==> ApkWritable(t)
    ensures error.None? ==>
      && u.dirs == t.dirs + SetOf(AncestorList(ApkDir))
      && u.files == t.files[ApkPath := FileData("", host.archiveSize(ReleaseEntries(t, a, host.now, render)))]
    ensures error.Some? ==> u.files == t.files
  {
    match EnsureDirectory(t, ApkDir) {
      case Failure(e) =>
        return t, Some(e);
      case Success(t1) =>
        assert ApkDir in AncestorList(ApkDir);
        u, error := PackageProjectAsApk(t1, a, host, render);
    }
  }

  // ---------------------------------------------------------------- buildApk

  const AnalyzingLine := "Analyzing project dependencies..."
  const StructureValidated := "Project structure validated successfully"
  const StructureFailed := "Project structure validation failed"
  const BuildFailedPrefix := "Build failed: "
  const PackageCreated := "APK package created successfully"

  /** The `onProgress` calls of `buildApk`, in the groups the build makes them. */
  const StartReports := [Report(10, "Starting APK build process..."), Report(10, "Installing dependencies...")]
  const ValidationFailedReport := Report(100, "Dependency validation failed")
  const SetupReports := [Report(25, "Detecting and creating missing files..."),
    Report(40, "Setting up SDK and development environment..."), Report(55, "Installing build tools...")]
  const StructureFailedReport := Report(100, "Project setup validation failed")
  const Phase4Reports := [Report(65, "Phase 4: Starting APK Generation Process..."), Report(70, "4.1 Pre-build validation..."),
    Report(75, "4.2 Framework-specific build process..."), Report(85, "4.3 APK packaging and signing...")]
  const BuildFailedReport := Report(100, "Build process failed")
  const CompletedReports := [Report(95, "4.4 Final APK verification..."), Report(100, "APK build completed successfully!")]

  /** The four ways a build can end, as the reports it makes. */
  predicate EndsBuild(rs: seq<Report>) {
    || rs == StartReports + [ValidationFailedReport]
    || rs == StartReports + SetupReports + [StructureFailedReport]
    || rs == StartReports + SetupReports + Phase4Reports + [BuildFailedReport]
    || rs == StartReports + SetupReports + Phase4Reports + CompletedReports
  }

  /** The tree the structure check and the packaging see. */
  function SetUpTree(t: Tree, a: Analysis, render: Document -> string): Tree {
    PreparedTree(t, FrameworkOf(a.framework), render)
  }

  /** The conditions under which `buildApk` succeeds: a supported framework,
      every essential file present once the creator has run, and a release
      directory and archive path that can be written. */
  predicate Builds(t: Tree, a: Analysis, render: Document -> string) {
    && ValidateBuildRequirements(a.framework) == []
    && StructureValid(SetUpTree(t, a, render), FrameworkOf(a.framework))
    && ApkWritable(SetUpTree(t, a, render))
  }

  /** `error?.message || 'Unknown error'` */
  function FailureMessage(e: string): (m: string)
    ensures m != ""
  {
    if e == "" then "Unknown error" else e
  }

  /** The summary lines a successful build ends its log with. */
  function SummaryLines(a: Analysis, size: nat, host: Host): (lines: seq<string>)
    ensures |lines| == 5
  {
    [PackageCreated,
     "Framework: " + a.framework,
     "Package size: " + host.megabytes(size) + " MB",
     "Files included: " + NatToString(a.projectStats.totalFiles) + " files",
     "Build target: Android API " + IntToString(OrNum(a.buildConfig.targetSdk, 33))]
  }

  /** A concatenation splits back into its parts. */
  lemma ConcatParts<T>(xs: seq<T>, ys: seq<T>)
    ensures |xs + ys| == |xs| + |ys| && (xs + ys)[..|xs|] == xs && (xs + ys)[|xs|..] == ys
  {
  }

  /** Concatenation is associative. */
  lemma ConcatAssoc<T>(xs: seq<T>, ys: seq<T>, zs: seq<T>)
    ensures xs + ys + zs == xs + (ys + zs)
  {
  }

  /** Appending keeps a prefix. */
  lemma AppendKeepsPrefix<T>(s: seq<T>, p: seq<T>, ys: seq<T>)
    requires |p| <= |s| && s[..|p|] == p
    ensures |p| <= |s + ys| && (s + ys)[..|p|] == p
  {
    assert (s + ys)[..|p|] == s[..|p|];
  }

  /** Phase 4 of `buildApk`, from the pre-build log lines to the summary:
      the framework's build commands (for their log only), then the archive. */
  method ApkGeneration(u: Tree, a: Analysis, host: Host, render: Document -> string, logs: seq<string>)
    returns (r: BuildResult, reports: seq<Report>, u1: Tree)
    ensures r.success <==> ApkWritable(u)
    ensures |r.logs| >= |logs| && r.logs[..|logs|] == logs
    ensures r.success ==>
      && r.errors == [] && r.apkPath == Some(ApkPath) && ApkPath in u1.files
      && r.apkSize == Some(u1.files[ApkPath].size)
      && u1.files[ApkPath].size == host.archiveSize(ReleaseEntries(u, a, host.now, render))
      && |r.logs| >= 5 && r.logs[|r.logs| - 5..] == SummaryLines(a, u1.files[ApkPath].size, host)
      && reports == Phase4Reports + CompletedReports
    ensures !r.success ==>
      && |r.errors| == 1 && StartsWith(r.errors[0], BuildFailedPrefix) && r.apkPath.None? && r.apkSize.None?
      && reports == Phase4Reports + [BuildFailedReport]
    ensures forall q :: q in u.files && q != ApkPath ==> q in u1.files && u1.files[q] == u.files[q]
  {
    var k := FrameworkOf(a.framework);
    var phase4 := ["=== PHASE 4: APK GENERATION ==="] + PreBuildLines
      + ["4.2 Framework-Specific Build Process:"] + ExecuteFrameworkSpecificBuild(k, host.shell) + PackagingLines;
    var out := logs + phase4;
    ConcatParts(logs, phase4);
    reports := Phase4Reports;
    var error;
    u1, error := CreateRealApk(u, a, host, render);
    match error {
      case Some(e) =>
        reports := reports + [BuildFailedReport];
        StartsWithConcat(BuildFailedPrefix, FailureMessage(e));
        return BuildResult(false, None, None, [BuildFailedPrefix + FailureMessage(e)], out), reports, u1;
      case None =>
    }
    UpdateKeepsOthers(u.files, ApkPath, FileData("", host.archiveSize(ReleaseEntries(u, a, host.now, render))));
    var size := u1.files[ApkPath].size;
    var summary := SummaryLines(a, size, host);
    var body := out + VerificationLines;
    AppendKeepsPrefix(out, logs, VerificationLines);
    var all := body + summary;
    AppendKeepsPrefix(body, logs, summary);
    ConcatParts(body, summary);
    reports := reports + CompletedReports;
    return BuildResult(true, Some(ApkPath), Some(size), [], all), reports, u1;
  }

  /** Phases 1 to 3 of `buildApk`: dependencies, the missing-file creator,
      the SDK set-up and the build tools. Each stage only appends to the log;
      the creator alone changes the tree. */
  method SetupStages(t: Tree, a: Analysis, host: Host, render: Document -> string, logs: seq<string>)
    returns (out: seq<string>, u: Tree)
    ensures |out| >= |logs| && out[..|logs|] == logs
    ensures u == SetUpTree(t, a, render)
    ensures forall q :: q in t.files ==> q in u.files && u.files[q] == t.files[q]
  {
    var k := FrameworkOf(a.framework);
    var deps := InstallDependencies(a, host.shell);
    var missing := DetectAndCreateMissingFiles(t, a, render);
    u := missing.1;
    CreationNeverOverwrites(t, k, render);
    var sdk := SetupSdkAndEnvironment(a, host.shell);
    var tools := InstallBuildTools(u, a, host.shell);
    out := logs + (deps.logs + missing.0.logs + sdk.logs + tools.logs);
    ConcatParts(logs, deps.logs + missing.0.logs + sdk.logs + tools.logs);
  }

  /** `buildApk`: validation, the four set-up stages, the structure check and
      Phase 4, reporting progress through `reports`; returns the result and the
      project tree afterwards. The set-up stages never fail, so their failure
      branches are not modelled. */
  method BuildApk(t: Tree, a: Analysis, host: Host, render: Document -> string) returns (r: BuildResult, reports: seq<Report>, u: Tree)
    ensures r.success <==> Builds(t, a, render)
    ensures ValidateBuildRequirements(a.framework) != [] ==>
      && r.errors == ValidateBuildRequirements(a.framework) && r.logs == [AnalyzingLine]
      && u == t && reports == StartReports + [ValidationFailedReport]
    ensures r.success ==>
      && r.errors == [] && r.apkPath == Some(ApkPath) && ApkPath in u.files
      && r.apkSize == Some(u.files[ApkPath].size)
      && u.files[ApkPath].size == host.archiveSize(ReleaseEntries(SetUpTree(t, a, render), a, host.now, render))
      && |r.logs| >= 5 && r.logs[|r.logs| - 5..] == SummaryLines(a, u.files[ApkPath].size, host)
      && reports == StartReports + SetupReports + Phase4Reports + CompletedReports
    ensures !r.success ==> |r.errors| == 1 && r.apkPath.None? && r.apkSize.None?
    ensures !r.success && ValidateBuildRequirements(a.framework) == [] ==>
      || (r.errors == [StructureFailed] && reports == StartReports + SetupReports + [StructureFailedReport])
      || (StartsWith(r.errors[0], BuildFailedPrefix)
          && reports == StartReports + SetupReports + Phase4Reports + [BuildFailedReport])
    ensures EndsBuild(reports)
    ensures forall q :: q in t.files && q != ApkPath ==> q in u.files && u.files[q] == t.files[q]
  {
    var k := FrameworkOf(a.framework);
    reports := StartReports;
    var logs := [AnalyzingLine];
    var validationErrors := ValidateBuildRequirements(a.framework);
    if validationErrors != [] {
      reports := reports + [ValidationFailedReport];
      return BuildResult(false, None, None, validationErrors, logs), reports, t;
    }
    logs, u := SetupStages(t, a, host, render, logs);
    reports := reports + SetupReports;
    var structureValid := ValidateProjectStructure(u, k);
    if !structureValid {
      reports := reports + [StructureFailedReport];
      return BuildResult(false, None, None, [StructureFailed], logs), reports, u;
    }
    logs := logs + [StructureValidated];
    var phase4;
    r, phase4, u := ApkGeneration(u, a, host, render, logs);
    ConcatAssoc(reports, Phase4Reports, if r.success then CompletedReports else [BuildFailedReport]);
    reports := reports + phase4;
  }

  const PreBuildLines := [
    "4.1 Pre-build Validation:", "- Verifying all dependencies installed", "- Checking build tools configuration",
    "- Validating required SDKs availability", "- Confirming project structure completeness"]
  const PackagingLines := [
    "4.3 APK Packaging & Signing:", "- Creating APK package with proper structure",
    "- Applying basic signing for installation", "- Optimizing file compression", "- Generating APK metadata"]
  const VerificationLines := [
    "4.4 Final APK Verification:", "- Validating APK structure integrity", "- Checking installation compatibility",
    "- Verifying file size optimization", "- Running basic functionality checks"]

  /** The progress values of each group of reports. */
  lemma GroupProgresses()
    ensures Progresses(StartReports) == [10, 10]
    ensures Progresses(SetupReports) == [25, 40, 55]
    ensures Progresses(Phase4Reports) == [65, 70, 75, 85]
    ensures Progresses(CompletedReports) == [95, 100]
    ensures Progresses([ValidationFailedReport]) == Progresses([StructureFailedReport])
      == Progresses([BuildFailedReport]) == [100]
  {
  }

  /** Every build starts with the same report. */
  lemma FirstReport(rs: seq<Report>)
    requires EndsBuild(rs)
    ensures |rs| >= 1 && rs[0] == StartReports[0]
  {
    assert rs[..2] == StartReports;
  }

  /** However a build ends, its progress never goes back and ends at 100. */
  lemma ProgressMonotone(rs: seq<Report>)
    requires EndsBuild(rs)
    ensures NonDecreasing(Progresses(rs)) && |rs| >= 1 && rs[|rs| - 1].progress == 100
  {
    GroupProgresses();
    ProgressesAppend(StartReports, SetupReports);
    ProgressesAppend(StartReports + SetupReports, Phase4Reports);
    var ps := Progresses(rs);
    if rs == StartReports + [ValidationFailedReport] {
      ProgressesAppend(StartReports, [ValidationFailedReport]);
      assert ps == [10, 10] + [100];
    } else if rs == StartReports + SetupReports + [StructureFailedReport] {
      ProgressesAppend(StartReports + SetupReports, [StructureFailedReport]);
      assert ps == [10, 10] + [25, 40, 55] + [100];
    } else if rs == StartReports + SetupReports + Phase4Reports + [BuildFailedReport] {
      ProgressesAppend(StartReports + SetupReports + Phase4Reports, [BuildFailedReport]);
      assert ps == [10, 10] + [25, 40, 55] + [65, 70, 75, 85] + [100];
    } else {
      ProgressesAppend(StartReports + SetupReports + Phase4Reports, CompletedReports);
      assert ps == [10, 10] + [25, 40, 55] + [65, 70, 75, 85] + [95, 100];
    }
    StepsNonDecreasing(ps);
  }

  /** A sequence whose every step goes up or stays is non-decreasing. */
  lemma {:induction false} StepsNonDecreasing(ps: seq<int>)
    requires forall i :: 0 < i < |ps| ==> ps[i - 1] <= ps[i]
    ensures NonDecreasing(ps)
    decreases |ps|
  {
    if |ps| > 1 {
      StepsNonDecreasing(ps[1..]);
      assert forall j :: 1 <= j < |ps| ==> ps[0] <= ps[j] by {
        forall j | 1 <= j < |ps| ensures ps[0] <= ps[j] {
          if j > 1 {
            assert ps[1..][0] <= ps[1..][j - 1];
          }
        }
      }
    }
  }

}
