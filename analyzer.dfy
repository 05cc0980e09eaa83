/** The project analyzer: lists the files of an extracted project, detects its
    framework, counts its files by kind, reads the framework's manifests and
    estimates build time and size. */
module ProjectAnalyzer {
  import opened Wrappers
  import opened Strings
  import opened Workspace
  import opened Manifests

  /** A numeric key as JavaScript holds it: an integer, or the NaN that `parseInt`
      gives for text without digits. */
  datatype Number = NaN | Int(i: int)

  /** The build configuration the analyzer gathers; keys the source leaves unset are `None`. */
  datatype BuildConfig = BuildConfig(
    targetSdk: Option<int>, minSdk: Option<int>, compileSdk: Option<int>,
    buildTools: Option<string>, flutterVersion: Option<string>, dartVersion: Option<string>,
    reactNativeVersion: Option<string>, nodeVersion: Option<string>,
    buildVariants: Option<seq<string>>, applicationId: Option<string>,
    versionCode: Option<Number>, versionName: Option<string>,
    hasBuildGradle: Option<bool>, hasManifest: Option<bool>,
    hasConfigXml: Option<bool>, hasWwwFolder: Option<bool>,
    appName: Option<string>, version: Option<string>)

  const NoConfig := BuildConfig(None, None, None, None, None, None, None, None, None, None,
                                None, None, None, None, None, None, None, None)

  datatype ProjectStats = ProjectStats(
    totalFiles: nat, sourceFiles: nat, testFiles: nat, assetFiles: nat, configFiles: nat,
    dependencies: nat, devDependencies: nat,
    estimatedBuildTime: Option<string>, projectSize: Option<string>,
    targetSdk: Option<int>, minSdk: Option<int>)

  datatype SourceStructure = SourceStructure(
    mainSource: Option<seq<string>>, testSource: Option<seq<string>>,
    assets: Option<seq<string>>, resources: Option<seq<string>>)

  datatype Analysis = Analysis(
    framework: string, frameworkVersion: Option<string>, language: string, projectType: string,
    projectName: Option<string>, packageName: Option<string>, hasValidStructure: bool,
    missingFiles: seq<string>, dependencies: seq<string>, devDependencies: seq<string>,
    buildConfig: BuildConfig, projectStats: ProjectStats, sourceStructure: SourceStructure,
    errors: seq<string>, warnings: seq<string>)

  /** The record `analyzeProject` starts from. */
  const Initial := Analysis("unknown", None, "unknown", "unknown", None, None, false, [], [], [],
    NoConfig, ProjectStats(0, 0, 0, 0, 0, 0, 0, None, None, None, None),
    SourceStructure(None, None, None, None), [], [])

  /** The file counts `analyzeFileTypes` made are left alone by a later step. */
  predicate KeepsCounts(a: Analysis, r: Analysis) {
    && r.projectStats.totalFiles == a.projectStats.totalFiles && r.projectStats.testFiles == a.projectStats.testFiles
    && r.projectStats.assetFiles == a.projectStats.assetFiles && r.projectStats.configFiles == a.projectStats.configFiles
  }

  /** The contents of a `package.json` the analyzer reads: string-valued name,
      version and `engines.node`, and the dependency objects as key/value pairs
      in document order. */
  datatype PackageJson = PackageJson(
    name: Option<string>, version: Option<string>,
    dependencies: Option<seq<(string, string)>>, devDependencies: Option<seq<(string, string)>>,
    engineNode: Option<string>)

  // ---------------------------------------------------------------- JavaScript idioms

  /** `s || d` for an optional string: a missing or empty string gives `d`. */
  function OrElse(s: Option<string>, d: string): (r: string)
    ensures r == d || (s.Some? && r == s.value && r != "")
  {
    if s.Some? && s.value != "" then s.value else d
  }

  /** `n || d` for an optional number: a missing or zero number gives `d`. */
  function OrNum(n: Option<int>, d: int): (r: int)
    ensures r == d || (n.Some? && r == n.value && r != 0)
  {
    if n.Some? && n.value != 0 then n.value else d
  }

  /** `n || d` for an optional JavaScript number: a missing, NaN or zero number gives `d`. */
  function OrNumber(n: Option<Number>, d: int): (r: Number)
    ensures r == Int(d) || (n == Some(r) && r.Int? && r.i != 0)
  {
    if n.Some? && n.value.Int? && n.value.i != 0 then n.value else Int(d)
  }

  /** One key of `{...defaults, ...existing}`: a key present in `existing` wins. */
  function Spread<T>(existing: Option<T>, default: Option<T>): (r: Option<T>)
    ensures existing.Some? ==> r == existing
    ensures existing.None? ==> r == default
  {
    if existing.Some? then existing else default
  }

  /** `{...defaults, ...existing}` over every key of a build configuration. */
  function SpreadConfig(defaults: BuildConfig, e: BuildConfig): BuildConfig {
    BuildConfig(
      Spread(e.targetSdk, defaults.targetSdk), Spread(e.minSdk, defaults.minSdk),
      Spread(e.compileSdk, defaults.compileSdk), Spread(e.buildTools, defaults.buildTools),
      Spread(e.flutterVersion, defaults.flutterVersion), Spread(e.dartVersion, defaults.dartVersion),
      Spread(e.reactNativeVersion, defaults.reactNativeVersion), Spread(e.nodeVersion, defaults.nodeVersion),
      Spread(e.buildVariants, defaults.buildVariants), Spread(e.applicationId, defaults.applicationId),
      Spread(e.versionCode, defaults.versionCode), Spread(e.versionName, defaults.versionName),
      Spread(e.hasBuildGradle, defaults.hasBuildGradle), Spread(e.hasManifest, defaults.hasManifest),
      Spread(e.hasConfigXml, defaults.hasConfigXml), Spread(e.hasWwwFolder, defaults.hasWwwFolder),
      Spread(e.appName, defaults.appName), Spread(e.version, defaults.version))
  }

  /** `files.some(p)` */
  predicate AnyMatches(files: seq<string>, p: string -> bool)
    decreases |files|
  {
    files != [] && (p(files[0]) || AnyMatches(files[1..], p))
  }

  lemma {:induction false} AnyMatchesIffExists(files: seq<string>, p: string -> bool)
    ensures AnyMatches(files, p) <==> exists f :: f in files && p(f)
    decreases |files|
  {
    if files != [] {
      AnyMatchesIffExists(files[1..], p);
      assert forall f :: f in files <==> f == files[0] || f in files[1..];
    }
  }

  /** `files.some(p)` depends only on which paths are present. */
  lemma SameMembersSameMatch(f1: seq<string>, f2: seq<string>, p: string -> bool)
    requires forall f :: f in f1 <==> f in f2
    ensures AnyMatches(f1, p) == AnyMatches(f2, p)
  {
    AnyMatchesIffExists(f1, p);
    AnyMatchesIffExists(f2, p);
  }

  /** `files.find(p)`: the first matching path. */
  function FindFirst(files: seq<string>, p: string -> bool): (r: Option<string>)
    ensures r.None? <==> !AnyMatches(files, p)
    ensures r.Some? ==> r.value in files && p(r.value)
    ensures r.Some? ==> exists k :: 0 <= k < |files| && files[k] == r.value && forall j :: 0 <= j < k ==> !p(files[j])
    decreases |files|
  {
    if files == [] then None
    else if p(files[0]) then Some(files[0])
    else FindFirst(files[1..], p)
  }

  /** `files.filter(p)`: the matching paths, each as often as it is listed
      (`FilterCounts`), in the listing order (`FilterConcat`). */
  function Filter(files: seq<string>, p: string -> bool): (r: seq<string>)
    ensures |r| <= |files|
    ensures forall f :: f in r <==> f in files && p(f)
    decreases |files|
  {
    if files == [] then []
    else
      var rest := Filter(files[1..], p);
      assert forall f :: f in files <==> f == files[0] || f in files[1..];
      if p(files[0]) then [files[0]] + rest else rest
  }

  /** A matching path occurs in the result as often as in the list, any other path not at all. */
  lemma {:induction false} FilterCounts(files: seq<string>, p: string -> bool, f: string)
    ensures multiset(Filter(files, p))[f] == if p(f) then multiset(files)[f] else 0
    decreases |files|
  {
    if files != [] {
      assert files == [files[0]] + files[1..];
      FilterCounts(files[1..], p, f);
    }
  }

  /** Filtering a concatenation filters each part and keeps them in order; with
      `Filter([f], p) == if p(f) then [f] else []` this fixes the order of the result. */
  lemma {:induction false} FilterConcat(a: seq<string>, b: seq<string>, p: string -> bool)
    ensures Filter(a + b, p) == Filter(a, p) + Filter(b, p)
    decreases |a|
  {
    if a == [] {
      assert a + b == b;
    } else {
      assert (a + b)[0] == a[0] && (a + b)[1..] == a[1..] + b;
      FilterConcat(a[1..], b, p);
    }
  }

  /** The test `required.filter` applies: no listed path contains the required one. */
  function MissingTest(files: seq<string>): string -> bool {
    (m: string) => !AnyContains(files, m)
  }

  /** `files.some(f => f.includes(t))` */
  predicate AnyContains(files: seq<string>, t: string) {
    AnyMatches(files, (f: string) => Contains(f, t))
  }

  /** `required.filter(file => !files.some(f => f.includes(file)))`, built from
      the back: the missing required paths in the required list's order. */
  function MissingFrom(required: seq<string>, files: seq<string>): (r: seq<string>)
    ensures |r| <= |required|
    ensures forall m :: m in r <==> m in required && !AnyContains(files, m)
  {
    if required == [] then []
    else
      var init := required[..|required| - 1];
      var last := required[|required| - 1];
      assert forall m :: m in required <==> m in init || m == last;
      MissingFrom(init, files) + (if !AnyContains(files, last) then [last] else [])
  }

  /** The missing paths are `required.filter(...)`, so they keep the required list's
      order and repetitions (`FilterConcat`, `FilterCounts`). */
  lemma {:induction false} MissingFromIsFilter(required: seq<string>, files: seq<string>)
    ensures MissingFrom(required, files) == Filter(required, MissingTest(files))
    decreases |required|
  {
    if required != [] {
      var init := required[..|required| - 1];
      var last := required[|required| - 1];
      assert required == init + [last];
      MissingFromIsFilter(init, files);
      FilterConcat(init, [last], MissingTest(files));
    }
  }

  /** With two required paths, the missing ones come in the listed order. */
  lemma MissingFromPair(x: string, y: string, files: seq<string>)
    ensures MissingFrom([x, y], files) ==
      (if AnyContains(files, x) then [] else [x]) + (if AnyContains(files, y) then [] else [y])
  {
    MissingFromIsFilter([x, y], files);
    assert [x, y] == [x] + [y];
    FilterConcat([x], [y], MissingTest(files));
  }

  // ---------------------------------------------------------------- getAllFiles

  /** `relativePath.split('/').length` */
  function SplitLength(rel: string): nat { 1 + CountChar(rel, '/') }

  /** Nesting depth of a relative directory; the project directory has depth 0. */
  function Depth(rel: string): nat { if rel == "" then 0 else SplitLength(rel) }

  lemma DepthOfChild(rel: string, name: string)
    requires '/' !in name && name != ""
    ensures Depth(JoinPath(rel, name)) == Depth(rel) + 1
  {
    CountCharAbsent(name, '/');
    if rel != "" {
      CountCharAppend(rel + "/", name, '/');
      CountCharAppend(rel, "/", '/');
    }
  }

  /** Directories the listing descends into: not hidden, not `node_modules`. */
  predicate Descends(name: string) {
    !StartsWith(name, ".") && name != "node_modules" && name != ".git"
  }

  /** The listed path of a file `name` in directory `rel`, with `\` turned into `/`. */
  function ListedPath(rel: string, name: string): string {
    BackslashesToSlashes(JoinPath(rel, name))
  }

  function ListedPaths(rel: string, names: seq<string>): (r: seq<string>)
    ensures |r| == |names|
    ensures forall k :: 0 <= k < |names| ==> r[k] == ListedPath(rel, names[k])
  {
    if names == [] then [] else ListedPaths(rel, names[..|names| - 1]) + [ListedPath(rel, names[|names| - 1])]
  }

  /** `getAllFiles(rel)`: the files of `rel` in listing order, then, while
      `rel` has fewer than ten components, the files of each subdirectory it
      descends into, in listing order. A missing directory lists nothing. */
  function AllFiles(t: Tree, rel: string): seq<string>
    requires Depth(rel) <= 10
    decreases 10 - Depth(rel), 1
  {
    ListedPaths(rel, ListFiles(t, rel))
      + (if SplitLength(rel) < 10 then SubdirFiles(t, rel, ListDirectories(t, rel)) else [])
  }

  function SubdirFiles(t: Tree, rel: string, names: seq<string>): seq<string>
    requires Depth(rel) <= 10 && SplitLength(rel) < 10
    requires EntryNames(names)
    decreases 10 - Depth(rel), 0, |names|
  {
    if names == [] then []
    else
      var last := names[|names| - 1];
      EntryNamesInit(names);
      SubdirFiles(t, rel, names[..|names| - 1])
        + (if Descends(last) then DepthOfChild(rel, last); AllFiles(t, JoinPath(rel, last)) else [])
  }

  method GetAllFiles(t: Tree, rel: string) returns (files: seq<string>)
    requires Depth(rel) <= 10
    ensures files == AllFiles(t, rel)
    decreases 10 - Depth(rel), 1
  {
    files := [];
    var fileEntries := ListFiles(t, rel);
    var dirEntries := ListDirectories(t, rel);
    for i := 0 to |fileEntries|
      invariant files == ListedPaths(rel, fileEntries[..i])
    {
      assert fileEntries[..i + 1][..i] == fileEntries[..i];
      files := files + [ListedPath(rel, fileEntries[i])];
    }
    assert fileEntries[..|fileEntries|] == fileEntries;
    if SplitLength(rel) < 10 {
      var below := GetSubdirFiles(t, rel, dirEntries);
      files := files + below;
    }
  }

  /** The recursive calls of `getAllFiles(rel)`, one per subdirectory it descends into. */
  method GetSubdirFiles(t: Tree, rel: string, dirs: seq<string>) returns (below: seq<string>)
    requires Depth(rel) <= 10 && SplitLength(rel) < 10 && EntryNames(dirs)
    ensures below == SubdirFiles(t, rel, dirs)
    decreases 10 - Depth(rel), 0
  {
    below := [];
    EntryNamesPrefix(dirs, 0);
    for i := 0 to |dirs|
      invariant EntryNames(dirs[..i]) && below == SubdirFiles(t, rel, dirs[..i])
    {
      SubdirFilesStep(t, rel, dirs, i);
      var dir := dirs[i];
      if Descends(dir) {
        DepthOfChild(rel, dir);
        var subFiles := GetAllFiles(t, JoinPath(rel, dir));
        below := below + subFiles;
      }
    }
    assert dirs[..|dirs|] == dirs;
  }

  lemma SubdirFilesStep(t: Tree, rel: string, dirs: seq<string>, i: nat)
    requires EntryNames(dirs) && i < |dirs|
    ensures EntryNames(dirs[..i]) && '/' !in dirs[i] && dirs[i] != ""
    ensures EntryNames(dirs[..i + 1]) && dirs[..i + 1][..i] == dirs[..i]
  {
    assert dirs[i] in dirs;
    EntryNamesPrefix(dirs, i);
    EntryNamesPrefix(dirs, i + 1);
    assert dirs[..i + 1][..i] == dirs[..i];
  }

  lemma EntryNamesPrefix(names: seq<string>, i: nat)
    requires EntryNames(names) && i <= |names|
    ensures EntryNames(names[..i])
  {
    forall n | n in names[..i] ensures '/' !in n && n != "" {
      var k :| 0 <= k < i && names[..i][k] == n;
      assert names[k] in names;
    }
  }

  /** Every listed path names a file listed in a directory at most ten deep. */
  lemma {:induction false} AllFilesAreListedFiles(t: Tree, rel: string)
    requires Depth(rel) <= 10
    ensures forall f :: f in AllFiles(t, rel) ==>
      exists d, n :: Depth(d) <= 10 && n in ListFiles(t, d) && f == ListedPath(d, n)
    decreases 10 - Depth(rel), 1
  {
    if SplitLength(rel) < 10 {
      SubdirFilesAreListedFiles(t, rel, ListDirectories(t, rel));
    }
    forall f | f in ListedPaths(rel, ListFiles(t, rel))
      ensures exists d, n :: Depth(d) <= 10 && n in ListFiles(t, d) && f == ListedPath(d, n)
    {
      var k :| 0 <= k < |ListFiles(t, rel)| && f == ListedPaths(rel, ListFiles(t, rel))[k];
      assert f == ListedPath(rel, ListFiles(t, rel)[k]);
    }
  }

  lemma {:induction false} SubdirFilesAreListedFiles(t: Tree, rel: string, names: seq<string>)
    requires Depth(rel) <= 10 && SplitLength(rel) < 10
    requires EntryNames(names)
    ensures forall f :: f in SubdirFiles(t, rel, names) ==>
      exists d, n :: Depth(d) <= 10 && n in ListFiles(t, d) && f == ListedPath(d, n)
    decreases 10 - Depth(rel), 0, |names|
  {
    if names != [] {
      var last := names[|names| - 1];
      EntryNamesInit(names);
      SubdirFilesAreListedFiles(t, rel, names[..|names| - 1]);
      if Descends(last) {
        DepthOfChild(rel, last);
        AllFilesAreListedFiles(t, JoinPath(rel, last));
      }
    }
  }

  // ---------------------------------------------------------------- detectFramework

  datatype Detection = Detection(framework: string, language: string, projectType: string)

  predicate HasPackageJson(f: string) { Contains(f, "package.json") }
  predicate HasReactNativeMarker(f: string) { Contains(f, "react-native") || Contains(f, "metro.config") }
  predicate HasPubspec(f: string) { Contains(f, "pubspec.yaml") }
  predicate HasAndroidMarker(f: string) { Contains(f, "build.gradle") || Contains(f, "AndroidManifest.xml") }
  predicate IsKotlin(f: string) { EndsWith(f, ".kt") }
  predicate IsJava(f: string) { EndsWith(f, ".java") }
  predicate HasCordovaMarker(f: string) { Contains(f, "config.xml") && Contains(f, "www") }

  /** `detectFramework`: the first rule that applies, in the order React Native
      (a package.json plus a React Native marker), Flutter, Android, Cordova. */
  function DetectFramework(files: seq<string>): (d: Detection)
    ensures d.framework in {"react-native", "flutter", "android", "cordova", "unknown"}
    ensures d.framework == "unknown" <==> d.language == "unknown" && d.projectType == "unknown"
  {
    if AnyMatches(files, HasPackageJson) && AnyMatches(files, HasReactNativeMarker) then
      Detection("react-native", "javascript", "hybrid")
    else if AnyMatches(files, HasPubspec) then Detection("flutter", "dart", "hybrid")
    else if AnyMatches(files, HasAndroidMarker) then
      var language := if AnyMatches(files, IsKotlin) then "kotlin"
                      else if AnyMatches(files, IsJava) then "java" else "unknown";
      Detection("android", language, "native")
    else if AnyMatches(files, HasCordovaMarker) then Detection("cordova", "javascript", "hybrid")
    else Detection("unknown", "unknown", "unknown")
  }

  /** Detection looks only at which paths are present, not at their order or repetition. */
  lemma DetectionIgnoresOrder(f1: seq<string>, f2: seq<string>)
    requires forall f :: f in f1 <==> f in f2
    ensures DetectFramework(f1) == DetectFramework(f2)
  {
    SameMembersSameMatch(f1, f2, HasPackageJson);
    SameMembersSameMatch(f1, f2, HasReactNativeMarker);
    SameMembersSameMatch(f1, f2, HasPubspec);
    SameMembersSameMatch(f1, f2, HasAndroidMarker);
    SameMembersSameMatch(f1, f2, IsKotlin);
    SameMembersSameMatch(f1, f2, IsJava);
    SameMembersSameMatch(f1, f2, HasCordovaMarker);
  }

  /** The first-match rules over the paths present: React Native needs one path
      with `package.json` and one with a React Native marker; then Flutter, Android
      and Cordova in that order, each only when the earlier ones fail; Cordova needs
      a single path holding both `config.xml` and `www`. An Android project is
      Kotlin when some path ends in `.kt`, else Java when some path ends in `.java`. */
  lemma DetectFrameworkRules(files: seq<string>)
    ensures var d := DetectFramework(files);
      var rn := (exists f :: f in files && HasPackageJson(f)) && (exists f :: f in files && HasReactNativeMarker(f));
      var fl := exists f :: f in files && HasPubspec(f);
      var an := exists f :: f in files && HasAndroidMarker(f);
      var co := exists f :: f in files && HasCordovaMarker(f);
      && (d.framework == "react-native" <==> rn)
      && (d.framework == "flutter" <==> !rn && fl)
      && (d.framework == "android" <==> !rn && !fl && an)
      && (d.framework == "cordova" <==> !rn && !fl && !an && co)
      && (d.framework == "android" ==>
            && (d.language == "kotlin" <==> exists f :: f in files && IsKotlin(f))
            && (d.language == "java" <==> (exists f :: f in files && IsJava(f)) && !exists f :: f in files && IsKotlin(f)))
  {
    AnyMatchesIffExists(files, HasPackageJson);
    AnyMatchesIffExists(files, HasReactNativeMarker);
    AnyMatchesIffExists(files, HasPubspec);
    AnyMatchesIffExists(files, HasAndroidMarker);
    AnyMatchesIffExists(files, HasCordovaMarker);
    AnyMatchesIffExists(files, IsKotlin);
    AnyMatchesIffExists(files, IsJava);
  }

  // ---------------------------------------------------------------- analyzeFileTypes

  datatype Kind = TestFile | SourceFile | AssetFile | ConfigFile | OtherFile

  const TestExtensions := [".test.js", ".test.ts", ".spec.js", ".spec.ts", "_test.dart"]
  const SourceExtensions := [".js", ".jsx", ".ts", ".tsx", ".dart", ".java", ".kt", ".swift", ".m", ".h"]
  const AssetExtensions := [".png", ".jpg", ".jpeg", ".gif", ".svg", ".webp", ".ico", ".ttf", ".otf", ".woff", ".woff2"]
  const ConfigExtensions := [".json", ".yaml", ".yml", ".xml", ".gradle", ".properties", ".plist"]

  predicate ContainsAny(s: string, ts: seq<string>) { exists k :: 0 <= k < |ts| && Contains(s, ts[k]) }
  predicate EndsWithAny(s: string, ts: seq<string>) { exists k :: 0 <= k < |ts| && EndsWith(s, ts[k]) }

  /** The kind of a path, as its lower-cased form shows: a test marker anywhere
      first, then a source, asset or configuration extension at the end. */
  function KindOf(file: string): Kind {
    var lower := ToLower(file);
    if ContainsAny(lower, TestExtensions) then TestFile
    else if EndsWithAny(lower, SourceExtensions) then SourceFile
    else if EndsWithAny(lower, AssetExtensions) then AssetFile
    else if EndsWithAny(lower, ConfigExtensions) then ConfigFile
    else OtherFile
  }

  function CountKind(files: seq<string>, k: Kind): (n: nat)
    ensures n <= |files|
  {
    if files == [] then 0
    else CountKind(files[..|files| - 1], k) + (if KindOf(files[|files| - 1]) == k then 1 else 0)
  }

  /** Each path is counted at most once: the four counts never exceed the number of paths. */
  lemma {:induction false} KindCountsBounded(files: seq<string>)
    ensures CountKind(files, TestFile) + CountKind(files, SourceFile)
      + CountKind(files, AssetFile) + CountKind(files, ConfigFile) <= |files|
  {
    if files != [] {
      KindCountsBounded(files[..|files| - 1]);
    }
  }

  /** `analyzeFileTypes`: adds to the test, source, asset and configuration counts. */
  method AnalyzeFileTypes(files: seq<string>, a: Analysis) returns (r: Analysis)
    ensures r == a.(projectStats := a.projectStats.(
      testFiles := a.projectStats.testFiles + CountKind(files, TestFile),
      sourceFiles := a.projectStats.sourceFiles + CountKind(files, SourceFile),
      assetFiles := a.projectStats.assetFiles + CountKind(files, AssetFile),
      configFiles := a.projectStats.configFiles + CountKind(files, ConfigFile)))
  {
    var stats := a.projectStats;
    for i := 0 to |files|
      invariant stats == a.projectStats.(
        testFiles := a.projectStats.testFiles + CountKind(files[..i], TestFile),
        sourceFiles := a.projectStats.sourceFiles + CountKind(files[..i], SourceFile),
        assetFiles := a.projectStats.assetFiles + CountKind(files[..i], AssetFile),
        configFiles := a.projectStats.configFiles + CountKind(files[..i], ConfigFile))
    {
      assert files[..i + 1][..i] == files[..i];
      var lowerFile := ToLower(files[i]);
      if ContainsAny(lowerFile, TestExtensions) {
        stats := stats.(testFiles := stats.testFiles + 1);
      } else if EndsWithAny(lowerFile, SourceExtensions) {
        stats := stats.(sourceFiles := stats.sourceFiles + 1);
      } else if EndsWithAny(lowerFile, AssetExtensions) {
        stats := stats.(assetFiles := stats.assetFiles + 1);
      } else if EndsWithAny(lowerFile, ConfigExtensions) {
        stats := stats.(configFiles := stats.configFiles + 1);
      }
    }
    assert files[..|files|] == files;
    r := a.(projectStats := stats);
  }

  // ---------------------------------------------------------------- calculateProjectMetrics

  /** Estimated build minutes: 2, plus 2 above 100 source files and 3 more above
      500, plus 2 above 50 dependencies, plus 1 for Flutter or 2 for React Native. */
  function EstimatedMinutes(sourceFiles: nat, dependencies: nat, framework: string): (m: nat)
    ensures 2 <= m <= 11
  {
    2 + (if sourceFiles > 100 then 2 else 0) + (if sourceFiles > 500 then 3 else 0)
      + (if dependencies > 50 then 2 else 0)
      + (if framework == "flutter" then 1 else 0) + (if framework == "react-native" then 2 else 0)
  }

  /** More source files or dependencies never lower the estimate. */
  lemma EstimateMonotone(s1: nat, s2: nat, d1: nat, d2: nat, fw: string)
    requires s1 <= s2 && d1 <= d2
    ensures EstimatedMinutes(s1, d1, fw) <= EstimatedMinutes(s2, d2, fw)
  {
  }

  /** `${m}-${m + 2} minutes` */
  function BuildTimeText(m: nat): string {
    NatToString(m) + "-" + NatToString(m + 2) + " minutes"
  }

  function SizeClass(totalFiles: nat): (s: string)
    ensures s in {"Small", "Medium", "Large"}
    ensures s == "Small" <==> totalFiles < 50
    ensures s == "Large" <==> totalFiles >= 200
  {
    if totalFiles < 50 then "Small" else if totalFiles < 200 then "Medium" else "Large"
  }

  method CalculateProjectMetrics(a: Analysis) returns (r: Analysis)
    ensures r == a.(projectStats := a.projectStats.(
      estimatedBuildTime := Some(BuildTimeText(EstimatedMinutes(a.projectStats.sourceFiles, |a.dependencies|, a.framework))),
      projectSize := Some(SizeClass(a.projectStats.totalFiles))))
  {
    var totalFiles := a.projectStats.totalFiles;
    var sourceFiles := a.projectStats.sourceFiles;
    var estimatedMinutes := 2;
    if sourceFiles > 100 { estimatedMinutes := estimatedMinutes + 2; }
    if sourceFiles > 500 { estimatedMinutes := estimatedMinutes + 3; }
    if |a.dependencies| > 50 { estimatedMinutes := estimatedMinutes + 2; }
    if a.framework == "flutter" { estimatedMinutes := estimatedMinutes + 1; }
    if a.framework == "react-native" { estimatedMinutes := estimatedMinutes + 2; }
    var stats := a.projectStats.(estimatedBuildTime := Some(BuildTimeText(estimatedMinutes)));
    if totalFiles < 50 {
      stats := stats.(projectSize := Some("Small"));
    } else if totalFiles < 200 {
      stats := stats.(projectSize := Some("Medium"));
    } else {
      stats := stats.(projectSize := Some("Large"));
    }
    r := a.(projectStats := stats);
  }

  // ---------------------------------------------------------------- React Native

  const MissingPackageJsonError := "Missing package.json file - required for React Native projects"
  const MissingEntryPoint := "App.js or App.tsx (main component)"
  const AndroidFilesWarning := "Android platform files missing - APK build may require additional setup"
  const IosFilesWarning := "iOS platform files missing - iOS build not supported"
  const ReactNativeEntryFiles := ["package.json", "App.js", "App.tsx", "index.js"]
  const ReactNativeAndroidFiles := ["android/app/build.gradle", "android/build.gradle"]
  // The source lists `ios/` + `*.xcodeproj` and looks for it with the `*` removed.
  const ReactNativeIosFiles := ["ios/Podfile", "ios/.xcodeproj"]

  /** Some entry of `required` is contained in some path. */
  predicate SomePresent(required: seq<string>, files: seq<string>) {
    exists k :: 0 <= k < |required| && AnyContains(files, required[k])
  }

  predicate IsPackageJsonFile(f: string) { Contains(f, "package.json") && !Contains(f, "node_modules") }
  predicate IsReactNativeGradle(f: string) { Contains(f, "android/app/build.gradle") }

  /** Reading a file and handing its text to the JSON parser; either step may fail. */
  function LoadPackageJson(t: Tree, path: string, parse: string -> Result<PackageJson>): (r: Result<PackageJson>)
    ensures path !in t.files ==> r.Failure?
  {
    match Read(t, path)
    case Failure(e) => Failure(e)
    case Success(content) => parse(content)
  }

  /** `Object.keys(o || {})` */
  function Keys(o: Option<seq<(string, string)>>): (ks: seq<string>)
    ensures o.None? ==> ks == []
    ensures o.Some? ==> |ks| == |o.value| && forall k :: 0 <= k < |ks| ==> ks[k] == o.value[k].0
  {
    if o.None? then [] else KeysOf(o.value)
  }

  function KeysOf(ps: seq<(string, string)>): (ks: seq<string>)
    ensures |ks| == |ps| && forall k :: 0 <= k < |ks| ==> ks[k] == ps[k].0
  {
    if ps == [] then [] else KeysOf(ps[..|ps| - 1]) + [ps[|ps| - 1].0]
  }

  /** `o && o[key]`: `JSON.parse` keeps the last of duplicate keys, so the value
      is that of the last pair with the key. */
  function Lookup(o: Option<seq<(string, string)>>, key: string): (v: Option<string>)
    ensures v.Some? ==> o.Some? && (key, v.value) in o.value
  {
    if o.None? then None else LookupIn(o.value, key)
  }

  function LookupIn(ps: seq<(string, string)>, key: string): (v: Option<string>)
    ensures v.Some? ==> (key, v.value) in ps
  {
    if ps == [] then None
    else if ps[|ps| - 1].0 == key then Some(ps[|ps| - 1].1)
    else LookupIn(ps[..|ps| - 1], key)
  }

  /** A key is found iff some pair has it. */
  lemma {:induction false} LookupInFinds(ps: seq<(string, string)>, key: string)
    ensures LookupIn(ps, key).None? <==> forall k :: 0 <= k < |ps| ==> ps[k].0 != key
  {
    if ps != [] && ps[|ps| - 1].0 != key {
      var init := ps[..|ps| - 1];
      LookupInFinds(init, key);
      assert forall k :: 0 <= k < |init| ==> init[k] == ps[k];
    }
  }

  /** The value found is that of the last pair with the key. */
  lemma {:induction false} LookupInIsLast(ps: seq<(string, string)>, key: string)
    requires LookupIn(ps, key).Some?
    ensures exists k :: 0 <= k < |ps| && ps[k] == (key, LookupIn(ps, key).value)
                        && forall j :: k < j < |ps| ==> ps[j].0 != key
  {
    var last := |ps| - 1;
    if ps[last].0 == key {
      assert ps[last] == (key, LookupIn(ps, key).value);
    } else {
      var init := ps[..last];
      assert LookupIn(ps, key) == LookupIn(init, key);
      LookupInIsLast(init, key);
      var k :| 0 <= k < |init| && init[k] == (key, LookupIn(init, key).value)
               && forall j :: k < j < |init| ==> init[j].0 != key;
      assert ps[k] == init[k];
      assert forall j :: k < j < |ps| ==> ps[j].0 != key by {
        forall j | k < j < |ps| ensures ps[j].0 != key {
          if j < last { assert ps[j] == init[j]; }
        }
      }
    }
  }

  predicate IsLowerAlnum(c: char) { 'a' <= c <= 'z' || IsDigit(c) }

  /** `s.replace(/[^a-z0-9]/g, '')` */
  function KeepLowerAlnum(s: string): (r: string)
    ensures |r| <= |s|
    ensures forall k :: 0 <= k < |r| ==> IsLowerAlnum(r[k])
  {
    if s == [] then []
    else (if IsLowerAlnum(s[0]) then [s[0]] else []) + KeepLowerAlnum(s[1..])
  }

  /** The package name derived from a React Native project name. */
  function ReactNativePackageName(projectName: string): string {
    "com.reactnative." + KeepLowerAlnum(ToLower(projectName))
  }

  lemma {:induction false} KeepLowerAlnumKeepsAll(s: string)
    requires forall k :: 0 <= k < |s| ==> IsLowerAlnum(s[k])
    ensures KeepLowerAlnum(s) == s
  {
    if s != [] { KeepLowerAlnumKeepsAll(s[1..]); }
  }

  /** Deriving the package suffix again from a derived suffix changes nothing. */
  lemma PackageSuffixIdempotent(name: string)
    ensures var u := KeepLowerAlnum(ToLower(name)); KeepLowerAlnum(ToLower(u)) == u
  {
    var u := KeepLowerAlnum(ToLower(name));
    assert ToLower(u) == u;
    KeepLowerAlnumKeepsAll(u);
  }

  predicate IsReactNativeMainSource(f: string) {
    (EndsWith(f, ".js") || EndsWith(f, ".jsx") || EndsWith(f, ".ts") || EndsWith(f, ".tsx"))
      && !Contains(f, "node_modules") && !Contains(f, "test")
  }
  predicate IsReactNativeTestSource(f: string) { Contains(f, "test") || Contains(f, "spec") || Contains(f, "__tests__") }
  predicate IsReactNativeAsset(f: string) {
    Contains(f, "assets/") || Contains(f, "images/") || EndsWith(f, ".png") || EndsWith(f, ".jpg") || EndsWith(f, ".ttf")
  }
  predicate IsReactNativeResource(f: string) {
    Contains(f, "android/app/src/main/res/")
      || (Contains(f, "ios/") && (Contains(f, "Assets.xcassets") || Contains(f, "Info.plist")))
  }

  function ReactNativeStructure(files: seq<string>): SourceStructure {
    SourceStructure(Some(Filter(files, IsReactNativeMainSource)), Some(Filter(files, IsReactNativeTestSource)),
                    Some(Filter(files, IsReactNativeAsset)), Some(Filter(files, IsReactNativeResource)))
  }

  /** The configuration keys the React Native analysis always fills in, under the ones already found. */
  function ReactNativeDefaults(bc: BuildConfig, packageName: Option<string>): BuildConfig {
    NoConfig.(targetSdk := Some(OrNum(bc.targetSdk, 33)), minSdk := Some(OrNum(bc.minSdk, 21)),
      compileSdk := Some(OrNum(bc.compileSdk, 33)), buildTools := Some("React Native CLI"),
      reactNativeVersion := Some(OrElse(bc.reactNativeVersion, "latest")),
      nodeVersion := Some(OrElse(bc.nodeVersion, ">=16.0.0")),
      buildVariants := Some(["debug", "release"]),
      applicationId := if bc.applicationId.Some? && bc.applicationId.value != "" then bc.applicationId else packageName,
      versionName := Some(OrElse(bc.versionName, "1.0.0")), versionCode := Some(OrNumber(bc.versionCode, 1)))
  }

  function PackageJsonError(e: string): string { "Failed to analyze package.json: " + e }
  function GradleWarning(e: string): string { "Failed to parse Android build.gradle: " + e }

  /** The one error a failed package.json load adds. */
  function LoadErrors(loaded: Result<PackageJson>): seq<string> {
    if loaded.Failure? then [PackageJsonError(loaded.error)] else []
  }

  /** The one warning an unreadable `android/app/build.gradle` adds. */
  function GradleWarnings(t: Tree, files: seq<string>): seq<string> {
    var gradle := FindFirst(files, IsReactNativeGradle);
    if gradle.Some? && Read(t, gradle.value).Failure? then [GradleWarning(Read(t, gradle.value).error)] else []
  }

  /** The warnings for missing Android and iOS platform files. */
  function PlatformWarnings(files: seq<string>): seq<string> {
    (if !SomePresent(ReactNativeAndroidFiles, files) then [AndroidFilesWarning] else [])
      + (if !SomePresent(ReactNativeIosFiles, files) then [IosFilesWarning] else [])
  }

  /** The package.json step: its name, version, dependencies, React Native
      version and Node requirement, or one error when it cannot be read or parsed. */
  method ApplyPackageJson(a: Analysis, loaded: Result<PackageJson>) returns (r: Analysis)
    ensures loaded.Failure? ==> r == a.(errors := a.errors + LoadErrors(loaded))
    ensures loaded.Success? ==>
      var pkg := loaded.value;
      var name := OrElse(pkg.name, "react-native-app");
      var rn := Lookup(pkg.dependencies, "react-native");
      var hasRn := rn.Some? && rn.value != "";
      var hasNode := pkg.engineNode.Some? && pkg.engineNode.value != "";
      r == a.(projectName := Some(name),
              packageName := Some(ReactNativePackageName(name)),
              dependencies := Keys(pkg.dependencies), devDependencies := Keys(pkg.devDependencies),
              projectStats := a.projectStats.(dependencies := |Keys(pkg.dependencies)|,
                                              devDependencies := |Keys(pkg.devDependencies)|),
              frameworkVersion := if hasRn then rn else a.frameworkVersion,
              buildConfig := a.buildConfig.(
                versionName := Some(OrElse(pkg.version, "1.0.0")),
                reactNativeVersion := if hasRn then rn else a.buildConfig.reactNativeVersion,
                nodeVersion := if hasNode then pkg.engineNode else a.buildConfig.nodeVersion))
  {
    r := a;
    match loaded {
    case Failure(e) =>
      r := r.(errors := r.errors + [PackageJsonError(e)]);
    case Success(pkg) =>
      var name := OrElse(pkg.name, "react-native-app");
      var dependencies := Keys(pkg.dependencies);
      var devDependencies := Keys(pkg.devDependencies);
      r := r.(projectName := Some(name),
              buildConfig := r.buildConfig.(versionName := Some(OrElse(pkg.version, "1.0.0"))),
              packageName := Some(ReactNativePackageName(name)),
              dependencies := dependencies, devDependencies := devDependencies,
              projectStats := r.projectStats.(dependencies := |dependencies|, devDependencies := |devDependencies|));
      var rnVersion := Lookup(pkg.dependencies, "react-native");
      if rnVersion.Some? && rnVersion.value != "" {
        r := r.(buildConfig := r.buildConfig.(reactNativeVersion := rnVersion), frameworkVersion := rnVersion);
      }
      if pkg.engineNode.Some? && pkg.engineNode.value != "" {
        r := r.(buildConfig := r.buildConfig.(nodeVersion := pkg.engineNode));
      }
    }
  }

  /** What the React Native analysis takes from `android/app/build.gradle`. */
  datatype GradleFacts = GradleFacts(
    targetSdk: Option<nat>, minSdk: Option<nat>, compileSdk: Option<nat>,
    applicationId: Option<string>, versionCode: Option<nat>, versionName: Option<string>)

  function GradleFactsOf(content: string): GradleFacts {
    GradleFacts(ExtractGradleValue(content, "targetSdkVersion"), ExtractGradleValue(content, "minSdkVersion"),
                ExtractGradleValue(content, "compileSdkVersion"), ExtractGradleString(content, "applicationId"),
                ExtractGradleValue(content, "versionCode"), ExtractGradleString(content, "versionName"))
  }

  /** The build.gradle step: SDK levels with their defaults, and the application id
      and version found in the first path holding `android/app/build.gradle`; a
      file that cannot be read adds one warning; no such path changes nothing. */
  method ApplyReactNativeGradle(t: Tree, files: seq<string>, a: Analysis) returns (r: Analysis)
    ensures r.warnings == a.warnings + GradleWarnings(t, files)
    ensures var gradle := FindFirst(files, IsReactNativeGradle);
      (gradle.None? || Read(t, gradle.value).Failure?) ==> r == a.(warnings := r.warnings)
    ensures var gradle := FindFirst(files, IsReactNativeGradle);
      gradle.Some? && Read(t, gradle.value).Success? ==>
      var g := GradleFactsOf(Read(t, gradle.value).value);
      r == a.(packageName := if g.applicationId.Some? then g.applicationId else a.packageName,
              buildConfig := a.buildConfig.(
                targetSdk := Some(OrNum(g.targetSdk, 33)), minSdk := Some(OrNum(g.minSdk, 21)),
                compileSdk := Some(OrNum(g.compileSdk, 33)),
                applicationId := if g.applicationId.Some? then g.applicationId else a.buildConfig.applicationId,
                versionCode := if g.versionCode.Some? then Some(Int(g.versionCode.value)) else a.buildConfig.versionCode,
                versionName := if g.versionName.Some? then g.versionName else a.buildConfig.versionName))
  {
    r := a;
    var buildGradleFile := FindFirst(files, IsReactNativeGradle);
    if buildGradleFile.None? {
      return;
    }
    match Read(t, buildGradleFile.value) {
    case Failure(e) =>
      r := r.(warnings := r.warnings + [GradleWarning(e)]);
    case Success(content) =>
      var g := GradleFactsOf(content);
      r := r.(buildConfig := r.buildConfig.(
        targetSdk := Some(OrNum(g.targetSdk, 33)),
        minSdk := Some(OrNum(g.minSdk, 21)),
        compileSdk := Some(OrNum(g.compileSdk, 33))));
      if g.applicationId.Some? {
        r := r.(packageName := g.applicationId, buildConfig := r.buildConfig.(applicationId := g.applicationId));
      }
      // `parseInt` of a run of digits is its value (`ParseIntDigits`).
      if g.versionCode.Some? {
        r := r.(buildConfig := r.buildConfig.(versionCode := Some(Int(g.versionCode.value))));
      }
      if g.versionName.Some? {
        r := r.(buildConfig := r.buildConfig.(versionName := g.versionName));
      }
    }
  }

  /** The entry-point check lists `package.json` among the entry files, so it
      passes whenever a package.json was found: the "main component" entry can
      never be reported missing once the analysis gets that far. */
  lemma EntryCheckPassesWithPackageJson(files: seq<string>, f: string)
    requires f in files && IsPackageJsonFile(f)
    ensures SomePresent(ReactNativeEntryFiles, files)
  {
    AnyMatchesIffExists(files, (g: string) => Contains(g, "package.json"));
    assert AnyContains(files, ReactNativeEntryFiles[0]);
  }

  /** The final React Native configuration: every SDK level, tool, version and
      variant key is filled in, and keys already found keep their values. */
  function ReactNativeConfig(bc: BuildConfig, packageName: Option<string>): (c: BuildConfig)
    ensures c.targetSdk.Some? && c.minSdk.Some? && c.compileSdk.Some?
    ensures c.versionName.Some? && c.versionCode.Some?
    ensures c.reactNativeVersion.Some? && c.nodeVersion.Some? && c.buildVariants.Some?
    ensures c.buildTools == Spread(bc.buildTools, Some("React Native CLI"))
    ensures bc.targetSdk.Some? ==> c.targetSdk == bc.targetSdk
    ensures bc.versionName.Some? ==> c.versionName == bc.versionName
    ensures bc.applicationId.None? ==> c.applicationId == packageName
  {
    SpreadConfig(ReactNativeDefaults(bc, packageName), bc)
  }

  /** `analyzeReactNative`: without a package.json it records the missing file and stops. */
  method AnalyzeReactNative(t: Tree, files: seq<string>, a: Analysis, parse: string -> Result<PackageJson>)
    returns (r: Analysis)
    ensures r.framework == "react-native" && r.language == "javascript" && r.projectType == "mobile"
    ensures FindFirst(files, IsPackageJsonFile).None? ==>
      r == a.(framework := "react-native", language := "javascript", projectType := "mobile",
              missingFiles := a.missingFiles + ["package.json"], errors := a.errors + [MissingPackageJsonError])
    ensures FindFirst(files, IsPackageJsonFile).Some? ==>
      var loaded := LoadPackageJson(t, FindFirst(files, IsPackageJsonFile).value, parse);
      && r.missingFiles == a.missingFiles
      && (r.hasValidStructure <==> a.missingFiles == [])
      && r.errors == a.errors + LoadErrors(loaded)
      && r.warnings == a.warnings + GradleWarnings(t, files) + PlatformWarnings(files)
      && r.sourceStructure == ReactNativeStructure(files)
      && (loaded.Success? ==>
            var pkg := loaded.value;
            && r.projectName == Some(OrElse(pkg.name, "react-native-app"))
            && r.dependencies == Keys(pkg.dependencies) && r.devDependencies == Keys(pkg.devDependencies)
            && r.projectStats.dependencies == |r.dependencies|
            && r.projectStats.devDependencies == |r.devDependencies|)
    ensures FindFirst(files, IsPackageJsonFile).Some? ==>
      && r.buildConfig.buildTools == Spread(a.buildConfig.buildTools, Some("React Native CLI"))
      && r.buildConfig.targetSdk.Some? && r.buildConfig.minSdk.Some? && r.buildConfig.compileSdk.Some?
      && r.buildConfig.versionName.Some? && r.buildConfig.versionCode.Some?
      && r.buildConfig.reactNativeVersion.Some? && r.buildConfig.nodeVersion.Some?
    ensures KeepsCounts(a, r)
  {
    r := a.(framework := "react-native", language := "javascript", projectType := "mobile");
    var packageJsonFile := FindFirst(files, IsPackageJsonFile);
    if packageJsonFile.None? {
      r := r.(missingFiles := r.missingFiles + ["package.json"], errors := r.errors + [MissingPackageJsonError]);
      return;
    }
    r := AnalyzeReactNativeFiles(t, files, packageJsonFile.value, r, parse);
  }

  /** The rest of `analyzeReactNative`, once a package.json path is known. */
  method AnalyzeReactNativeFiles(t: Tree, files: seq<string>, packageJsonFile: string, a: Analysis,
                                 parse: string -> Result<PackageJson>) returns (r: Analysis)
    requires packageJsonFile in files && IsPackageJsonFile(packageJsonFile)
    ensures
      var loaded := LoadPackageJson(t, packageJsonFile, parse);
      && r.framework == a.framework && r.language == a.language && r.projectType == a.projectType
      && r.missingFiles == a.missingFiles
      && (r.hasValidStructure <==> a.missingFiles == [])
      && r.errors == a.errors + LoadErrors(loaded)
      && r.warnings == a.warnings + GradleWarnings(t, files) + PlatformWarnings(files)
      && r.sourceStructure == ReactNativeStructure(files)
      && (loaded.Success? ==>
            var pkg := loaded.value;
            && r.projectName == Some(OrElse(pkg.name, "react-native-app"))
            && r.dependencies == Keys(pkg.dependencies) && r.devDependencies == Keys(pkg.devDependencies)
            && r.projectStats.dependencies == |r.dependencies|
            && r.projectStats.devDependencies == |r.devDependencies|)
    ensures r.buildConfig.buildTools == Spread(a.buildConfig.buildTools, Some("React Native CLI"))
    ensures r.buildConfig.targetSdk.Some? && r.buildConfig.minSdk.Some? && r.buildConfig.compileSdk.Some?
    ensures r.buildConfig.versionName.Some? && r.buildConfig.versionCode.Some?
    ensures r.buildConfig.reactNativeVersion.Some? && r.buildConfig.nodeVersion.Some?
    ensures KeepsCounts(a, r)
  {
    var r3 := ConfigureReactNative(t, files, packageJsonFile, a, parse);
    EntryCheckPassesWithPackageJson(files, packageJsonFile);
    r := CheckReactNativeFiles(files, r3);
  }

  /** The package.json, build.gradle and configuration steps of `analyzeReactNative`. */
  method ConfigureReactNative(t: Tree, files: seq<string>, packageJsonFile: string, a: Analysis,
                              parse: string -> Result<PackageJson>) returns (r: Analysis)
    ensures
      var loaded := LoadPackageJson(t, packageJsonFile, parse);
      && r.framework == a.framework && r.language == a.language && r.projectType == a.projectType
      && r.missingFiles == a.missingFiles
      && r.errors == a.errors + LoadErrors(loaded)
      && r.warnings == a.warnings + GradleWarnings(t, files)
      && (loaded.Success? ==>
            var pkg := loaded.value;
            && r.projectName == Some(OrElse(pkg.name, "react-native-app"))
            && r.dependencies == Keys(pkg.dependencies) && r.devDependencies == Keys(pkg.devDependencies)
            && r.projectStats.dependencies == |r.dependencies|
            && r.projectStats.devDependencies == |r.devDependencies|)
    ensures r.buildConfig.buildTools == Spread(a.buildConfig.buildTools, Some("React Native CLI"))
    ensures r.buildConfig.targetSdk.Some? && r.buildConfig.minSdk.Some? && r.buildConfig.compileSdk.Some?
    ensures r.buildConfig.versionName.Some? && r.buildConfig.versionCode.Some?
    ensures r.buildConfig.reactNativeVersion.Some? && r.buildConfig.nodeVersion.Some?
    ensures KeepsCounts(a, r)
  {
    var r1 := ApplyPackageJson(a, LoadPackageJson(t, packageJsonFile, parse));
    var r2 := ApplyReactNativeGradle(t, files, r1);
    r := r2.(buildConfig := ReactNativeConfig(r2.buildConfig, r2.packageName));
  }

  /** The closing checks of `analyzeReactNative`: an entry point, the platform
      folders, the source structure, and validity as "nothing missing". */
  method CheckReactNativeFiles(files: seq<string>, a: Analysis) returns (r: Analysis)
    ensures r == a.(missingFiles := a.missingFiles + (if SomePresent(ReactNativeEntryFiles, files) then [] else [MissingEntryPoint]),
                    warnings := a.warnings + PlatformWarnings(files),
                    sourceStructure := ReactNativeStructure(files),
                    hasValidStructure := a.missingFiles == [] && SomePresent(ReactNativeEntryFiles, files))
  {
    r := a;
    var hasAppEntry := SomePresent(ReactNativeEntryFiles, files);
    if !hasAppEntry {
      r := r.(missingFiles := r.missingFiles + [MissingEntryPoint]);
    }
    var hasAndroid := SomePresent(ReactNativeAndroidFiles, files);
    var hasIos := SomePresent(ReactNativeIosFiles, files);
    if !hasAndroid {
      r := r.(warnings := r.warnings + [AndroidFilesWarning]);
    }
    if !hasIos {
      r := r.(warnings := r.warnings + [IosFilesWarning]);
    }
    assert r.warnings == a.warnings + PlatformWarnings(files);
    r := r.(sourceStructure := ReactNativeStructure(files));
    r := r.(hasValidStructure := |r.missingFiles| == 0);
  }

  // ---------------------------------------------------------------- Flutter

  const MissingPubspecError := "Missing pubspec.yaml file - required for Flutter projects"
  const FlutterRequiredFiles := ["lib/main.dart", "pubspec.yaml"]
  const FlutterRecommendedFiles := ["android/app/build.gradle", "ios/Runner.xcodeproj/project.pbxproj", "test/"]

  predicate IsPubspecFile(f: string) { Contains(f, "pubspec.yaml") || Contains(f, "pubspec.yml") }
  predicate IsFlutterManifest(f: string) { Contains(f, "android/app/src/main/AndroidManifest.xml") }

  function PubspecError(e: string): string { "Failed to analyze pubspec.yaml: " + e }
  function RecommendedWarning(file: string): string { "Recommended file/directory missing: " + file }

  /** The pubspec `version:` value split at `+`: the version name before the first
      `+`, and as version code `parseInt` of the text after it, or 1 when that text
      is missing or empty. */
  function FlutterVersion(v: string): (r: (string, Number))
    ensures '+' !in r.0
  {
    var parts := Split(v, '+');
    (parts[0], if |parts| > 1 && parts[1] != "" then AsNumber(ParseInt(parts[1])) else Int(1))
  }

  /** The number `parseInt` returns, with `None` standing for NaN. */
  function AsNumber(n: Option<int>): Number {
    if n.Some? then Int(n.value) else NaN
  }

  /** `name+digits` gives the name and the digits' value. */
  lemma FlutterVersionWithCode(name: string, digits: string)
    requires '+' !in name && |digits| > 0 && AllDigits(digits)
    ensures FlutterVersion(name + "+" + digits) == (name, Int(DigitsValue(digits)))
  {
    SplitFirst(name, '+', digits);
    assert forall k :: 0 <= k < |digits| ==> digits[k] != '+';
    ParseIntDigits(digits);
  }

  /** Without a `+` the whole value is the name and the code is 1. */
  lemma FlutterVersionWithoutCode(v: string)
    requires '+' !in v
    ensures FlutterVersion(v) == (v, Int(1))
  {
  }

  /** A code part without leading digits, such as `abc` in `1.0.0+abc`, gives NaN. */
  lemma FlutterVersionWithNaNCode(name: string, code: string)
    requires '+' !in name && '+' !in code && code != "" && ParseInt(code).None?
    ensures FlutterVersion(name + "+" + code) == (name, NaN)
  {
    SplitFirst(name, '+', code);
    assert forall k :: 0 <= k < |code| ==> code[k] != '+';
  }

  /** What the pubspec text yields: `name:` and `version:` values, the Flutter
      constraint, and the names in the dependency sections when those are found. */
  datatype PubspecFacts = PubspecFacts(
    name: Option<string>, version: Option<string>, flutter: Option<string>,
    dependencies: Option<seq<string>>, devDependencies: Option<seq<string>>)

  function PubspecFactsOf(content: string): (g: PubspecFacts)
    ensures g.name.Some? ==> g.name == ExtractLineValue(content, "name:")
    ensures g.flutter.Some? ==> '"' !in g.flutter.value && '\'' !in g.flutter.value && '\n' !in g.flutter.value
    ensures g.dependencies.Some? <==> Section(content, "dependencies:", true).Some?
    ensures g.devDependencies.Some? <==> Section(content, "dev_dependencies:", false).Some?
    ensures g.dependencies.Some? ==> forall k :: 0 <= k < |g.dependencies.value| ==>
      IsDependencyName(g.dependencies.value[k], "flutter")
    ensures g.devDependencies.Some? ==> forall k :: 0 <= k < |g.devDependencies.value| ==>
      IsDependencyName(g.devDependencies.value[k], "flutter_test")
  {
    PubspecFacts(ExtractLineValue(content, "name:"), ExtractLineValue(content, "version:"), FlutterConstraint(content),
      SectionNames(Section(content, "dependencies:", true), true, "flutter"),
      SectionNames(Section(content, "dev_dependencies:", false), false, "flutter_test"))
  }

  /** The dependency names of a section's `split('\n')` lines, when the section was found. */
  function SectionNames(section: Option<string>, skipSdk: bool, excluded: string): (r: Option<seq<string>>)
    ensures r.Some? <==> section.Some?
    ensures r.Some? ==> forall k :: 0 <= k < |r.value| ==> IsDependencyName(r.value[k], excluded)
  {
    match section
    case None => None
    case Some(text) =>
      Some(DependencyNames(Split(text, '\n'), skipSdk, excluded))
  }

  /** The configuration keys the Flutter analysis always fills in, under the ones already found. */
  function FlutterDefaults(bc: BuildConfig, projectName: Option<string>): BuildConfig {
    NoConfig.(targetSdk := Some(34), minSdk := Some(21), compileSdk := Some(34), buildTools := Some("Flutter SDK"),
      flutterVersion := Some(OrElse(bc.flutterVersion, ">=3.0.0")), dartVersion := Some(">=3.0.0 <4.0.0"),
      buildVariants := Some(["debug", "profile", "release"]),
      applicationId := Some("com.example." + OrElse(projectName, "app")),
      versionName := Some(OrElse(bc.versionName, "1.0.0")), versionCode := Some(OrNumber(bc.versionCode, 1)))
  }

  /** The final Flutter configuration: SDK 34/21/34, the Flutter tool chain and
      three variants unless already set, and an application id from the project
      name; keys already found keep their values. */
  function FlutterConfig(bc: BuildConfig, projectName: Option<string>): (c: BuildConfig)
    ensures c.targetSdk == Spread(bc.targetSdk, Some(34)) && c.minSdk == Spread(bc.minSdk, Some(21))
    ensures c.compileSdk == Spread(bc.compileSdk, Some(34))
    ensures c.buildTools == Spread(bc.buildTools, Some("Flutter SDK"))
    ensures c.flutterVersion.Some? && c.dartVersion.Some? && c.versionName.Some? && c.versionCode.Some?
    ensures c.buildVariants == Spread(bc.buildVariants, Some(["debug", "profile", "release"]))
    ensures bc.applicationId.None? && projectName.Some? && projectName.value != "" ==>
      c.applicationId == Some("com.example." + projectName.value)
    ensures bc.applicationId.None? && (projectName.None? || projectName.value == "") ==>
      c.applicationId == Some("com.example.app")
    ensures bc.versionCode.Some? ==> c.versionCode == bc.versionCode
    ensures bc.versionName.Some? ==> c.versionName == bc.versionName
  {
    assert "com.example." + "app" == "com.example.app";
    SpreadConfig(FlutterDefaults(bc, projectName), bc)
  }

  /** The pubspec step: project name, version name and code, Flutter constraint,
      dependencies and dev dependencies when found, then the Flutter configuration. */
  method ApplyPubspec(a: Analysis, g: PubspecFacts) returns (r: Analysis)
    ensures
      var name := if g.name.Some? then g.name else a.projectName;
      var bc := a.buildConfig.(
        flutterVersion := if g.flutter.Some? then g.flutter else a.buildConfig.flutterVersion,
        versionName := if g.version.Some? then Some(FlutterVersion(g.version.value).0) else a.buildConfig.versionName,
        versionCode := if g.version.Some? then Some(FlutterVersion(g.version.value).1) else a.buildConfig.versionCode);
      r == a.(projectName := name,
              frameworkVersion := if g.flutter.Some? then g.flutter else a.frameworkVersion,
              dependencies := if g.dependencies.Some? then g.dependencies.value else a.dependencies,
              devDependencies := if g.devDependencies.Some? then g.devDependencies.value else a.devDependencies,
              projectStats := a.projectStats.(
                dependencies := if g.dependencies.Some? then |g.dependencies.value| else a.projectStats.dependencies,
                devDependencies := if g.devDependencies.Some? then |g.devDependencies.value| else a.projectStats.devDependencies),
              buildConfig := FlutterConfig(bc, name))
  {
    r := a;
    if g.name.Some? {
      r := r.(projectName := g.name);
    }
    if g.version.Some? {
      var (versionName, versionCode) := FlutterVersion(g.version.value);
      r := r.(buildConfig := r.buildConfig.(versionName := Some(versionName), versionCode := Some(versionCode)));
    }
    if g.flutter.Some? {
      r := r.(buildConfig := r.buildConfig.(flutterVersion := g.flutter), frameworkVersion := g.flutter);
    }
    if g.dependencies.Some? {
      r := r.(dependencies := g.dependencies.value,
              projectStats := r.projectStats.(dependencies := |g.dependencies.value|));
    }
    if g.devDependencies.Some? {
      r := r.(devDependencies := g.devDependencies.value,
              projectStats := r.projectStats.(devDependencies := |g.devDependencies.value|));
    }
    r := r.(buildConfig := FlutterConfig(r.buildConfig, r.projectName));
  }

  /** One warning per recommended path that no listed path contains, in order. */
  function RecommendedWarnings(recommended: seq<string>, files: seq<string>): (ws: seq<string>)
    ensures |ws| <= |recommended|
  {
    if recommended == [] then []
    else
      var last := recommended[|recommended| - 1];
      RecommendedWarnings(recommended[..|recommended| - 1], files)
        + (if !AnyContains(files, last) then [RecommendedWarning(last)] else [])
  }

  /** The warnings name exactly the missing recommended paths, in their order. */
  lemma {:induction false} RecommendedWarningsAreMissing(recommended: seq<string>, files: seq<string>)
    ensures |RecommendedWarnings(recommended, files)| == |MissingFrom(recommended, files)|
    ensures forall k :: 0 <= k < |MissingFrom(recommended, files)| ==>
      RecommendedWarnings(recommended, files)[k] == RecommendedWarning(MissingFrom(recommended, files)[k])
  {
    if recommended != [] {
      RecommendedWarningsAreMissing(recommended[..|recommended| - 1], files);
    }
  }

  /** The `recommendedFiles.forEach` loop. */
  method PushRecommendedWarnings(recommended: seq<string>, files: seq<string>, warnings: seq<string>)
    returns (ws: seq<string>)
    ensures ws == warnings + RecommendedWarnings(recommended, files)
  {
    ws := warnings;
    var i := 0;
    while i < |recommended|
      invariant 0 <= i <= |recommended|
      invariant ws == warnings + RecommendedWarnings(recommended[..i], files)
    {
      var file := recommended[i];
      assert recommended[..i + 1][..i] == recommended[..i];
      if !AnyContains(files, file) {
        ws := ws + [RecommendedWarning(file)];
      }
      i := i + 1;
    }
    assert recommended[..|recommended|] == recommended;
  }

  predicate IsFlutterMainSource(f: string) { Contains(f, "lib/") && EndsWith(f, ".dart") }
  predicate IsFlutterTestSource(f: string) { Contains(f, "test/") && EndsWith(f, ".dart") }
  predicate IsFlutterAsset(f: string) {
    Contains(f, "assets/") || Contains(f, "images/") || Contains(f, "fonts/")
      || EndsWith(f, ".png") || EndsWith(f, ".jpg") || EndsWith(f, ".ttf")
  }
  predicate IsFlutterResource(f: string) {
    Contains(f, "android/app/src/main/res/") || Contains(f, "ios/Runner/Assets.xcassets/")
  }

  function FlutterStructure(files: seq<string>): SourceStructure {
    SourceStructure(Some(Filter(files, IsFlutterMainSource)), Some(Filter(files, IsFlutterTestSource)),
                    Some(Filter(files, IsFlutterAsset)), Some(Filter(files, IsFlutterResource)))
  }

  /** The `package="..."` of the first Android manifest listed, when it can be read and has one. */
  function ManifestPackage(t: Tree, files: seq<string>): (p: Option<string>)
    ensures p.Some? ==> FindFirst(files, IsFlutterManifest).Some?
  {
    var m := FindFirst(files, IsFlutterManifest);
    if m.None? then None
    else match Read(t, m.value)
      case Failure(_) => None
      case Success(content) => ExtractAttribute(content, "package=")
  }

  /** The checks that follow the pubspec step: required files, recommended-file
      warnings, the source structure and the manifest's package, which also
      becomes the application id. */
  method CheckFlutterFiles(t: Tree, files: seq<string>, a: Analysis) returns (r: Analysis)
    ensures var p := ManifestPackage(t, files);
      r == a.(missingFiles := MissingFrom(FlutterRequiredFiles, files),
              warnings := a.warnings + RecommendedWarnings(FlutterRecommendedFiles, files),
              sourceStructure := FlutterStructure(files),
              packageName := if p.Some? then p else a.packageName,
              buildConfig := if p.Some? then a.buildConfig.(applicationId := p) else a.buildConfig,
              hasValidStructure := MissingFrom(FlutterRequiredFiles, files) == [])
  {
    r := a.(missingFiles := MissingFrom(FlutterRequiredFiles, files));
    var ws := PushRecommendedWarnings(FlutterRecommendedFiles, files, r.warnings);
    r := r.(warnings := ws, sourceStructure := FlutterStructure(files));
    var androidManifest := FindFirst(files, IsFlutterManifest);
    if androidManifest.Some? {
      match Read(t, androidManifest.value) {
      case Failure(_) =>
      case Success(content) =>
        var packageMatch := ExtractAttribute(content, "package=");
        if packageMatch.Some? {
          r := r.(packageName := packageMatch, buildConfig := r.buildConfig.(applicationId := packageMatch));
        }
      }
    }
    r := r.(hasValidStructure := |r.missingFiles| == 0);
  }

  /** `analyzeFlutter`: without a pubspec it records the missing file and stops;
      an unreadable pubspec adds one error and skips the pubspec step. */
  method AnalyzeFlutter(t: Tree, files: seq<string>, a: Analysis) returns (r: Analysis)
    ensures r.framework == "flutter" && r.language == "dart" && r.projectType == "mobile"
    ensures FindFirst(files, IsPubspecFile).None? ==>
      r == a.(framework := "flutter", language := "dart", projectType := "mobile",
              missingFiles := a.missingFiles + ["pubspec.yaml"], errors := a.errors + [MissingPubspecError])
    ensures FindFirst(files, IsPubspecFile).Some? ==>
      var pubspec := Read(t, FindFirst(files, IsPubspecFile).value);
      && r.missingFiles == MissingFrom(FlutterRequiredFiles, files)
      && (r.hasValidStructure <==> r.missingFiles == [])
      && r.errors == a.errors + (if pubspec.Failure? then [PubspecError(pubspec.error)] else [])
      && r.warnings == a.warnings + RecommendedWarnings(FlutterRecommendedFiles, files)
      && r.sourceStructure == FlutterStructure(files)
      && (ManifestPackage(t, files).Some? ==>
            r.packageName == ManifestPackage(t, files) && r.buildConfig.applicationId == ManifestPackage(t, files))
      && (pubspec.Success? ==>
            var g := PubspecFactsOf(pubspec.value);
            && (g.name.Some? ==> r.projectName == g.name)
            && (g.dependencies.Some? ==> r.dependencies == g.dependencies.value
                                           && r.projectStats.dependencies == |r.dependencies|)
            && (g.devDependencies.Some? ==> r.devDependencies == g.devDependencies.value
                                              && r.projectStats.devDependencies == |r.devDependencies|)
            && r.buildConfig.dartVersion.Some? && r.buildConfig.versionName.Some? && r.buildConfig.versionCode.Some?
            && (g.version.Some? ==>
                  var (name, code) := FlutterVersion(g.version.value);
                  r.buildConfig.versionName == Some(name) && r.buildConfig.versionCode == Some(code)))
    ensures KeepsCounts(a, r)
  {
    r := a.(framework := "flutter", language := "dart", projectType := "mobile");
    var pubspecFile := FindFirst(files, IsPubspecFile);
    if pubspecFile.None? {
      r := r.(missingFiles := r.missingFiles + ["pubspec.yaml"], errors := r.errors + [MissingPubspecError]);
      return;
    }
    match Read(t, pubspecFile.value) {
    case Failure(e) =>
      r := r.(errors := r.errors + [PubspecError(e)]);
    case Success(content) =>
      r := ApplyPubspec(r, PubspecFactsOf(content));
    }
    r := CheckFlutterFiles(t, files, r);
  }

  // ---------------------------------------------------------------- Android

  const AndroidRequiredFiles := ["build.gradle", "app/build.gradle", "app/src/main/AndroidManifest.xml"]
  const AndroidGradlePath := "app/build.gradle"
  const AndroidManifestPath := "app/src/main/AndroidManifest.xml"
  const GradleParseError := "Failed to parse build.gradle"

  predicate IsAndroidSource(f: string) { EndsWith(f, ".java") || EndsWith(f, ".kt") }

  /** The SDK levels `app/build.gradle` gives, 33 and 21 when missing or zero. */
  function AndroidSdks(content: string): (sdks: (int, int))
    ensures sdks.0 != 0 && sdks.1 != 0
    ensures ExtractGradleValue(content, "targetSdkVersion").Some? && ExtractGradleValue(content, "targetSdkVersion").value != 0
      ==> sdks.0 == ExtractGradleValue(content, "targetSdkVersion").value
  {
    (OrNum(ExtractGradleValue(content, "targetSdkVersion"), 33), OrNum(ExtractGradleValue(content, "minSdkVersion"), 21))
  }

  /** `analyzeAndroid`: the configuration is replaced by four keys, the missing
      files are the required ones no path contains, a readable `app/build.gradle`
      sets the SDK levels in the configuration and the statistics, an unreadable
      one adds one error, and the source count is the `.java` and `.kt` paths. */
  method AnalyzeAndroid(t: Tree, files: seq<string>, a: Analysis) returns (r: Analysis)
    ensures var gradle := Read(t, AndroidGradlePath);
      var sdks := if gradle.Success? then AndroidSdks(gradle.value) else (33, 21);
      r == a.(missingFiles := MissingFrom(AndroidRequiredFiles, files),
              buildConfig := NoConfig.(targetSdk := Some(sdks.0), minSdk := Some(sdks.1),
                                       hasBuildGradle := Some(Exists(t, AndroidGradlePath)),
                                       hasManifest := Some(Exists(t, AndroidManifestPath))),
              errors := a.errors + (if Exists(t, AndroidGradlePath) && gradle.Failure? then [GradleParseError] else []),
              projectStats := a.projectStats.(
                sourceFiles := |Filter(files, IsAndroidSource)|,
                targetSdk := if gradle.Success? then Some(sdks.0) else a.projectStats.targetSdk,
                minSdk := if gradle.Success? then Some(sdks.1) else a.projectStats.minSdk))
  {
    var bc, sdks, errors := ReadAndroidGradle(t);
    r := a.(buildConfig := bc, missingFiles := MissingFrom(AndroidRequiredFiles, files), errors := a.errors + errors);
    if sdks.Some? {
      r := r.(projectStats := r.projectStats.(targetSdk := Some(sdks.value.0), minSdk := Some(sdks.value.1)));
    }
    r := r.(projectStats := r.projectStats.(sourceFiles := |Filter(files, IsAndroidSource)|));
  }

  /** The configuration steps of `analyzeAndroid`: the four keys, the SDK levels of
      a readable `app/build.gradle`, or the one error of an unreadable one. */
  method ReadAndroidGradle(t: Tree) returns (bc: BuildConfig, sdks: Option<(int, int)>, errors: seq<string>)
    ensures var gradle := Read(t, AndroidGradlePath);
      && sdks == (if gradle.Success? then Some(AndroidSdks(gradle.value)) else None)
      && errors == (if Exists(t, AndroidGradlePath) && gradle.Failure? then [GradleParseError] else [])
      && bc == NoConfig.(targetSdk := Some(sdks.GetOr((33, 21)).0), minSdk := Some(sdks.GetOr((33, 21)).1),
                         hasBuildGradle := Some(Exists(t, AndroidGradlePath)),
                         hasManifest := Some(Exists(t, AndroidManifestPath)))
  {
    bc := NoConfig.(hasBuildGradle := Some(false), hasManifest := Some(false), targetSdk := Some(33), minSdk := Some(21));
    sdks := None;
    errors := [];
    if Exists(t, AndroidGradlePath) {
      bc := bc.(hasBuildGradle := Some(true));
      match Read(t, AndroidGradlePath) {
      case Failure(_) =>
        errors := [GradleParseError];
      case Success(gradleContent) =>
        var (targetSdk, minSdk) := AndroidSdks(gradleContent);
        sdks := Some((targetSdk, minSdk));
        bc := bc.(targetSdk := Some(targetSdk), minSdk := Some(minSdk));
      }
    }
    if Exists(t, AndroidManifestPath) {
      bc := bc.(hasManifest := Some(true));
    }
  }

  // ---------------------------------------------------------------- Cordova

  const CordovaRequiredFiles := ["config.xml", "www/index.html"]
  const CordovaConfigPath := "config.xml"
  const CordovaWwwPath := "www"
  const ConfigParseError := "Failed to parse config.xml"

  predicate IsCordovaSource(f: string) { EndsWith(f, ".js") || EndsWith(f, ".html") || EndsWith(f, ".css") }

  /** The application name and version `config.xml` gives: the text of the first
      `<name>...</name>` and of the first `version="..."` on one line, or the defaults. */
  function CordovaAppInfo(content: string): (string, string) {
    (ExtractLazy(content, "<name>", "</name>").GetOr("Mobile App"),
     ExtractLazy(content, "version=\"", "\"").GetOr("1.0.0"))
  }

  /** `analyzeCordova`: the configuration is replaced by four keys, the missing
      files are the required ones no path contains, a readable `config.xml` sets
      the name and version, an unreadable one adds one error, and the source count
      is the `.js`, `.html` and `.css` paths. */
  method AnalyzeCordova(t: Tree, files: seq<string>, a: Analysis) returns (r: Analysis)
    ensures var config := Read(t, CordovaConfigPath);
      var info := if config.Success? then CordovaAppInfo(config.value) else ("Mobile App", "1.0.0");
      r == a.(missingFiles := MissingFrom(CordovaRequiredFiles, files),
              buildConfig := NoConfig.(appName := Some(info.0), version := Some(info.1),
                                       hasConfigXml := Some(Exists(t, CordovaConfigPath)),
                                       hasWwwFolder := Some(Exists(t, CordovaWwwPath))),
              errors := a.errors + (if Exists(t, CordovaConfigPath) && config.Failure? then [ConfigParseError] else []),
              projectStats := a.projectStats.(sourceFiles := |Filter(files, IsCordovaSource)|))
  {
    var bc, errors := ReadCordovaConfig(t);
    r := a.(buildConfig := bc, missingFiles := MissingFrom(CordovaRequiredFiles, files), errors := a.errors + errors);
    r := r.(projectStats := r.projectStats.(sourceFiles := |Filter(files, IsCordovaSource)|));
  }

  /** The configuration steps of `analyzeCordova`: the four keys, the name and
      version of a readable `config.xml`, or the one error of an unreadable one. */
  method ReadCordovaConfig(t: Tree) returns (bc: BuildConfig, errors: seq<string>)
    ensures var config := Read(t, CordovaConfigPath);
      var info := if config.Success? then CordovaAppInfo(config.value) else ("Mobile App", "1.0.0");
      && errors == (if Exists(t, CordovaConfigPath) && config.Failure? then [ConfigParseError] else [])
      && bc == NoConfig.(appName := Some(info.0), version := Some(info.1),
                         hasConfigXml := Some(Exists(t, CordovaConfigPath)),
                         hasWwwFolder := Some(Exists(t, CordovaWwwPath)))
  {
    bc := NoConfig.(hasConfigXml := Some(false), hasWwwFolder := Some(false),
                    appName := Some("Mobile App"), version := Some("1.0.0"));
    errors := [];
    if Exists(t, CordovaConfigPath) {
      bc := bc.(hasConfigXml := Some(true));
      match Read(t, CordovaConfigPath) {
      case Failure(_) =>
        errors := [ConfigParseError];
      case Success(configContent) =>
        var nameMatch := ExtractLazy(configContent, "<name>", "</name>");
        var versionMatch := ExtractLazy(configContent, "version=\"", "\"");
        bc := bc.(appName := Some(if nameMatch.Some? then nameMatch.value else "Mobile App"),
                  version := Some(if versionMatch.Some? then versionMatch.value else "1.0.0"));
      }
    }
    if Exists(t, CordovaWwwPath) {
      bc := bc.(hasWwwFolder := Some(true));
    }
  }

  // ---------------------------------------------------------------- analyzeProject

  const UndetectedWarning := "Framework not automatically detected - will use generic mobile project setup"

  /** `analyzeProject`: list the files, detect the framework, count the files by
      kind, run the framework's analysis (an undetected framework becomes the
      generic mobile setup with one warning), add the metrics, and call the
      structure valid exactly when no error was recorded. */
  method AnalyzeProject(t: Tree, parse: string -> Result<PackageJson>) returns (r: Analysis)
    ensures var files := AllFiles(t, "");
      var d := DetectFramework(files);
      && r.projectStats.totalFiles == |files|
      && (r.hasValidStructure <==> r.errors == [])
      && (d.framework == "unknown" ==>
            r.framework == "generic-mobile" && r.warnings == [UndetectedWarning] && r.errors == [] && r.missingFiles == [])
      && (d.framework != "unknown" ==> r.framework == d.framework)
      && r.projectStats.testFiles == CountKind(files, TestFile)
      && r.projectStats.assetFiles == CountKind(files, AssetFile)
      && r.projectStats.configFiles == CountKind(files, ConfigFile)
      && r.projectStats.projectSize == Some(SizeClass(|files|))
      && r.projectStats.estimatedBuildTime
           == Some(BuildTimeText(EstimatedMinutes(r.projectStats.sourceFiles, |r.dependencies|, r.framework)))
    ensures var files := AllFiles(t, "");
      var d := DetectFramework(files);
      && (d.framework == "react-native" ==>
            if FindFirst(files, IsPackageJsonFile).None?
            then r.missingFiles == ["package.json"] && r.errors == [MissingPackageJsonError]
            else r.missingFiles == [])
      && (d.framework == "flutter" ==>
            if FindFirst(files, IsPubspecFile).None?
            then r.missingFiles == ["pubspec.yaml"] && r.errors == [MissingPubspecError]
            else r.missingFiles == MissingFrom(FlutterRequiredFiles, files))
      && (d.framework == "android" ==> r.missingFiles == MissingFrom(AndroidRequiredFiles, files)
                                       && r.projectStats.sourceFiles == |Filter(files, IsAndroidSource)|)
      && (d.framework == "cordova" ==> r.missingFiles == MissingFrom(CordovaRequiredFiles, files)
                                       && r.projectStats.sourceFiles == |Filter(files, IsCordovaSource)|)
  {
    var allFiles := GetAllFiles(t, "");
    r := Initial.(projectStats := Initial.projectStats.(totalFiles := |allFiles|));
    var detection := DetectFramework(allFiles);
    r := r.(framework := detection.framework, language := detection.language, projectType := detection.projectType);
    r := AnalyzeFileTypes(allFiles, r);
    r := AnalyzeFramework(t, allFiles, r, parse);
    r := CalculateProjectMetrics(r);
    r := r.(hasValidStructure := |r.errors| == 0);
  }

  /** The `switch` on the detected framework. */
  method AnalyzeFramework(t: Tree, files: seq<string>, a: Analysis, parse: string -> Result<PackageJson>)
    returns (r: Analysis)
    requires a.missingFiles == [] && a.errors == [] && a.warnings == []
    ensures KeepsCounts(a, r)
    ensures a.framework !in {"react-native", "flutter", "android", "cordova"} ==>
      r.framework == "generic-mobile" && r.warnings == [UndetectedWarning] && r.errors == [] && r.missingFiles == []
    ensures a.framework in {"react-native", "flutter", "android", "cordova"} ==> r.framework == a.framework
    ensures a.framework == "react-native" ==>
      if FindFirst(files, IsPackageJsonFile).None?
      then r.missingFiles == ["package.json"] && r.errors == [MissingPackageJsonError]
      else r.missingFiles == []
    ensures a.framework == "flutter" ==>
      if FindFirst(files, IsPubspecFile).None?
      then r.missingFiles == ["pubspec.yaml"] && r.errors == [MissingPubspecError]
      else r.missingFiles == MissingFrom(FlutterRequiredFiles, files)
    ensures a.framework == "android" ==> r.missingFiles == MissingFrom(AndroidRequiredFiles, files)
                                         && r.projectStats.sourceFiles == |Filter(files, IsAndroidSource)|
    ensures a.framework == "cordova" ==> r.missingFiles == MissingFrom(CordovaRequiredFiles, files)
                                         && r.projectStats.sourceFiles == |Filter(files, IsCordovaSource)|
  {
    if a.framework == "react-native" {
      r := AnalyzeReactNative(t, files, a, parse);
    } else if a.framework == "flutter" {
      r := AnalyzeFlutter(t, files, a);
    } else if a.framework == "android" {
      r := AnalyzeAndroid(t, files, a);
    } else if a.framework == "cordova" {
      r := AnalyzeCordova(t, files, a);
    } else {
      r := a.(framework := "generic-mobile", warnings := a.warnings + [UndetectedWarning]);
    }
  }
}
