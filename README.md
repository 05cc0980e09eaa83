# Mobile project to APK converter: a Dafny model of its server core

The converter takes a zipped mobile project and turns it into an installable
Android package. The project may be React Native, Flutter, native Android,
Cordova or a generic web app. The server does the work in four parts:

- It checks the upload: a `.zip` name of at most 255 characters with no path
  characters, a size between 1 byte and 500 MiB, and the `PK` signature.
- It keeps projects and their build logs in an in-memory store.
- It analyses the extracted project: the framework, file counts, manifest
  fields, missing files and a build-time estimate.
- It builds the APK from the project tree. The build fills in missing
  framework files, runs the framework's toolchain for its log and checks the
  project structure. It then writes an archive of a generated manifest,
  placeholder `classes.dex`/`resources.arsc` images, signature files,
  framework assets and a launcher icon.

Route handlers tie these parts together. Each reports its progress by
updating the project record, and a successful upload starts an automatic
analysis, setup and build. The browser runs its own copy of the upload
checks before it sends a file.

The modules follow the program:

- `UploadRules`: the upload rules both sides share.
- `FileValidation`: the browser validator.
- `Storage`: the store, as the class `MemStorage`.
- `Workspace`: the project directory, as the file manager presents it.
- `ProjectAnalyzer`: the analyzer.
- `Manifests`: the regular expressions the analyzer applies, written out.
- `ApkBuilder`: the builder.
- `Templates`: the text files it writes.
- `Payloads`: its binary placeholders.
- `Routes`: the validators and the handlers, as the class `Server`, which owns the store.
- `Strings` and `Wrappers`: the JavaScript string operations and the `Option`/`Result` types.

Some inputs are parameters of the model because nothing here can compute them:

- the outcome of each shell command;
- the clock;
- the JSON parser;
- the size of a written archive;
- the renderer of documents, `render: Document -> string`. Callers pass
  `Templates.Render`, which spells out every template text. The proofs about
  the builder hold for any renderer, which keeps the long template texts out
  of them. What the templates carry is proved in `Templates` about each
  template's text, for any fixed text around the values it is filled with.

## Model

| member | source | states |
|---|---|---|
| UploadRules.Utf16Length | client/src/lib/fileValidation.ts:57 | The JavaScript `length` of a name lies between its character count and twice that, and equals the character count when every character is in the Basic Multilingual Plane. |
| UploadRules.PathCharactersMeaning | client/src/lib/fileValidation.ts:61 | The path-character rule holds exactly when the name contains `..`, a `/` or a `\`. |
| UploadRules.Signature | server/routes.ts:263 | The signature is the first four bytes, or the whole content when it is shorter. |
| UploadRules.ZipMagicMeaning | server/routes.ts:263-264 | The signature check passes exactly when the content has at least two bytes and they are 0x50 0x4B, so shorter content always fails. |
| FileValidation.WarningsMeaning | client/src/lib/fileValidation.ts:43-68 | The MIME warning is raised exactly for a non-empty type outside the allowed list, and the size warning exactly above 100 MiB. These are the only warnings, raised in that order. |
| FileValidation.BasicErrorsMembers | client/src/lib/fileValidation.ts:35-63 | An error is reported exactly when its check fails. The empty-file and too-large errors never occur together. |
| FileValidation.BasicErrorsInOrder | client/src/lib/fileValidation.ts:35-63 | The errors appear in checking order: extension, empty, too large, name length, path characters. Each appears at most once. |
| FileValidation.BasicErrorsNoneIffAcceptable | client/src/lib/fileValidation.ts:70-75 | No error is reported exactly for a `.zip` name of at most 255 code units without path characters, whose size is between 1 byte and 500 MiB. |
| FileValidation.ValidateFile | client/src/lib/fileValidation.ts:12-76 | The pushes produce exactly the failed checks as errors and the applicable warnings. `isValid` holds iff there are no errors. |
| FileValidation.ValidateZipStructure | client/src/lib/fileValidation.ts:78-103 | A file failing the basic checks gets the basic result as it is. Unreadable bytes give the "unable to validate" error. Content without `PK` gets the archive error appended. `isValid` holds iff the file is acceptable and its bytes start with the signature, which is iff there are no errors. |
| FileValidation.CreateUploadError | client/src/lib/fileValidation.ts:105-112 | The record carries the given code, message and details, stamped with the clock reading. |
| FileValidation.HintsForMeaning | client/src/lib/fileValidation.ts:122-140 | A family is hinted exactly when one of its keywords occurs in the lower-cased name. The hints come in the order React Native, Flutter, Android, Cordova, each at most once. |
| FileValidation.GetFrameworkHints | client/src/lib/fileValidation.ts:122-140 | The pushes give exactly the hints of `HintsFor`. |
| Routes.ValidateErrorsMeaning | server/routes.ts:231-271 | `/validate` reports an error exactly when its rule is broken. The empty-file and over-limit errors never occur together. |
| Routes.ZipErrorMeaning | server/routes.ts:259-267 | Both routes report the archive error exactly when byte 0 is not 0x50 or byte 1 is not 0x4B; a buffer shorter than two bytes always gets it. |
| Routes.UploadErrorsMeaning | server/routes.ts:325-346 | `/upload` reports exactly the broken rules other than the two name rules. Its size errors are exclusive too. |
| Routes.ValidateAcceptsIff | server/routes.ts:285-291 | `/validate` finds no error iff the name ends in `.zip` in any case, the size is between 1 byte and 500 MiB, the name has at most 255 code units and no path characters, and the content starts with `PK`. The MIME type never matters. |
| Routes.UploadAcceptsIff | server/routes.ts:348-355 | `/upload` accepts iff the extension, size and signature rules hold. Anything `/validate` accepts, `/upload` accepts. |
| Routes.UploadIgnoresNameRules | server/routes.ts:322-346 | The converse fails: `/upload` accepts `../a.zip`, which `/validate` rejects. |
| Routes.ParentStepName | server/routes.ts:251-257 | The name `../a.zip` has the `.zip` extension and a short name but contains path characters. |
| Routes.ValidateWarningsMeaning | server/routes.ts:244-276 | The MIME warning is raised exactly for a non-empty type outside the allowed list, and the large-file warning exactly above 100 MiB. A file between 100 and 500 MiB with no other fault is valid with a warning. |
| Routes.InfoOf | server/routes.ts:278-283 | The reply's file information keeps the name and size. The type is never empty and is the file's own type whenever that is non-empty. |
| Routes.Validate | server/routes.ts:212-302 | A missing file gets the 400 reply. Otherwise the reply lists exactly the errors of `ValidateErrors` and the warnings of `ValidateWarnings`, and is valid iff there are no errors. |
| Routes.CheckUpload | server/routes.ts:322-346 | The pushes of `/upload` give exactly `UploadErrors`. |
| Routes.ProgressWrites | server/routes.ts:852-853 | One store write per progress report. |
| Routes.ReportLines | server/routes.ts:854-858 | One log line per progress report. |
| Routes.ProgressWritesProgressions | server/routes.ts:852-853 | The progress values the build callback writes are the builder's reported values, in order. |
| Routes.ProgressOnly | server/routes.ts:638 | A `{ progress }` update sets the progress and leaves the status alone. |
| Routes.MergedProgress | server/routes.ts:638 | Merging a progress-only update changes the progress and the update time only. |
| Routes.MergedStatusProgress | server/routes.ts:42-45 | Merging a status-and-progress update changes those two fields and the update time only. |
| Routes.EachMeaning | server/routes.ts:643-657 | Logging a list of messages gives exactly one line per message, with the project, level and time given. |
| Routes.SetupStages | server/routes.ts:640-757 | None of the four builder stages `/setup` runs reports a failure. The tree afterwards is the framework creator's output. |
| Routes.MergedBuildOutcome | server/routes.ts:863-875 | A finished build leaves the project `completed` at 100 with the archive path and size on success, and `error` at 100 otherwise. |
| Routes.AnalyzeAndBuild | server/routes.ts:843-860 | A fresh analysis followed by the build succeeds exactly under `ApkBuilder.Builds`. Success carries the release archive path and a size. The reports end in one of the four ways a build can end. |
| Routes.StepProgress | server/routes.ts:631-668 | One `/setup` step sets its progress once, and once more with the error status when its stage failed. |
| Routes.SetupProgress | server/routes.ts:617-797 | A client polling `/setup` sees 25, then 30, 40, 50 and 60, up to the first failed stage, which repeats its own progress with `error`. A run without failure ends at `setup-complete`/65. |
| Routes.SetupProgressMonotone | server/routes.ts:617-797 | The progress of `/setup` never goes down and ends at the value left on the record. |
| Routes.SetupAlwaysCompletes | server/routes.ts:602-808 | With the builder's own stages, `/setup` always ends at `setup-complete`/65 with the success reply. |
| Routes.SetupLogsCreationErrors | server/routes.ts:690-696 | Every error of the file-creation stage is logged as an error line by `/setup`. |
| Routes.AutoSetupLogsNoErrors | server/routes.ts:50-99 | The automatic setup writes only info lines of its own project, so a stage's errors are never logged as errors. |
| Routes.AutoSetupProgress | server/routes.ts:42-104 | The automatic setup's progress runs 25, 30, 40, 50, 60. |
| Routes.BuildProgress | server/routes.ts:831-875 | A client polling a build sees 60, then the builder's non-decreasing reports, ending at 100. |
| Routes.BuildTrace | server/routes.ts:831-875 | The progress values of a build's writes are 60, then the reported values, then 100. |
| Routes.Server.constructor | server/storage.ts:131 | The server starts on one empty store with no writes made. |
| Routes.Server.Log | server/routes.ts:36-40 | `addBuildLog` appends exactly the given line and leaves the projects alone. |
| Routes.Server.LogEach | server/routes.ts:58-60 | A loop of `addBuildLog` calls appends exactly one line per message, in order. |
| Routes.Server.Update | server/routes.ts:42-45 | `updateProject` merges the update into an existing record, leaves an unknown id alone and records the write. |
| Routes.Server.Upload | server/routes.ts:305-502 | A missing file, or one breaking an upload rule, is answered without touching the store. Otherwise the next id is created at `uploaded`/10. A failed save goes straight to `error`/0. Otherwise `uploaded`/15 follows, then `extracted`/25, or `error`/0 when extraction fails. Each path has its own log lines. |
| Routes.Server.AutoAnalyze | server/routes.ts:418-454 | The scheduled analysis stores `analyzed`/50 with the analysis and logs the detected framework. A failure only logs an error. |
| Routes.Server.Analyze | server/routes.ts:533-599 | An unknown id gets 404 with nothing written. Otherwise the record goes to `analyzing`/10, then `analyzed` or `error` at 50 as the structure is valid or not, with the analysis stored. A failing analyzer leaves `error`/0. |
| Routes.Server.RecordAnalysis | server/routes.ts:561-588 | The analysis results and the analysis are written to the record in two updates, and the logs are as before. |
| Routes.Server.RunStep | server/routes.ts:631-668 | One `/setup` step logs its heading and the stage's logs, sets its progress, and on failure logs the errors and sets `error`. |
| Routes.Server.RunSetup | server/routes.ts:617-808 | The body of `/setup` produces exactly `SetupLog`, `SetupWrites` and `SetupReply` for the stage outcomes given. |
| Routes.Server.SetupProject | server/routes.ts:602-818 | A missing project, or one without an analysis, is refused with nothing written. Otherwise the builder's stages run on the stored analysis and the handler's log, writes and reply follow. |
| Routes.Server.Replay | server/routes.ts:852-859 | The progress callback adds one log line and one progress write per report, leaving the record at the last reported progress. |
| Routes.Server.RecordBuild | server/routes.ts:862-892 | A finished build writes its outcome to the record and logs the closing lines, with the download line only when announced. |
| Routes.Server.RunBuild | server/routes.ts:845-892 | The analysis and build succeed exactly under `Builds`. The writes are the progress reports, then the outcome. |
| Routes.Server.Build | server/routes.ts:821-903 | An unknown id gets 404 with nothing written. Otherwise the record goes to `building`/60, the analysis and build run, and the outcome is recorded, with the build succeeding exactly under `Builds`. |
| Routes.Server.AutoStep | server/routes.ts:50-61 | One automatic step logs its heading and the stage's logs, then makes its one update. |
| Routes.Server.AutoSetup | server/routes.ts:31-115 | Without a project or analysis nothing is written. Otherwise the four stages run without stopping and the project ends `setup-complete`/60. |
| Routes.Server.RunAutoSetup | server/routes.ts:36-110 | The automatic setup writes exactly `AutoSetupLog` and `AutoSetupWrites` and leaves `setup-complete`/60. |
| Routes.Server.AutoBuild | server/routes.ts:128-207 | As `/build`, with its own opening line before `building`/60 and the download line after a success. |
| Routes.Server.Delete | server/routes.ts:951-968 | The project's logs and then the project are removed, everything else is kept, and the reply is a success whether the project existed or not. |
| Storage.OrNullText | server/storage.ts:68-73 | `s \|\| null`: absent or empty text becomes null, any other text is kept. |
| Storage.OrNullNumber | server/storage.ts:71-72 | `n \|\| null`: an absent or zero number becomes null, any other number is kept. |
| Storage.NewRecord | server/storage.ts:58-77 | The new record has the given id. Both times are `now`. The status defaults to `uploaded` and the progress to 0. The nullable fields take the `\|\| null` defaults, and the other fields are copied as given. |
| Storage.Pick | server/storage.ts:87-91 | A supplied key wins, and a missing one keeps the current value. |
| Storage.MergedKeepsIdentity | server/storage.ts:83-94 | An update keeps the id and the creation time and sets the update time. |
| Storage.MergedNothing | server/storage.ts:87-91 | An empty update changes only the update time. |
| Storage.MergedTwice | server/storage.ts:83-94 | Two updates in a row equal one update in which the later keys win. Repeating an update is the same as making it once. |
| Storage.StatusProgress | server/routes.ts:42-45 | A `{ status, progress }` update carries exactly those two keys. |
| Storage.LogsOfMembers | server/storage.ts:116-120 | A project's logs are exactly the stored logs that name it. |
| Storage.WithoutProjectMembers | server/storage.ts:122-128 | Clearing keeps exactly the logs of other projects. |
| Storage.WithoutIdsMembers | server/storage.ts:127 | Deleting a set of ids keeps exactly the logs whose ids are outside it. |
| Storage.ClearLeavesNone | server/storage.ts:122-128 | After clearing, the project has no logs. |
| Storage.ClearKeepsOthers | server/storage.ts:122-128 | Clearing one project leaves every other project's logs unchanged and in order. |
| Storage.LogsOfInOrder | server/storage.ts:116-120 | A project's logs come out in increasing id order, which is the order they were added. |
| Storage.WithoutIdsStep | server/storage.ts:127 | Deleting one more id is the same as deleting the larger id set. |
| Storage.WithoutOwnIds | server/storage.ts:122-128 | When the collected ids are exactly those of the project's logs, deleting them is clearing the project. |
| Storage.OwnIds | server/storage.ts:123-125 | The ids collected for a project are exactly the ids of its logs. |
| Storage.UserAdded | server/storage.ts:50-55 | Adding a user under the counter keeps the user table invariant with the counter moved on. |
| Storage.ProjectAdded | server/storage.ts:58-77 | Adding a project under the counter keeps the table invariant: every key is below the counter, and the keys are listed in increasing order. |
| Storage.ProjectReplaced | server/storage.ts:83-94 | Replacing a stored project keeps the invariant. |
| Storage.ProjectRemoved | server/storage.ts:96-98 | Removing a key keeps the invariant. |
| Storage.LogAdded | server/storage.ts:105-114 | Appending a log under the counter keeps the log ids increasing and below the counter. |
| Storage.LogsDeleted | server/storage.ts:122-128 | Deleting logs keeps the log invariant. |
| Storage.Remove | server/storage.ts:96-98 | The key order without the key holds exactly the other keys. |
| Storage.RemoveKeepsIncreasing | server/storage.ts:96-98 | Removing a key keeps the insertion order increasing. |
| Storage.MemStorage.constructor | server/storage.ts:30-37 | The tables start empty and every counter at 1. |
| Storage.MemStorage.GetUser | server/storage.ts:40-42 | Some user exactly for a stored id, and that user. |
| Storage.MemStorage.GetUserByUsername | server/storage.ts:44-48 | The user with that name and the smallest id, which is the first one created. None when no user has it. |
| Storage.MemStorage.CreateUser | server/storage.ts:50-55 | The user gets the counter's value as a fresh id, the counter moves on, and nothing else changes. |
| Storage.MemStorage.CreateProject | server/storage.ts:58-77 | The record is `NewRecord` under the counter's value. That id is fresh and above every existing id, the counter moves on, and nothing else changes. |
| Storage.MemStorage.GetProject | server/storage.ts:79-81 | Some record exactly for a stored id, and that record. |
| Storage.MemStorage.UpdateProject | server/storage.ts:83-94 | An unknown id returns none and changes nothing. Otherwise the merged record is returned and stored under the same key, and nothing else changes. |
| Storage.MemStorage.DeleteProject | server/storage.ts:96-98 | Returns true iff the id was present. Afterwards it is absent, so a second delete returns false. Nothing else changes. |
| Storage.MemStorage.GetAllProjects | server/storage.ts:100-102 | Every stored project once, in insertion order. |
| Storage.MemStorage.AddBuildLog | server/storage.ts:105-114 | The log gets the log counter's value, larger than every stored log id, and is appended. The project and user tables are untouched. |
| Storage.MemStorage.GetBuildLogs | server/storage.ts:116-120 | Exactly the project's logs, in the order they were added. |
| Storage.MemStorage.LogIdsOf | server/storage.ts:123-125 | The ids of the project's logs, in table order. |
| Storage.MemStorage.DeleteLog | server/storage.ts:127 | `buildLogs.delete(id)` removes only the log with that id. |
| Storage.MemStorage.DeleteLogs | server/storage.ts:127 | Deleting each id in turn removes exactly the logs with those ids. |
| Storage.MemStorage.ClearBuildLogs | server/storage.ts:122-128 | Afterwards the table is the old one without the project's logs. Other projects' logs keep their order, and nothing else changes. |
| Workspace.Read | server/services/fileManager.ts:43-45 | Reading succeeds exactly for a file and gives its content. |
| Workspace.EnsureDirectory | server/services/fileManager.ts:106-108 | `mkdir -p` succeeds iff no needed directory is a file. It then adds exactly those directories and keeps the files. |
| Workspace.WriteFile | server/services/fileManager.ts:47-49 | A write succeeds iff the path is not a directory and its parent exists. It then replaces or creates exactly that file. |
| Workspace.WriteData | server/services/fileManager.ts:47-49 | The same for an archive, whose size alone is kept. |
| Workspace.WriteFileFrame | server/services/fileManager.ts:47-49 | A write leaves every other file as it was. |
| Workspace.FileStats | server/services/fileManager.ts:82-92 | Statistics exist exactly for an existing path. A directory is flagged as one, and a file carries its size. |
| Workspace.ListFiles | server/services/fileManager.ts:60-69 | The names of the files directly in a directory: non-empty and without a separator. |
| Workspace.ListDirectories | server/services/fileManager.ts:71-80 | The names of the directories directly in a directory: non-empty and without a separator. |
| ProjectAnalyzer.OrElse | server/services/projectAnalyzer.ts:252-253 | `s \|\| d`: the default, or the text itself when it is present and non-empty. |
| ProjectAnalyzer.OrNum | server/services/projectAnalyzer.ts:292-294 | `n \|\| d`: the default, or the number itself when it is present and non-zero. |
| ProjectAnalyzer.OrNumber | server/services/projectAnalyzer.ts:469 | `n \|\| d` on a JavaScript number: the default when the number is absent, NaN or zero, otherwise the number itself. |
| ProjectAnalyzer.Spread | server/services/projectAnalyzer.ts:332 | A key of the existing configuration overrides the default. |
| ProjectAnalyzer.AnyMatchesIffExists | server/services/projectAnalyzer.ts:161-178 | `files.some(p)` holds exactly when some listed path satisfies `p`. |
| ProjectAnalyzer.SameMembersSameMatch | server/services/projectAnalyzer.ts:161-178 | `some` depends only on which paths are listed. |
| ProjectAnalyzer.FindFirst | server/services/projectAnalyzer.ts:238 | `find` gives none iff no path matches. Otherwise it gives the first listed path that matches: every path before it fails the test. |
| ProjectAnalyzer.Filter | server/services/projectAnalyzer.ts:360-377 | `filter` keeps exactly the matching paths, so the result is never longer than the list. |
| ProjectAnalyzer.FilterCounts | server/services/projectAnalyzer.ts:360-377 | Each matching path occurs in the result as often as in the list, and no other path occurs, so the `.length` counts count listed matches. |
| ProjectAnalyzer.FilterConcat | server/services/projectAnalyzer.ts:360-377 | Filtering two lists joined is filtering each and joining the results, so the result keeps the listing order. |
| ProjectAnalyzer.MissingFrom | server/services/projectAnalyzer.ts:481 | Exactly the required entries that no path contains, and no more entries than were required. |
| ProjectAnalyzer.MissingFromIsFilter | server/services/projectAnalyzer.ts:481 | The missing entries are the `filter` of the required list, so they keep its order and repetitions. |
| ProjectAnalyzer.MissingFromPair | server/services/projectAnalyzer.ts:478-481 | For a two-entry checklist such as `['lib/main.dart','pubspec.yaml']`, the first entry is reported before the second whenever both are missing. |
| ProjectAnalyzer.DepthOfChild | server/services/projectAnalyzer.ts:143 | Descending into a subdirectory raises the depth by one. |
| ProjectAnalyzer.ListedPaths | server/services/projectAnalyzer.ts:138-140 | Each listed name becomes its joined path, with `\` turned into `/`. |
| ProjectAnalyzer.GetAllFiles | server/services/projectAnalyzer.ts:128-156 | The loops build exactly `AllFiles`: a directory's files in listing order, then those of its subdirectories, down to depth 10. |
| ProjectAnalyzer.GetSubdirFiles | server/services/projectAnalyzer.ts:143-149 | The recursive calls over the subdirectories build exactly `SubdirFiles`. Hidden directories and `node_modules` are skipped. |
| ProjectAnalyzer.AllFilesAreListedFiles | server/services/projectAnalyzer.ts:128-156 | Every path returned names a file listed in some directory at most ten deep. |
| ProjectAnalyzer.SubdirFilesAreListedFiles | server/services/projectAnalyzer.ts:143-149 | The same for the subdirectory part. |
| ProjectAnalyzer.DetectFramework | server/services/projectAnalyzer.ts:158-186 | The framework is one of the five names. It is `unknown` exactly when the language and the project type are. |
| ProjectAnalyzer.DetectionIgnoresOrder | server/services/projectAnalyzer.ts:158-186 | The detection depends only on which paths are present, not on their order or repetition. |
| ProjectAnalyzer.DetectFrameworkRules | server/services/projectAnalyzer.ts:158-186 | The rules apply first-match: React Native, Flutter, Android, then Cordova. Cordova needs one path holding both `config.xml` and `www`. An Android project is Kotlin iff some path ends in `.kt`, else Java iff some path ends in `.java`. |
| ProjectAnalyzer.CountKind | server/services/projectAnalyzer.ts:188-207 | A kind's count never exceeds the number of paths. |
| ProjectAnalyzer.KindCountsBounded | server/services/projectAnalyzer.ts:188-207 | Each path falls into at most one bucket, so the four counts together never exceed the number of paths. |
| ProjectAnalyzer.AnalyzeFileTypes | server/services/projectAnalyzer.ts:188-207 | The loop adds each kind's count to its counter and changes nothing else. |
| ProjectAnalyzer.EstimatedMinutes | server/services/projectAnalyzer.ts:213-219 | The estimate lies between 2 and 11 minutes. |
| ProjectAnalyzer.EstimateMonotone | server/services/projectAnalyzer.ts:213-219 | More source files or dependencies never lower the estimate. |
| ProjectAnalyzer.SizeClass | server/services/projectAnalyzer.ts:224-230 | Small iff fewer than 50 files, Large iff at least 200, else Medium. |
| ProjectAnalyzer.CalculateProjectMetrics | server/services/projectAnalyzer.ts:209-231 | Writes the `m-(m+2) minutes` text and the size class, and nothing else. |
| ProjectAnalyzer.LoadPackageJson | server/services/projectAnalyzer.ts:247-249 | Reading a path that is not a file fails. |
| ProjectAnalyzer.Keys | server/services/projectAnalyzer.ts:257-258 | `Object.keys(o \|\| {})` gives the keys in order, and none for a missing object. |
| ProjectAnalyzer.Lookup | server/services/projectAnalyzer.ts:266-267 | A value found is one paired with the key. |
| ProjectAnalyzer.LookupInFinds | server/services/projectAnalyzer.ts:266-267 | A key is found exactly when some pair of the parsed object has it. |
| ProjectAnalyzer.LookupInIsLast | server/services/projectAnalyzer.ts:266-267 | The value found is that of the last pair with the key, as `JSON.parse` keeps the last of duplicate keys. |
| ProjectAnalyzer.KeepLowerAlnum | server/services/projectAnalyzer.ts:254 | `replace(/[^a-z0-9]/g, '')` leaves only lower-case letters and digits, never lengthening the text. |
| ProjectAnalyzer.KeepLowerAlnumKeepsAll | server/services/projectAnalyzer.ts:254 | Text made only of lower-case letters and digits is kept whole. |
| ProjectAnalyzer.PackageSuffixIdempotent | server/services/projectAnalyzer.ts:254 | Deriving the package suffix from a derived suffix changes nothing. |
| ProjectAnalyzer.ApplyPackageJson | server/services/projectAnalyzer.ts:246-278 | An unreadable package.json adds one error. Otherwise the step sets the name (default `react-native-app`), the package `com.reactnative.` plus the cleaned name, the dependency keys and their counts, the version (default `1.0.0`), and the React Native and Node versions when present. |
| ProjectAnalyzer.ApplyReactNativeGradle | server/services/projectAnalyzer.ts:281-318 | Without `android/app/build.gradle` nothing changes. An unreadable one adds one warning. A readable one sets the SDK levels (defaults 33/21/33), the application id, version code and version name. |
| ProjectAnalyzer.EntryCheckPassesWithPackageJson | server/services/projectAnalyzer.ts:336-344 | The entry files include `package.json`, so the entry-point check passes whenever a package.json was found. |
| ProjectAnalyzer.ReactNativeConfig | server/services/projectAnalyzer.ts:321-333 | Every SDK level, version and variant key and the build tools are set. A target SDK or version name already found overrides its default. A missing application id becomes the package name. |
| ProjectAnalyzer.AnalyzeReactNative | server/services/projectAnalyzer.ts:233-381 | Without a package.json the step records the missing file and its error and stops. Otherwise the package.json, build.gradle, configuration and file checks run, and the file counts are kept. |
| ProjectAnalyzer.AnalyzeReactNativeFiles | server/services/projectAnalyzer.ts:246-380 | Once a package.json is found, the configuration has every key filled in and no entry point is reported missing. |
| ProjectAnalyzer.ConfigureReactNative | server/services/projectAnalyzer.ts:246-333 | The package.json, build.gradle and configuration steps in that order. |
| ProjectAnalyzer.CheckReactNativeFiles | server/services/projectAnalyzer.ts:336-380 | Adds the missing entry point, the platform warnings and the source structure, and sets `hasValidStructure` exactly when nothing is missing. |
| ProjectAnalyzer.FlutterVersion | server/services/projectAnalyzer.ts:409-411 | The version name never contains `+`. |
| ProjectAnalyzer.FlutterVersionWithCode | server/services/projectAnalyzer.ts:409-411 | `name+digits` gives the name and the digits' value as the version code. |
| ProjectAnalyzer.FlutterVersionWithoutCode | server/services/projectAnalyzer.ts:409-411 | Without `+` the whole value is the name and the code is 1. |
| ProjectAnalyzer.FlutterVersionWithNaNCode | server/services/projectAnalyzer.ts:409-411 | A code part with no leading digits, as in `1.0.0+abc`, gives NaN as the version code. |
| ProjectAnalyzer.PubspecFactsOf | server/services/projectAnalyzer.ts:400-456 | The name is the `name:` line's value. A Flutter constraint holds no quote and no line end. Dependencies, and dev dependencies, are found exactly when their section pattern matches. Every dependency name kept is non-empty, has no `:` and is not `flutter` (for dev dependencies, `flutter_test`). |
| ProjectAnalyzer.SectionNames | server/services/projectAnalyzer.ts:425-456 | Names exist exactly for a section found. Each name, taken from the section's `split('\n')` lines, is a dependency name. |
| ProjectAnalyzer.FlutterConfig | server/services/projectAnalyzer.ts:459-471 | SDK levels 34/21/34, the Flutter tool chain and the variants, each overridden by a key already present. The application id is `com.example.<name>` or `com.example.app`. A version code already present, NaN included, is kept. |
| ProjectAnalyzer.ApplyPubspec | server/services/projectAnalyzer.ts:396-475 | The name, version, Flutter constraint and dependency lists with their counts go into the analysis, then the configuration. The version code is that of `FlutterVersion`, NaN included. |
| ProjectAnalyzer.RecommendedWarnings | server/services/projectAnalyzer.ts:484-488 | At most one warning per recommended path. |
| ProjectAnalyzer.RecommendedWarningsAreMissing | server/services/projectAnalyzer.ts:484-488 | The warnings name exactly the missing recommended paths, in their order. |
| ProjectAnalyzer.PushRecommendedWarnings | server/services/projectAnalyzer.ts:484-488 | The `forEach` loop appends exactly `RecommendedWarnings`. |
| ProjectAnalyzer.ManifestPackage | server/services/projectAnalyzer.ts:509-522 | A package is found only when an Android manifest is listed. |
| ProjectAnalyzer.CheckFlutterFiles | server/services/projectAnalyzer.ts:478-524 | Records the missing required files, the recommended-file warnings and the source structure. Any manifest package is taken, and `hasValidStructure` holds exactly when nothing is missing. |
| ProjectAnalyzer.AnalyzeFlutter | server/services/projectAnalyzer.ts:383-525 | Without a pubspec the step records `pubspec.yaml` as missing with one error and stops. Otherwise it records exactly the missing files of `['lib/main.dart','pubspec.yaml']`, an unreadable pubspec's one error, the recommended warnings, and the name and dependencies of a readable pubspec. A `version:` value gives the version name before `+` and the version code after it, kept even when `parseInt` makes it NaN. |
| ProjectAnalyzer.AndroidSdks | server/services/projectAnalyzer.ts:546-550 | The SDK levels are never zero. A non-zero target SDK in the file is taken. |
| ProjectAnalyzer.AnalyzeAndroid | server/services/projectAnalyzer.ts:527-565 | The configuration is replaced by four keys, and the missing files are the required ones no path contains. A readable `app/build.gradle` sets the SDK levels, an unreadable one adds one error, and the source count is the `.java`/`.kt` paths. |
| ProjectAnalyzer.ReadAndroidGradle | server/services/projectAnalyzer.ts:529-556 | The four keys and the SDK levels of a readable `app/build.gradle`, or the one error of an unreadable one. |
| ProjectAnalyzer.AnalyzeCordova | server/services/projectAnalyzer.ts:567-604 | The configuration is replaced by four keys, and the missing files are the required ones no path contains. A readable `config.xml` sets the name and version, an unreadable one adds one error, and the source count is the `.js`/`.html`/`.css` paths. |
| ProjectAnalyzer.ReadCordovaConfig | server/services/projectAnalyzer.ts:569-595 | The four keys and the name and version of a readable `config.xml`, or the one error of an unreadable one. |
| ProjectAnalyzer.AnalyzeProject | server/services/projectAnalyzer.ts:60-126 | The total is the number of listed files. An undetected framework becomes `generic-mobile` with exactly the one detection warning. The counts, size class and estimate are those of the listed files, each framework's missing files are as its step defines them, and `hasValidStructure` holds iff no error was recorded. |
| ProjectAnalyzer.AnalyzeFramework | server/services/projectAnalyzer.ts:99-115 | The switch runs the detected framework's step and keeps the file counts. The default branch sets the generic-mobile configuration and one warning. |
| Manifests.FirstFromIsLeftmost | server/services/projectAnalyzer.ts:606-610 | `String.prototype.match` finds a match iff one exists, and the one it finds is the leftmost. |
| Manifests.GradleNumberAt | server/services/projectAnalyzer.ts:608 | A match of `key\s+(\d+)` starts with the key. |
| Manifests.ExtractGradleValueIsFirstMatch | server/services/projectAnalyzer.ts:606-610 | `extractGradleValue` gives none iff the pattern matches nowhere. Otherwise it gives the number at the leftmost match. |
| Manifests.GradleStringAt | server/services/projectAnalyzer.ts:297-305 | A match of `key\s+"([^"]+)"` at a position is the key, a non-empty run of blanks, then a non-empty value without quotes between two quotes. |
| Manifests.GradleStringAtMatches | server/services/projectAnalyzer.ts:297-305 | Conversely, the key, then at least one blank, a quote, at least one character other than a quote and a closing quote match there, and the capture is exactly the characters between the quotes. |
| Manifests.ExtractGradleString | server/services/projectAnalyzer.ts:297-313 | An application id or version name found is non-empty and holds no quote. |
| Manifests.ExtractGradleStringIsFirstMatch | server/services/projectAnalyzer.ts:297-313 | None iff the pattern matches nowhere. Otherwise the value at the leftmost match. |
| Manifests.LineValueIsTrimmed | server/services/projectAnalyzer.ts:401-403 | A value read from `^key\s*(.+)$` is trimmed: it has no white space at either end. |
| Manifests.ParseIntDigits | server/services/projectAnalyzer.ts:308 | `parseInt` of a run of digits is its value. |
| Manifests.ParseIntNegative | server/services/projectAnalyzer.ts:410 | `parseInt` of a minus sign and digits is the negated value. |
| Manifests.ParseIntStopsAtNonDigit | server/services/projectAnalyzer.ts:410 | `parseInt` stops at the first character that is not a digit, so `12abc` gives 12. |
| Manifests.ParseIntNaN | server/services/projectAnalyzer.ts:410 | Text that, after leading blanks, starts with neither a sign nor a digit gives NaN. |
| Manifests.LineValueBlank | server/services/projectAnalyzer.ts:401-407 | Only blanks after the key, one of them not a line end, still match `^key\s*(.+)$`: the value is "". |
| Manifests.AttributeAt | server/services/projectAnalyzer.ts:514 | A match of `package="([^"]+)"` at a position is `package="`, a non-empty value without quotes and a closing quote, at that position. |
| Manifests.ExtractAttribute | server/services/projectAnalyzer.ts:514 | The value found is non-empty, holds no quote, and stands quoted after the attribute name in the text. |
| Manifests.LazyAt | server/services/projectAnalyzer.ts:587-588 | A match of `open(.*?)close` at a position is `open`, a value without line terminators and `close` there, and `close` occurs nowhere earlier inside the value: the shortest match. |
| Manifests.LazyFrom | server/services/projectAnalyzer.ts:587-588 | The lazy scan stops at the first `close` before a line terminator, and the value is the text scanned. |
| Manifests.ExtractLazy | server/services/projectAnalyzer.ts:587-588 | The text found stands between `open` and `close` in the text, on one line. |
| Manifests.SectionEnd | server/services/projectAnalyzer.ts:425-442 | The position found is the first from the start index where the lookahead holds: an ASCII letter at a line start (after `\n`, `\r`, U+2028 or U+2029), a `\n` at the end of the text or before another line terminator, or, for `dependencies:`, `\ndev_dependencies:`. None is found iff there is no such position. |
| Manifests.SectionAt | server/services/projectAnalyzer.ts:425-442 | A match at a position is the header at a line start, then the shortest text after which the lookahead holds. There is none exactly when the header is not at a line start there or no later position satisfies the lookahead. |
| Manifests.SectionIsFirstMatch | server/services/projectAnalyzer.ts:425-442 | The section is none iff the pattern matches at no position. Otherwise it is the capture at the leftmost match. |
| Manifests.SectionAfterFirstHeader | server/services/projectAnalyzer.ts:425-442 | The section is decided by the first header at a line start: a later header cannot find an end the first one missed. |
| Manifests.EnvironmentEnd | server/services/projectAnalyzer.ts:415 | The position found is the first from the start index that is the end of the text or a `\n` before a word character. |
| Manifests.Environment | server/services/projectAnalyzer.ts:415 | The section is none exactly when the text holds no `environment:`. The capture never holds a `\n` before a word character. |
| Manifests.EnvironmentAfterFirst | server/services/projectAnalyzer.ts:415 | After the first `environment:`, the capture is the shortest text that the end of the text or a `\n` before a word character follows. |
| Manifests.FlutterConstraint | server/services/projectAnalyzer.ts:415-421 | A constraint is found only in an `environment:` section, and it holds no quote and no line end. |
| Manifests.FlutterAt | server/services/projectAnalyzer.ts:417 | A match of `flutter:\s*["']?([^"'\n]+)["']?` at a position starts with `flutter:` there, and its trimmed capture holds no quote and no line end. |
| Manifests.FlutterValue | server/services/projectAnalyzer.ts:417 | A constraint is found only in text containing `flutter:`, and it holds no quote and no line end. |
| Manifests.FlutterQuoted | server/services/projectAnalyzer.ts:417 | `flutter: "v"` gives `v` trimmed, without its quotes. |
| Manifests.FlutterNextLine | server/services/projectAnalyzer.ts:417 | `\s*` runs over a line end, so a constraint on the next line is still found. |
| Manifests.FlutterBlank | server/services/projectAnalyzer.ts:417-419 | Only blanks after `flutter:`, one of them not a line end, give the constraint "". |
| Manifests.FlutterEmptyQuotes | server/services/projectAnalyzer.ts:417-419 | `flutter: ""` gives the constraint "": the regex gives back the blank before the quotes and captures it. |
| Manifests.DependencyNames | server/services/projectAnalyzer.ts:427-435 | At most one name per line, each non-empty, without `:` and not the excluded name. |
| Manifests.DependencyName | server/services/projectAnalyzer.ts:429-435 | A name kept from one line is a dependency name. |
| Manifests.NameBeforeColon | server/services/projectAnalyzer.ts:432-433 | The text before the first `:`, trimmed, when it is a dependency name. |
| ApkBuilder.ValidateBuildRequirements | server/services/apkBuilder.ts:289-322 | No error iff the framework is one of the five supported. Otherwise exactly `Unsupported framework: X`. |
| ApkBuilder.EssentialFiles | server/services/apkBuilder.ts:342-357 | At most two files, and none for generic-mobile and unknown frameworks. |
| ApkBuilder.ValidateProjectStructure | server/services/apkBuilder.ts:324-340 | The loop returns true iff every essential file exists. |
| ApkBuilder.MissingEssential | server/services/apkBuilder.ts:324-340 | A missing essential file fails the structure check. |
| ApkBuilder.InstallDependencies | server/services/apkBuilder.ts:672-716 | The stage succeeds with no error whatever the commands do. |
| ApkBuilder.SetupSdkAndEnvironment | server/services/apkBuilder.ts:749-790 | The stage succeeds with no error whatever the probes find. |
| ApkBuilder.InstallBuildTools | server/services/apkBuilder.ts:793-840 | The stage succeeds with no error and ends its log with the completion line. |
| ApkBuilder.BuildCommand | server/services/apkBuilder.ts:985-1051 | A build command exists exactly for the four named frameworks. |
| ApkBuilder.CreateIfAbsent | server/services/apkBuilder.ts:940-982 | One "create if absent" step only adds. An existing path is left as it is, a new path holds the step's content, and only the path and its parent directories appear. Once the creator has failed, the step does nothing. |
| ApkBuilder.RunSteps | server/services/apkBuilder.ts:843-982 | The steps in order only add files and directories and keep the earlier log. Without failure every step's path exists. Every new path is one a step may make, and every new file holds its step's content. |
| ApkBuilder.CreatorSteps | server/services/apkBuilder.ts:724-737 | Generic and unknown frameworks have no creator steps. |
| ApkBuilder.DetectAndCreateMissingFiles | server/services/apkBuilder.ts:719-746 | The stage always succeeds, with at most one error, a log that opens with the scan line, and the creator's tree. |
| ApkBuilder.CreationNeverOverwrites | server/services/apkBuilder.ts:843-982 | A creator never replaces a file that exists, and each new file holds its step's content. |
| ApkBuilder.RunStepsIdempotent | server/services/apkBuilder.ts:843-982 | When every step's path exists, running the steps changes nothing and logs nothing. |
| ApkBuilder.CreationIdempotent | server/services/apkBuilder.ts:843-982 | Running a creator that did not fail a second time on its own output changes nothing and logs nothing. |
| ApkBuilder.CreationCompletesStructure | server/services/apkBuilder.ts:843-957 | For Flutter and React Native, a creator that does not fail leaves every essential file present. |
| ApkBuilder.NotCreated | server/services/apkBuilder.ts:843-982 | A path no step may make stays missing. |
| ApkBuilder.AndroidStepsMissManifest | server/services/apkBuilder.ts:960-974 | No step of the Android creator may make `src/main/AndroidManifest.xml`. |
| ApkBuilder.AndroidManifestStaysMissing | server/services/apkBuilder.ts:960-974 | A project without `src/main/AndroidManifest.xml` still lacks it after the Android creator. |
| ApkBuilder.CordovaStepsMissIndex | server/services/apkBuilder.ts:976-982 | No step of the Cordova creator may make `www/index.html`. |
| ApkBuilder.CordovaIndexStaysMissing | server/services/apkBuilder.ts:976-982 | A project without `www/index.html` still lacks it after the Cordova creator. |
| ApkBuilder.AndroidManifestNotWhereChecked | server/services/apkBuilder.ts:348 | The Android creator writes its manifest under `app/src/main`, while the structure check wants `src/main/AndroidManifest.xml`. A project without that file fails the check. |
| ApkBuilder.CordovaNeedsOwnIndex | server/services/apkBuilder.ts:350 | The Cordova creator makes no `www/index.html`, so a project without one fails the structure check. |
| ApkBuilder.NoTemplateIff | server/services/apkBuilder.ts:159-169 | A missing path gets no file exactly when it names none of the four known files. |
| ApkBuilder.CreateMissingFiles | server/services/apkBuilder.ts:151-170 | The loop's result is exactly `CreateAll` over the analysis's missing files. |
| ApkBuilder.CreateAllStep | server/services/apkBuilder.ts:152-169 | One more iteration after successful ones is one `CreateOne`. |
| ApkBuilder.CreateAllStopped | server/services/apkBuilder.ts:152-169 | Once an iteration has failed, the later files do not run and the failure stands. |
| ApkBuilder.CreateAllWritesTemplates | server/services/apkBuilder.ts:151-170 | Every missing file with a template holds it afterwards, and every other file is kept. |
| ApkBuilder.CreateOneEffect | server/services/apkBuilder.ts:153-168 | One iteration writes its template over the file, even one that exists, and keeps every other file. |
| ApkBuilder.FirstFive | server/services/apkBuilder.ts:546 | `slice(0, 5)` keeps at most five of the names. |
| ApkBuilder.SubdirAssets | server/services/apkBuilder.ts:546-556 | No more entries than files. |
| ApkBuilder.SubdirAssetsMembers | server/services/apkBuilder.ts:546-556 | An asset folder contributes exactly its first five files that are not directories and are under 1 MiB, at `assets/flutter_assets/<sub>/<file>`. |
| ApkBuilder.FolderAssetsBounded | server/services/apkBuilder.ts:546 | At most five entries per folder. |
| ApkBuilder.ExistingFiles | server/services/apkBuilder.ts:606-620 | No more entries than names. |
| ApkBuilder.ExistingFilesMembers | server/services/apkBuilder.ts:606-620 | The entries are exactly the listed names that are files, under the prefix, with their content. |
| ApkBuilder.ReactNativeAssets | server/services/apkBuilder.ts:584-591 | A bundle entry exactly when `index.js` is a file. |
| ApkBuilder.CordovaAssets | server/services/apkBuilder.ts:593-604 | An entry exactly when `www` exists and `www/index.html` is a file. |
| ApkBuilder.GeneratedManifestValues | server/services/apkBuilder.ts:414-426 | The archive's manifest names the package `com.<framework>.app`. A missing or empty version and name become `1.0.0` and `Mobile App`, and a missing or zero SDK level becomes 21 or 33. Any other value is taken as it is. |
| ApkBuilder.GeneratedManifestIgnoresApplicationId | server/services/apkBuilder.ts:415 | The application id a project declares never changes the archive's manifest. |
| Templates.ApkManifestAttributes | server/services/apkBuilder.ts:419-450 | The archive's manifest text carries `package`, `android:versionCode="1"`, `android:versionName`, `android:minSdkVersion`, `android:targetSdkVersion` and `android:label` with the values it is given. |
| Templates.AppGradleSettings | server/services/apkBuilder.ts:205-227 | The module-level build script compiles against and targets the target SDK level and sets the minimum SDK level it is given. |
| Templates.MetaInfDate | server/services/apkBuilder.ts:486-498 | `META-INF/MANIFEST.MF` carries the `Built-Date:` line with the date it is given. |
| ApkBuilder.ApkEntriesLayout | server/services/apkBuilder.ts:372-407 | The archive always starts with the manifest and ends with the three launcher icons, each holding the bytes `generateAppIcon` returns as written. |
| ApkBuilder.AddExistingFiles | server/services/apkBuilder.ts:606-620 | The loop builds exactly `ExistingFiles`. |
| ApkBuilder.AddSubdirAssets | server/services/apkBuilder.ts:543-560 | The inner loop builds exactly `SubdirAssets` of the folder's first five files. |
| ApkBuilder.AddAssetFolders | server/services/apkBuilder.ts:536-562 | Every folder under `assets`, in listing order, or nothing without `assets`. |
| ApkBuilder.AddFlutterProjectFiles | server/services/apkBuilder.ts:564-580 | The copies of `pubspec.yaml` and `lib/main.dart` that are files. A `pubspec.yaml` that exists but cannot be read ends the block, and nothing is copied. |
| ApkBuilder.AddFlutterAssets | server/services/apkBuilder.ts:534-581 | The asset folders, then the two project files. |
| ApkBuilder.AddFrameworkAssets | server/services/apkBuilder.ts:513-532 | Exactly the framework's assets. Android and generic projects take the generic ones. |
| ApkBuilder.ApkDirReady | server/services/apkBuilder.ts:359-364 | After the release directory is ensured it exists and is the archive's directory. The archive path is a directory exactly when it was one before. |
| ApkBuilder.ApkPathWritable | server/services/apkBuilder.ts:359-367 | Once the release directory is ensured, writing the archive succeeds exactly when its path was not a directory. |
| ApkBuilder.PackageProjectAsApk | server/services/apkBuilder.ts:372-412 | The archive of `ApkEntries` is written at the release path. When that path is a directory, the fallback fails the same way and the tree is unchanged. |
| ApkBuilder.CreateRealApk | server/services/apkBuilder.ts:359-370 | Succeeds iff the release directory can be made and the archive path is not a directory. Success adds exactly those directories and the archive. A failure leaves the files as they were. |
| ApkBuilder.FailureMessage | server/services/apkBuilder.ts:146 | `error?.message \|\| 'Unknown error'` is never empty. |
| ApkBuilder.SummaryLines | server/services/apkBuilder.ts:134-141 | The five summary lines of a successful build. |
| ApkBuilder.ApkGeneration | server/services/apkBuilder.ts:93-143 | Phase 4 succeeds iff the archive can be written. On success: no error, the release path with the written size, the summary lines last and the reports 65 to 100. On failure: one `Build failed:` error and the final report 100. No file other than the archive changes. |
| ApkBuilder.SetupStages | server/services/apkBuilder.ts:46-82 | The set-up stages extend the log and leave the creator's tree, keeping every existing file. |
| ApkBuilder.BuildApk | server/services/apkBuilder.ts:25-149 | Success holds iff the framework is supported, every essential file exists after the creator, and the archive can be written. An unsupported framework stops after validation. A failure carries exactly one error, and success carries the archive path and size. The reports end in one of the four ways, and no file other than the archive changes. |
| ApkBuilder.GroupProgresses | server/services/apkBuilder.ts:33-144 | The report groups carry the progress values 10 10, 25 40 55, 65 70 75 85 and 95 100. |
| ApkBuilder.FirstReport | server/services/apkBuilder.ts:33 | Every build starts with the same report. |
| ApkBuilder.ProgressMonotone | server/services/apkBuilder.ts:33-145 | However a build ends, its progress never goes back and ends at 100. |
| Payloads.U32LE | server/services/apkBuilder.ts:468 | A 32-bit value is four bytes. |
| Payloads.ReadWrittenU32LE | server/services/apkBuilder.ts:468 | Reading back a written little-endian value gives the value, wherever it sits. |
| Payloads.Zeros | server/services/apkBuilder.ts:461 | `Buffer.alloc(n)` is n zero bytes. |
| Payloads.Fill | server/services/apkBuilder.ts:462 | `buf.fill(v)` sets every byte to v. |
| Payloads.WriteUInt32LE | server/services/apkBuilder.ts:468 | The four bytes at the offset become the value, least significant first, and the rest stays. |
| Payloads.CopyInto | server/services/apkBuilder.ts:465 | The source is copied at the offset, and the rest stays. |
| Payloads.DexImageLayout | server/services/apkBuilder.ts:452-471 | 8192 bytes: the magic `dex\n035\0`, the checksum 0x12345678 read back at offset 8, and zeros from offset 12. |
| Payloads.GenerateClassesDex | server/services/apkBuilder.ts:452-471 | The buffer filled in place is exactly the DEX image. |
| Payloads.ArscImageLayout | server/services/apkBuilder.ts:473-483 | 4096 bytes: the type 0x080C0003 at offset 0, its own size at offset 4, and zeros from offset 8. |
| Payloads.GenerateResourcesArsc | server/services/apkBuilder.ts:473-483 | The buffer filled in place is exactly the resource-table image. |
| Payloads.GenerateRsaFiller | server/services/apkBuilder.ts:506-508 | 256 bytes, all the ASN.1 sequence tag 0x30. |
| Payloads.Chunks | server/services/apkBuilder.ts:622-648 | Every chunk read has a four-byte type and a four-byte CRC. |
| Payloads.AppIconWith | server/services/apkBuilder.ts:622-648 | The icon is the PNG signature followed by the IHDR, IDAT and IEND chunks. |
| Payloads.ChunksOfChunk | server/services/apkBuilder.ts:622-648 | A chunk whose declared length fits its data is read off the front of the stream. |
| Payloads.IhdrFields | server/services/apkBuilder.ts:624-630 | The IHDR data is 13 bytes: width 48, height 48, bit depth 8 and colour type 2 (RGB). The IDAT data is 10 bytes. |
| Payloads.IconChunksRead | server/services/apkBuilder.ts:622-648 | The corrected icon's chunk stream reads as IHDR, IDAT and IEND with their data and CRCs. |
| Payloads.AppIconAsWrittenIsMalformed | server/services/apkBuilder.ts:632-637 | As written, the IDAT chunk declares 11 data bytes but carries 10, so the stream does not divide into chunks. |
| Payloads.AppIconIsWellFormed | server/services/apkBuilder.ts:622-648 | With the declared length 10, the icon divides into exactly three chunks, IHDR, IDAT and IEND. Its IHDR declares 48 by 48, bit depth 8 and colour type 2. |

## Left out

- Shell commands: `execAsync`, `executeCommand` and their timeouts. Each command's outcome is a parameter of type `string -> Exec`, and it only chooses log lines.
- The file system: `fs/promises`, `fs.access` and `readdir`.
  - The project directory is a value: files by path, a set of directories and a creation order.
  - A directory lists its entries in creation order, though the platform fixes no order.
  - Saving and extracting the uploaded archive and `deleteDirectory` are not modelled. `/upload` receives their outcome as a failure message or none.
- AdmZip: only the list of entries and the written archive's size are modelled, and the size is a parameter. No ZIP bytes are produced.
- `JSON.parse` of a package.json is a parameter. `JSON.stringify` of the stored analysis is not modelled: the record holds the analysis as a value.
- Clocks: `Date`, `Date.now()` and `toISOString` are one reading per request, passed in.
- `formatFileSize` and the MB figure of a build: these are floating-point formatting with `Math.log` and `toFixed`. They are parameters.
- `setTimeout` scheduling and concurrency: the automatic analysis, setup and build are separate methods, called in order. Two requests on one project at once are not modelled.
- The progress callback: `buildApk` returns its reports, and the handler replays them into the store afterwards. Progress lines from several builds cannot interleave.
- The `catch` branches of the handlers (500 replies), of `triggerAutomaticSetup` and of `triggerAutomaticBuild`: the store and the builder model raise no exceptions these would catch.
- The stage-failure branches: the failure exits of `buildApk` after its set-up stages, and of `/setup` after each `!stage.success`. No stage ever fails, so `SetupStages` and `BuildApk` leave these exits out. `RunSetup` models them for arbitrary stage outcomes.
- Routes.Server.Upload: the multipart parsing of multer is not modelled. The file arrives already parsed.
- The route handlers `GET /api/projects/:id`, `GET /api/projects`, `GET /api/projects/:id/download`, `GET /api/projects/:id/logs` and `DELETE /api/projects/:id/logs`: each makes a single store read or `clearBuildLogs` call, and these are modelled in `Storage.MemStorage`.
- The "Unable to validate ZIP" catch of `/validate`: the buffer is always readable here.
- Strings.ToLower: defined on ASCII letters only; other characters keep their case.
- The browser validator's `slice(0, 4).arrayBuffer()`: the bytes arrive as an optional value, where none stands for a read that throws.
- ProjectAnalyzer.Keys: the parsed object is a list of pairs, and the `parse` parameter is taken to give each key once, as `JSON.parse` does. A list with a repeated key would count it twice.
- ApkBuilder.ApkPath: paths are relative to the project directory. The source stores `path.join(projectPath, ...)`, so the stored `apkPath` there also starts with the project directory.
- ApkBuilder.CreateMissingFiles: the source never calls `createMissingFiles`. It is modelled, but no caller uses it.
- ApkBuilder.BuildApk: the outer `catch` is reached only by a failed creation of the release directory or a failed archive write. Other exceptions are not modelled.
- Payloads.Chunks: reads the chunk boundaries of the icon only. It checks no CRC and does not inflate the image data, so the model says nothing about whether an image decoder accepts the icon.
- Console logging: dropped.
- The user table: modelled in `Storage.MemStorage`, but no route uses it.

## Findings

| source | as written | input that shows it | evidently intended | confidence | as-written member | corrected member |
|---|---|---|---|---|---|---|
| server/services/apkBuilder.ts:632-637 | The IDAT chunk of the launcher icon declares a length of 0x0B (11 bytes) but carries 10 data bytes, so a PNG reader misreads the CRC and the IEND chunk | The constant icon `generateAppIcon` returns, which takes no input | A declared length of 0x0A, so that the icon divides into IHDR, IDAT and IEND chunks | not executed | Payloads.AppIconAsWrittenIsMalformed | Payloads.AppIconIsWellFormed |
