/** The browser-side checks on a chosen archive before it is uploaded:
    `FileValidator.validateFile`, `validateZipStructure`, `createUploadError`
    and `getFrameworkHints`. Errors, warnings and hints are kept as values of
    small datatypes; the functions named `...Message` give the text the user
    sees for each. */
module FileValidation {
  import opened Wrappers
  import opened Strings
  import opened UploadRules

  /** A browser `File`: its name, size in bytes, MIME type (empty when the
      browser does not know it) and last-modified time. */
  datatype File = File(name: string, size: nat, mimeType: string, lastModified: int)

  datatype FileInfo = FileInfo(name: string, size: nat, mimeType: string, lastModified: int)

  /** The errors the validator can report, in the order it checks for them. */
  datatype FileError = InvalidType | Empty | TooLarge | NameTooLong | InvalidCharacters | NotZipArchive | Unreadable

  datatype FileWarning = UnexpectedType(mimeType: string) | LargeFile

  datatype ValidationResult = ValidationResult(
    isValid: bool, errors: seq<FileError>, warnings: seq<FileWarning>, fileInfo: FileInfo)

  /** The text of an error; `formatSize` stands for `formatFileSize`, applied
      to the file's size and to the limit. */
  function ErrorMessage(e: FileError, size: nat, formatSize: nat -> string): string {
    match e
    case InvalidType => "Invalid file type. Only .zip files are supported"
    case Empty => "File is empty"
    case TooLarge => "File size (" + formatSize(size) + ") exceeds maximum limit (" + formatSize(MaxFileSize) + ")"
    case NameTooLong => "File name is too long (maximum 255 characters)"
    case InvalidCharacters => "File name contains invalid characters"
    case NotZipArchive => "File is not a valid ZIP archive"
    case Unreadable => "Unable to validate ZIP file structure"
  }

  function WarningMessage(w: FileWarning): string {
    match w
    case UnexpectedType(m) => "Unexpected file type: " + m + ". Expected ZIP format"
    case LargeFile => "Large file detected. Upload may take longer"
  }

  /** Position of an error in checking order. */
  function ErrorRank(e: FileError): nat {
    match e
    case InvalidType => 0
    case Empty => 1
    case TooLarge => 2
    case NameTooLong => 3
    case InvalidCharacters => 4
    case NotZipArchive => 5
    case Unreadable => 6
  }

  predicate ErrorsInOrder(es: seq<FileError>) {
    forall i, j :: 0 <= i < j < |es| ==> ErrorRank(es[i]) < ErrorRank(es[j])
  }

  /** When `validateFile` reports an error. */
  predicate Fails(f: File, e: FileError) {
    match e
    case InvalidType => !HasZipExtension(f.name)
    case Empty => f.size == 0
    case TooLarge => f.size > MaxFileSize
    case NameTooLong => LongName(f.name)
    case InvalidCharacters => HasPathCharacters(f.name)
    case _ => false
  }

  /** `[e]` when the check fails, else nothing. */
  function IfFails(f: File, e: FileError): seq<FileError> {
    if Fails(f, e) then [e] else []
  }

  /** A file `validateFile` accepts: a `.zip` name of at most 255 code units
      without path characters, and a size from 1 byte to 500 MiB. */
  predicate Acceptable(f: File) {
    HasZipExtension(f.name) && 0 < f.size <= MaxFileSize && !LongName(f.name) && !HasPathCharacters(f.name)
  }

  /** The warnings `validateFile` raises, in order: an unexpected non-empty MIME
      type, then a file over 100 MiB. */
  function Warnings(f: File): seq<FileWarning> {
    (if f.mimeType != "" && f.mimeType !in AllowedMimeTypes then [UnexpectedType(f.mimeType)] else [])
    + (if f.size > LargeFileSize then [LargeFile] else [])
  }

  /** The MIME warning needs a non-empty type outside the allowed list, the
      size warning a file over 100 MiB; there are no others, and when both are
      raised the MIME warning comes first. */
  lemma WarningsMeaning(f: File)
    ensures UnexpectedType(f.mimeType) in Warnings(f) <==> f.mimeType != "" && f.mimeType !in AllowedMimeTypes
    ensures LargeFile in Warnings(f) <==> f.size > LargeFileSize
    ensures forall w :: w in Warnings(f) ==> w == UnexpectedType(f.mimeType) || w == LargeFile
    ensures |Warnings(f)| == 2 ==> Warnings(f) == [UnexpectedType(f.mimeType), LargeFile]
  {
  }

  /** The errors `validateFile` reports: the failed checks in checking order. */
  function BasicErrors(f: File): seq<FileError> {
    IfFails(f, InvalidType) + IfFails(f, Empty) + IfFails(f, TooLarge)
      + IfFails(f, NameTooLong) + IfFails(f, InvalidCharacters)
  }

  /** Exactly the failed checks are reported, and a size is never both empty
      and too large. */
  lemma BasicErrorsMembers(f: File)
    ensures forall e :: e in BasicErrors(f) <==> Fails(f, e)
    ensures !(Empty in BasicErrors(f) && TooLarge in BasicErrors(f))
  {
    forall e ensures e in BasicErrors(f) <==> Fails(f, e) {
      assert e in IfFails(f, e) <==> Fails(f, e);
    }
  }

  /** The reported errors come in checking order, each at most once. */
  lemma BasicErrorsInOrder(f: File)
    ensures ErrorsInOrder(BasicErrors(f))
  {
    var es := BasicErrors(f);
    forall i, j | 0 <= i < j < |es| ensures ErrorRank(es[i]) < ErrorRank(es[j]) {
      BasicErrorsMembers(f);
      assert es[i] in es && es[j] in es;
      if ErrorRank(es[i]) >= ErrorRank(es[j]) {
        RanksAscend(f, es, i, j);
      }
    }
  }

  /** Helper of `BasicErrorsInOrder`: the errors are laid down by ascending rank. */
  lemma RanksAscend(f: File, es: seq<FileError>, i: int, j: int)
    requires es == BasicErrors(f) && 0 <= i < j < |es|
    ensures ErrorRank(es[i]) < ErrorRank(es[j])
  {
    var a := IfFails(f, InvalidType);
    var b := IfFails(f, Empty);
    var c := IfFails(f, TooLarge);
    var d := IfFails(f, NameTooLong);
    var g := IfFails(f, InvalidCharacters);
    assert |a| <= 1 && |b| <= 1 && |c| <= 1 && |d| <= 1 && |g| <= 1;
    assert !(b != [] && c != []);
    assert forall k :: 0 <= k < |es| ==> es[k] in es;
    assert forall k :: 0 <= k < |es| ==>
      ErrorRank(es[k]) == (if k < |a| then 0 else if k < |a| + |b| + |c| then (if b != [] then 1 else 2)
        else if k < |a| + |b| + |c| + |d| then 3 else 4);
  }

  /** A file without failed checks is exactly an acceptable one. */
  lemma BasicErrorsNoneIffAcceptable(f: File)
    ensures BasicErrors(f) == [] <==> Acceptable(f)
  {
    BasicErrorsMembers(f);
    if !Acceptable(f) {
      var e := if !HasZipExtension(f.name) then InvalidType else if f.size == 0 then Empty
        else if f.size > MaxFileSize then TooLarge else if LongName(f.name) then NameTooLong else InvalidCharacters;
      assert Fails(f, e);
    }
  }

  /** What `validateFile` returns. */
  function BasicResult(f: File): ValidationResult {
    var errors := BasicErrors(f);
    ValidationResult(errors == [], errors, Warnings(f), FileInfo(f.name, f.size, f.mimeType, f.lastModified))
  }

  /** `validateFile`: each failed check pushes its error, each applicable
      warning its warning. */
  method ValidateFile(f: File) returns (r: ValidationResult)
    ensures r == BasicResult(f)
  {
    var errors: seq<FileError> := [];
    var warnings: seq<FileWarning> := [];
    var fileInfo := FileInfo(f.name, f.size, f.mimeType, f.lastModified);
    if !HasZipExtension(f.name) {
      errors := errors + [InvalidType];
    }
    assert errors == IfFails(f, InvalidType);
    var validMimeType := f.mimeType in AllowedMimeTypes || f.mimeType == "";
    if !validMimeType && f.mimeType != "" {
      warnings := warnings + [UnexpectedType(f.mimeType)];
    }
    ghost var before := errors;
    if f.size == 0 {
      errors := errors + [Empty];
    } else if f.size > MaxFileSize {
      errors := errors + [TooLarge];
    }
    assert errors == before + IfFails(f, Empty) + IfFails(f, TooLarge);
    before := errors;
    if LongName(f.name) {
      errors := errors + [NameTooLong];
    }
    if HasPathCharacters(f.name) {
      errors := errors + [InvalidCharacters];
    }
    assert errors == before + IfFails(f, NameTooLong) + IfFails(f, InvalidCharacters);
    if f.size > LargeFileSize {
      warnings := warnings + [LargeFile];
    }
    assert warnings == Warnings(f);
    return ValidationResult(|errors| == 0, errors, warnings, fileInfo);
  }

  /** `validateZipStructure`: a file `validateFile` rejects is returned as it
      is, without its content being read; otherwise the first bytes must carry
      the ZIP signature. `content` is `None` when reading the file fails. */
  method ValidateZipStructure(f: File, content: Option<seq<byte>>) returns (r: ValidationResult)
    ensures !Acceptable(f) ==> r == BasicResult(f)
    ensures Acceptable(f) && content.None? ==> r == BasicResult(f).(isValid := false, errors := [Unreadable])
    ensures Acceptable(f) && content.Some? && !HasZipMagic(content.value) ==>
      r == BasicResult(f).(isValid := false, errors := [NotZipArchive])
    ensures Acceptable(f) && content.Some? && HasZipMagic(content.value) ==> r == BasicResult(f)
    ensures r.isValid <==> Acceptable(f) && content.Some? && HasZipMagic(content.value)
    ensures r.isValid <==> r.errors == []
  {
    BasicErrorsNoneIffAcceptable(f);
    r := ValidateFile(f);
    if !r.isValid {
      return r;
    }
    match content {
      case None =>
        r := r.(errors := r.errors + [Unreadable], isValid := false);
      case Some(bytes) =>
        var signature := Signature(bytes);
        var isZipFile := |signature| >= 2 && signature[0] == 0x50 && signature[1] == 0x4B;
        if !isZipFile {
          r := r.(errors := r.errors + [NotZipArchive], isValid := false);
        }
    }
  }

  /** The error record the upload form shows. */
  datatype UploadError = UploadError(code: string, message: string, details: Option<string>, timestamp: int)

  /** `createUploadError`: the fields as given, stamped with the clock reading. */
  function CreateUploadError(code: string, message: string, details: Option<string>, now: int): (e: UploadError)
    ensures e.code == code && e.message == message && e.details == details && e.timestamp == now
  {
    UploadError(code, message, details, now)
  }

  // ---------------------------------------------------------------- framework hints

  /** The project families a file name can hint at, in the order they are tried. */
  datatype Hint = ReactNativeHint | FlutterHint | AndroidHint | CordovaHint

  function HintMessage(h: Hint): string {
    match h
    case ReactNativeHint => "Possible React Native project"
    case FlutterHint => "Possible Flutter project"
    case AndroidHint => "Possible Android project"
    case CordovaHint => "Possible Cordova/PhoneGap project"
  }

  function HintRank(h: Hint): nat {
    match h
    case ReactNativeHint => 0
    case FlutterHint => 1
    case AndroidHint => 2
    case CordovaHint => 3
  }

  /** The keywords of each family, searched for in the lower-cased name. */
  predicate Suggests(lowerName: string, h: Hint) {
    match h
    case ReactNativeHint => Contains(lowerName, "react") || Contains(lowerName, "rn") || Contains(lowerName, "native")
    case FlutterHint => Contains(lowerName, "flutter") || Contains(lowerName, "dart")
    case AndroidHint => Contains(lowerName, "android") || Contains(lowerName, "gradle")
    case CordovaHint => Contains(lowerName, "cordova") || Contains(lowerName, "phonegap")
  }

  /** `[h]` when the name suggests the family, else nothing. */
  function IfSuggests(lowerName: string, h: Hint): seq<Hint> {
    if Suggests(lowerName, h) then [h] else []
  }

  /** The hints for a file name, family by family. */
  function HintsFor(fileName: string): seq<Hint> {
    var lower := ToLower(fileName);
    IfSuggests(lower, ReactNativeHint) + IfSuggests(lower, FlutterHint)
      + IfSuggests(lower, AndroidHint) + IfSuggests(lower, CordovaHint)
  }

  /** A hint is given exactly for the families whose keywords occur in the
      lower-cased name; each family at most once, in the fixed family order. */
  lemma HintsForMeaning(fileName: string)
    ensures forall h :: h in HintsFor(fileName) <==> Suggests(ToLower(fileName), h)
    ensures forall i, j :: 0 <= i < j < |HintsFor(fileName)| ==> HintRank(HintsFor(fileName)[i]) < HintRank(HintsFor(fileName)[j])
  {
    var lower := ToLower(fileName);
    var hs := HintsFor(fileName);
    forall h ensures h in hs <==> Suggests(lower, h) {
      assert h in IfSuggests(lower, h) <==> Suggests(lower, h);
    }
    var a := IfSuggests(lower, ReactNativeHint);
    var b := IfSuggests(lower, FlutterHint);
    var c := IfSuggests(lower, AndroidHint);
    assert forall k :: 0 <= k < |hs| ==>
      HintRank(hs[k]) == (if k < |a| then 0 else if k < |a| + |b| then 1 else if k < |a| + |b| + |c| then 2 else 3)
      && k <= HintRank(hs[k]);
  }

  /** `getFrameworkHints`: one test per family, each pushing its hint. */
  method GetFrameworkHints(fileName: string) returns (hints: seq<Hint>)
    ensures hints == HintsFor(fileName)
  {
    hints := [];
    var lowerName := ToLower(fileName);
    if Contains(lowerName, "react") || Contains(lowerName, "rn") || Contains(lowerName, "native") {
      hints := hints + [ReactNativeHint];
    }
    assert hints == IfSuggests(lowerName, ReactNativeHint);
    if Contains(lowerName, "flutter") || Contains(lowerName, "dart") {
      hints := hints + [FlutterHint];
    }
    assert hints == IfSuggests(lowerName, ReactNativeHint) + IfSuggests(lowerName, FlutterHint);
    ghost var before := hints;
    if Contains(lowerName, "android") || Contains(lowerName, "gradle") {
      hints := hints + [AndroidHint];
    }
    assert hints == before + IfSuggests(lowerName, AndroidHint);
    before := hints;
    if Contains(lowerName, "cordova") || Contains(lowerName, "phonegap") {
      hints := hints + [CordovaHint];
    }
    assert hints == before + IfSuggests(lowerName, CordovaHint);
  }
}
