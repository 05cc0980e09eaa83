/** The acceptance rules for an uploaded archive that the server's upload
    routes and the browser's validator both apply: a `.zip` name, a size
    limit, a file-name length limit, no path characters in the name, and the
    `PK` signature at the start of the content. */
module UploadRules {
  import opened Wrappers
  import opened Strings

  /** 500 MiB */
  const MaxFileSize: nat := 500 * 1024 * 1024
  /** 100 MiB: above this only a warning is raised. */
  const LargeFileSize: nat := 100 * 1024 * 1024
  const MaxNameLength: nat := 255

  const AllowedMimeTypes: seq<string> := ["application/zip", "application/x-zip-compressed", "application/x-zip"]

  /** `s.length`: the number of UTF-16 code units, two for a character outside
      the Basic Multilingual Plane. */
  function Utf16Length(s: string): (n: nat)
    ensures |s| <= n <= 2 * |s|
    ensures (forall i :: 0 <= i < |s| ==> s[i] <= '\U{FFFF}') ==> n == |s|
  {
    if s == [] then 0 else (if s[0] <= '\U{FFFF}' then 1 else 2) + Utf16Length(s[1..])
  }

  /** `name.toLowerCase().endsWith('.zip')` */
  predicate HasZipExtension(name: string) {
    EndsWith(ToLower(name), ".zip")
  }

  /** `name.length > 255` */
  predicate LongName(name: string) {
    Utf16Length(name) > MaxNameLength
  }

  /** `name.includes('..') || name.includes('/') || name.includes('\\')` */
  predicate HasPathCharacters(name: string) {
    Contains(name, "..") || Contains(name, "/") || Contains(name, "\\")
  }

  /** A one-character search is a membership test. */
  lemma ContainsChar(s: string, c: char)
    ensures Contains(s, [c]) <==> c in s
  {
    ContainsIffOccurs(s, [c]);
    if c in s {
      var i :| 0 <= i < |s| && s[i] == c;
      assert s[i..i + 1] == [c];
      assert OccursAt(s, [c], i);
    }
    if Contains(s, [c]) {
      var i: nat :| OccursAt(s, [c], i);
      assert s[i] == s[i..i + 1][0];
    }
  }

  /** The name rule forbids a parent-directory step and both path separators. */
  lemma PathCharactersMeaning(name: string)
    ensures HasPathCharacters(name) <==> Contains(name, "..") || '/' in name || '\\' in name
  {
    ContainsChar(name, '/');
    ContainsChar(name, '\\');
  }

  /** `buffer.slice(0, 4)`: at most the first four bytes. */
  function Signature(content: seq<byte>): (s: seq<byte>)
    ensures |s| == if |content| < 4 then |content| else 4
    ensures s == content[..|s|]
  {
    if |content| < 4 then content else content[..4]
  }

  /** `signature[0] === 0x50 && signature[1] === 0x4B`; a missing byte reads
      as `undefined`, which equals neither. */
  predicate HasZipMagic(content: seq<byte>) {
    var s := Signature(content);
    |s| >= 2 && s[0] == 0x50 && s[1] == 0x4B
  }

  /** Only the first two bytes decide the signature check, and content shorter
      than two bytes never passes it. */
  lemma ZipMagicMeaning(content: seq<byte>)
    ensures HasZipMagic(content) <==> |content| >= 2 && content[0] == 0x50 && content[1] == 0x4B
  {
    var s := Signature(content);
    if |content| >= 2 {
      assert s[0] == content[0] && s[1] == content[1];
    }
  }
}
