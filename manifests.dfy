/** The regular expressions the analyzer applies to manifest text, written out
    as scans. A JavaScript `match` without the `g` flag returns the leftmost
    match, so each pattern is a local matcher at one position (`...At`) plus
    `FirstFrom`, which tries the positions from left to right. */
module Manifests {
  import opened Wrappers
  import opened Strings

  /** The first position in `i..n` where `m` matches, as `String.prototype.match` picks it. */
  function FirstFrom<T>(n: nat, i: nat, m: nat -> Option<T>): Option<T>
    decreases n + 1 - i
  {
    if i > n then None else if m(i).Some? then m(i) else FirstFrom(n, i + 1, m)
  }

  /** `FirstFrom` finds a match iff one exists, and it is the leftmost one. */
  lemma {:induction false} FirstFromIsLeftmost<T>(n: nat, i: nat, m: nat -> Option<T>)
    ensures FirstFrom(n, i, m).Some? <==> exists k :: i <= k <= n && m(k).Some?
    ensures FirstFrom(n, i, m).Some? ==>
      exists k :: i <= k <= n && m(k) == FirstFrom(n, i, m) && forall j :: i <= j < k ==> m(j).None?
    decreases n + 1 - i
  {
    if i <= n && m(i).None? {
      FirstFromIsLeftmost(n, i + 1, m);
      if FirstFrom(n, i, m).Some? {
        var k :| i + 1 <= k <= n && m(k) == FirstFrom(n, i + 1, m) && forall j :: i + 1 <= j < k ==> m(j).None?;
        assert forall j :: i <= j < k ==> m(j).None?;
      }
    }
  }

  /** Line terminators, which `.` does not match and at which `^`/`$` match in multiline mode. */
  predicate IsLineTerminator(c: char) {
    c == '\n' || c == '\r' || c == '\U{2028}' || c == '\U{2029}'
  }

  /** Length of the run of white space starting at `i` (`\s*`, greedy). */
  function SpaceRun(s: string, i: nat): (k: nat)
    ensures i + k <= |s| || (i > |s| && k == 0)
    ensures forall j :: i <= j < i + k ==> IsSpace(s[j])
    ensures i + k < |s| ==> !IsSpace(s[i + k])
    decreases |s| - i
  {
    if i < |s| && IsSpace(s[i]) then 1 + SpaceRun(s, i + 1) else 0
  }

  /** Length of the run of decimal digits starting at `i` (`\d+`, greedy). */
  function DigitRun(s: string, i: nat): (k: nat)
    ensures i + k <= |s| || (i > |s| && k == 0)
    ensures forall j :: i <= j < i + k ==> IsDigit(s[j])
    ensures i + k < |s| ==> !IsDigit(s[i + k])
    decreases |s| - i
  {
    if i < |s| && IsDigit(s[i]) then 1 + DigitRun(s, i + 1) else 0
  }

  /** Length of the run of characters other than `"` starting at `i` (`[^"]+`). */
  function NonQuoteRun(s: string, i: nat): (k: nat)
    ensures i + k <= |s| || (i > |s| && k == 0)
    ensures forall j :: i <= j < i + k ==> s[j] != '"'
    ensures i + k < |s| ==> s[i + k] == '"'
    decreases |s| - i
  {
    if i < |s| && s[i] != '"' then 1 + NonQuoteRun(s, i + 1) else 0
  }

  /** Length of the run of characters that are not line terminators (`.+`, greedy). */
  function LineRun(s: string, i: nat): (k: nat)
    ensures i + k <= |s| || (i > |s| && k == 0)
    ensures forall j :: i <= j < i + k ==> !IsLineTerminator(s[j])
    ensures i + k < |s| ==> IsLineTerminator(s[i + k])
    decreases |s| - i
  {
    if i < |s| && !IsLineTerminator(s[i]) then 1 + LineRun(s, i + 1) else 0
  }

  /** `key\s+(\d+)` at position `i`: the key, at least one blank, then the digits. */
  function GradleNumberAt(c: string, key: string, i: nat): (r: Option<nat>)
    ensures r.Some? ==> OccursAt(c, key, i)
  {
    if !OccursAt(c, key, i) then None
    else
      var j := i + |key|;
      var w := SpaceRun(c, j);
      var d := DigitRun(c, j + w);
      if w > 0 && d > 0 then Some(DigitsValue(c[j + w..j + w + d])) else None
  }

  /** `extractGradleValue(content, key)`: the number after the first match of `key\s+(\d+)`. */
  function ExtractGradleValue(c: string, key: string): Option<nat> {
    FirstFrom(|c|, 0, (i: nat) => GradleNumberAt(c, key, i))
  }

  /** The number found is the one at the leftmost position where the pattern matches,
      and there is none exactly when the pattern matches nowhere. */
  lemma ExtractGradleValueIsFirstMatch(c: string, key: string)
    ensures ExtractGradleValue(c, key).None? <==> forall i :: 0 <= i <= |c| ==> GradleNumberAt(c, key, i).None?
    ensures ExtractGradleValue(c, key).Some? ==>
      exists i :: 0 <= i <= |c| && GradleNumberAt(c, key, i) == ExtractGradleValue(c, key)
        && forall j :: 0 <= j < i ==> GradleNumberAt(c, key, j).None?
  {
    var m := (i: nat) => GradleNumberAt(c, key, i);
    FirstFromIsLeftmost(|c|, 0, m);
    assert forall i: nat :: m(i) == GradleNumberAt(c, key, i);
  }

  /** `key\s+"([^"]+)"` at position `i` (application id and version name in build.gradle):
      the key, a run of at least one blank, then a non-empty value without quotes
      between two quotes. */
  function GradleStringAt(c: string, key: string, i: nat): (r: Option<string>)
    ensures r.Some? ==> OccursAt(c, key, i) && SpaceRun(c, i + |key|) > 0
    ensures r.Some? ==> r.value != [] && '"' !in r.value
    ensures r.Some? ==> OccursAt(c, "\"" + r.value + "\"", i + |key| + SpaceRun(c, i + |key|))
  {
    if !OccursAt(c, key, i) then None
    else
      var j := i + |key|;
      var w := SpaceRun(c, j);
      if w == 0 || j + w >= |c| || c[j + w] != '"' then None
      else
        var q := j + w + 1;
        var k := NonQuoteRun(c, q);
        if k > 0 && q + k < |c| then
          assert c[j + w..q + k + 1] == [c[j + w]] + c[q..q + k] + [c[q + k]];
          Some(c[q..q + k])
        else None
  }

  /** Conversely, the pattern matches wherever the key stands, then `w > 0` blanks,
      a quote, `n > 0` characters other than a quote and a quote, and it captures
      those `n` characters: `\s+` cannot swallow the opening quote and `[^"]+` stops
      at the first closing one. */
  lemma GradleStringAtMatches(c: string, key: string, i: nat, w: nat, n: nat)
    requires OccursAt(c, key, i) && w > 0 && n > 0
    requires forall k :: i + |key| <= k < i + |key| + w ==> k < |c| && IsSpace(c[k])
    requires i + |key| + w < |c| && c[i + |key| + w] == '"'
    requires forall k :: i + |key| + w < k <= i + |key| + w + n ==> k < |c| && c[k] != '"'
    requires i + |key| + w + n + 1 < |c| && c[i + |key| + w + n + 1] == '"'
    ensures GradleStringAt(c, key, i) == Some(c[i + |key| + w + 1..i + |key| + w + 1 + n])
  {
    SpaceRunCovers(c, i + |key|, w);
    NonQuoteRunCovers(c, i + |key| + w + 1, n);
  }

  /** A run of `n` blanks that a quote follows is exactly what `\s+` consumes. */
  lemma {:induction false} SpaceRunCovers(s: string, i: nat, n: nat)
    requires i + n < |s| && s[i + n] == '"'
    requires forall k :: i <= k < i + n ==> k < |s| && IsSpace(s[k])
    ensures SpaceRun(s, i) == n
    decreases n
  {
    if n > 0 {
      SpaceRunCovers(s, i + 1, n - 1);
    }
  }

  /** A run of `n` characters other than a quote that a quote follows is exactly what `[^"]+` consumes. */
  lemma {:induction false} NonQuoteRunCovers(s: string, i: nat, n: nat)
    requires i + n < |s| && s[i + n] == '"'
    requires forall k :: i <= k < i + n ==> k < |s| && s[k] != '"'
    ensures NonQuoteRun(s, i) == n
    decreases n
  {
    if n > 0 {
      NonQuoteRunCovers(s, i + 1, n - 1);
    }
  }

  /** The capture of `content.match(/key\s+"([^"]+)"/)`: a non-empty value without quotes. */
  function ExtractGradleString(c: string, key: string): (r: Option<string>)
    ensures r.Some? ==> r.value != [] && '"' !in r.value
  {
    var m := (i: nat) => GradleStringAt(c, key, i);
    FirstFromIsLeftmost(|c|, 0, m);
    FirstFrom(|c|, 0, m)
  }

  /** The text found is the one at the leftmost position where the pattern matches,
      and there is none exactly when the pattern matches nowhere. */
  lemma ExtractGradleStringIsFirstMatch(c: string, key: string)
    ensures ExtractGradleString(c, key).None? <==> forall i :: 0 <= i <= |c| ==> GradleStringAt(c, key, i).None?
    ensures ExtractGradleString(c, key).Some? ==>
      exists i :: 0 <= i <= |c| && GradleStringAt(c, key, i) == ExtractGradleString(c, key)
        && forall j :: 0 <= j < i ==> GradleStringAt(c, key, j).None?
  {
    var m := (i: nat) => GradleStringAt(c, key, i);
    FirstFromIsLeftmost(|c|, 0, m);
    assert forall i: nat :: m(i) == GradleStringAt(c, key, i);
  }

  /** `attr"([^"]+)"` at position `i`, where `attr` ends in `=` (the manifest's `package="..."`). */
  function AttributeAt(c: string, attr: string, i: nat): (r: Option<string>)
    ensures r.Some? ==> r.value != [] && '"' !in r.value && OccursAt(c, attr + "\"" + r.value + "\"", i)
  {
    if !OccursAt(c, attr + "\"", i) then None
    else
      var q := i + |attr| + 1;
      var k := NonQuoteRun(c, q);
      if k > 0 && q + k < |c| then
        assert c[i..q + k + 1] == c[i..q] + c[q..q + k] + [c[q + k]];
        Some(c[q..q + k])
      else None
  }

  /** The value found is a non-empty one without quotes that stands between `attr"` and `"`. */
  function ExtractAttribute(c: string, attr: string): (r: Option<string>)
    ensures r.Some? ==> r.value != [] && '"' !in r.value && Contains(c, attr + "\"" + r.value + "\"")
  {
    var m := (i: nat) => AttributeAt(c, attr, i);
    FirstFromIsLeftmost(|c|, 0, m);
    ContainsAnyOccurrence(c, attr, FirstFrom(|c|, 0, m));
    FirstFrom(|c|, 0, m)
  }

  lemma ContainsAnyOccurrence(c: string, attr: string, r: Option<string>)
    requires r.Some? ==> exists k :: 0 <= k <= |c| && AttributeAt(c, attr, k) == r
    ensures r.Some? ==> Contains(c, attr + "\"" + r.value + "\"")
  {
    if r.Some? {
      var k :| 0 <= k <= |c| && AttributeAt(c, attr, k) == r;
      ContainsIffOccurs(c, attr + "\"" + r.value + "\"");
    }
  }

  /** `open(.*?)close` at position `i`: the shortest text without a line terminator that `close` follows. */
  function LazyAt(c: string, open: string, close: string, i: nat): (r: Option<string>)
    ensures r.Some? ==> OccursAt(c, open + r.value + close, i)
    ensures r.Some? ==> forall k :: 0 <= k < |r.value| ==> !IsLineTerminator(r.value[k])
    ensures r.Some? ==> forall p :: i + |open| <= p < i + |open| + |r.value| ==> !OccursAt(c, close, p)
  {
    if !OccursAt(c, open, i) then None
    else
      var r := LazyFrom(c, close, i + |open|, i + |open|);
      if r.Some? then
        OccursConcat(c, open, r.value, i);
        OccursConcat(c, open + r.value, close, i);
        r
      else r
  }

  function LazyFrom(c: string, close: string, start: nat, p: nat): (r: Option<string>)
    requires start <= p
    requires forall k :: start <= k < p ==> k < |c| && !IsLineTerminator(c[k]) && !OccursAt(c, close, k)
    ensures r.Some? ==> start + |r.value| <= |c| && r.value == c[start..start + |r.value|]
    ensures r.Some? ==> OccursAt(c, close, start + |r.value|)
    ensures r.Some? ==> forall k :: 0 <= k < |r.value| ==> !IsLineTerminator(r.value[k])
    ensures r.Some? ==> forall k :: start <= k < start + |r.value| ==> !OccursAt(c, close, k)
    decreases |c| - p
  {
    if OccursAt(c, close, p) then Some(c[start..p])
    else if p < |c| && !IsLineTerminator(c[p]) then LazyFrom(c, close, start, p + 1)
    else None
  }

  /** The text found stands between `open` and `close`, on one line. */
  function ExtractLazy(c: string, open: string, close: string): (r: Option<string>)
    ensures r.Some? ==> Contains(c, open + r.value + close)
    ensures r.Some? ==> forall k :: 0 <= k < |r.value| ==> !IsLineTerminator(r.value[k])
  {
    var m := (i: nat) => LazyAt(c, open, close, i);
    FirstFromIsLeftmost(|c|, 0, m);
    LazyContains(c, open, close, FirstFrom(|c|, 0, m));
    FirstFrom(|c|, 0, m)
  }

  lemma LazyContains(c: string, open: string, close: string, r: Option<string>)
    requires r.Some? ==> exists k :: 0 <= k <= |c| && LazyAt(c, open, close, k) == r
    ensures r.Some? ==> Contains(c, open + r.value + close)
  {
    if r.Some? {
      var k :| 0 <= k <= |c| && LazyAt(c, open, close, k) == r;
      ContainsIffOccurs(c, open + r.value + close);
    }
  }

  /** Occurrences side by side make an occurrence of the two texts together. */
  lemma OccursConcat(c: string, a: string, b: string, i: nat)
    requires OccursAt(c, a, i) && OccursAt(c, b, i + |a|)
    ensures OccursAt(c, a + b, i)
  {
    assert c[i..i + |a| + |b|] == c[i..i + |a|] + c[i + |a|..i + |a| + |b|];
  }

  /** `^` in multiline mode: the start of the text or just after a line terminator. */
  predicate LineStart(c: string, i: nat) {
    i == 0 || (i <= |c| && IsLineTerminator(c[i - 1]))
  }

  /** `^key\s*(.+)$` (multiline) at position `i`, with the capture already trimmed.
      `\s*` may run over line ends; when only white space follows the key, the
      regex still matches if one of those blanks is not a line terminator, and
      the trimmed capture is then empty. */
  function LineValueAt(c: string, key: string, i: nat): Option<string> {
    if !LineStart(c, i) || !OccursAt(c, key, i) then None
    else
      var j := i + |key|;
      var w := SpaceRun(c, j);
      if j + w < |c| then Some(TrimEnd(c[j + w..j + w + LineRun(c, j + w)]))
      else if exists k :: j <= k < |c| && !IsLineTerminator(c[k]) then Some("")
      else None
  }

  function ExtractLineValue(c: string, key: string): Option<string> {
    FirstFrom(|c|, 0, (i: nat) => LineValueAt(c, key, i))
  }

  /** A value found after the key is a trimmed one. */
  lemma LineValueIsTrimmed(c: string, key: string)
    ensures var v := ExtractLineValue(c, key);
      v.Some? ==> v.value == [] || (!IsSpace(v.value[0]) && !IsSpace(v.value[|v.value| - 1]))
  {
    var m := (i: nat) => LineValueAt(c, key, i);
    FirstFromIsLeftmost(|c|, 0, m);
    var r := ExtractLineValue(c, key);
    if r.Some? {
      var k :| 0 <= k <= |c| && m(k) == r;
      assert LineValueAt(c, key, k) == r;
      LineValueAtIsTrimmed(c, key, k);
    }
  }

  lemma LineValueAtIsTrimmed(c: string, key: string, i: nat)
    ensures var v := LineValueAt(c, key, i);
      v.Some? ==> v.value == [] || (!IsSpace(v.value[0]) && !IsSpace(v.value[|v.value| - 1]))
  {
    if LineStart(c, i) && OccursAt(c, key, i) {
      var j := i + |key|;
      var w := SpaceRun(c, j);
      if j + w < |c| {
        var line := c[j + w..j + w + LineRun(c, j + w)];
        TrimmedLine(line);
      }
    }
  }

  lemma TrimmedLine(line: string)
    requires line == [] || !IsSpace(line[0])
    ensures var t := TrimEnd(line); t == [] || (!IsSpace(t[0]) && !IsSpace(t[|t| - 1]))
  {
    var t := TrimEnd(line);
    if t != [] { assert t[0] == line[0]; }
  }

  /** Only blanks after the key, one of them not a line end: the value is "". */
  lemma LineValueBlank(key: string, b: string)
    requires forall k :: 0 <= k < |b| ==> IsSpace(b[k])
    requires exists k :: 0 <= k < |b| && !IsLineTerminator(b[k])
    ensures ExtractLineValue(key + b, key) == Some("")
  {
    var c := key + b;
    assert OccursAt(c, key, 0);
    var w := SpaceRun(c, |key|);
    assert w == |b|;
    var k :| 0 <= k < |b| && !IsLineTerminator(b[k]);
    assert c[|key| + k] == b[k];
    assert LineValueAt(c, key, 0) == Some("");
  }

  /** JavaScript `parseInt(s)`: leading white space, an optional sign, then decimal
      digits (or hexadecimal ones after `0x`); `None` is NaN. */
  function ParseInt(s: string): Option<int> {
    var t := TrimStart(s);
    if |t| > 0 && t[0] == '-' then
      match ParseUnsigned(t[1..])
      case None => None
      case Some(n) => Some(-n)
    else if |t| > 0 && t[0] == '+' then ParseUnsigned(t[1..])
    else ParseUnsigned(t)
  }

  function ParseUnsigned(u: string): Option<int> {
    if |u| >= 2 && u[0] == '0' && (u[1] == 'x' || u[1] == 'X') then HexPrefixValue(u[2..])
    else DecimalPrefixValue(u)
  }

  function DecimalPrefixValue(u: string): Option<int> {
    var d := DigitRun(u, 0);
    if d == 0 then None else Some(DigitsValue(u[..d]))
  }

  predicate IsHexDigit(c: char) { IsDigit(c) || 'a' <= c <= 'f' || 'A' <= c <= 'F' }

  function HexValue(c: char): nat requires IsHexDigit(c) {
    if IsDigit(c) then c as int - '0' as int
    else if 'a' <= c <= 'f' then c as int - 'a' as int + 10
    else c as int - 'A' as int + 10
  }

  function HexPrefixValue(s: string): Option<int> {
    var k := HexRun(s, 0);
    if k == 0 then None else Some(HexDigitsValue(s[..k]))
  }

  function HexRun(s: string, i: nat): (k: nat)
    ensures i + k <= |s| || (i > |s| && k == 0)
    ensures forall j :: i <= j < i + k ==> IsHexDigit(s[j])
    decreases |s| - i
  {
    if i < |s| && IsHexDigit(s[i]) then 1 + HexRun(s, i + 1) else 0
  }

  function HexDigitsValue(s: string): nat
    requires forall i :: 0 <= i < |s| ==> IsHexDigit(s[i])
  {
    if s == [] then 0 else HexDigitsValue(s[..|s| - 1]) * 16 + HexValue(s[|s| - 1])
  }

  /** A plain run of digits parses to its value. */
  lemma ParseIntDigits(s: string)
    requires |s| > 0 && AllDigits(s)
    ensures ParseInt(s) == Some(DigitsValue(s) as int)
  {
    assert IsDigit(s[0]);
    ParseIntUnsigned(s);
    ParseUnsignedDecimal(s);
    DecimalAll(s);
  }

  /** A minus sign negates the digits after it. */
  lemma ParseIntNegative(t: string)
    requires |t| > 1 && t[0] == '-' && AllDigits(t[1..])
    ensures ParseInt(t) == Some(-(DigitsValue(t[1..]) as int))
  {
    ParseUnsignedDecimal(t[1..]);
    DecimalAll(t[1..]);
    ParseIntMinus(t);
  }

  lemma ParseIntMinus(t: string)
    requires |t| > 0 && t[0] == '-'
    ensures ParseInt(t) == if ParseUnsigned(t[1..]).None? then None else Some(-ParseUnsigned(t[1..]).value)
  {
    assert !IsSpace(t[0]);
    assert TrimStart(t) == t;
  }

  /** Parsing stops at the first character that is not a digit: `parseInt("12abc")` is 12. */
  lemma ParseIntStopsAtNonDigit(d: string, rest: string)
    requires |d| > 0 && AllDigits(d)
    requires rest != [] && !IsDigit(rest[0]) && rest[0] != 'x' && rest[0] != 'X'
    ensures ParseInt(d + rest) == Some(DigitsValue(d) as int)
  {
    var u := d + rest;
    assert u[0] == d[0];
    ParseIntUnsigned(u);
    assert !(|u| >= 2 && u[0] == '0' && (u[1] == 'x' || u[1] == 'X')) by {
      if |d| >= 2 { assert u[1] == d[1]; } else { assert u[1] == rest[0]; }
    }
    DigitRunPrefix(u, |d|);
    assert u[..|d|] == d;
  }

  lemma {:induction false} DigitRunPrefix(u: string, n: nat)
    requires n < |u| && !IsDigit(u[n]) && forall j :: 0 <= j < n ==> IsDigit(u[j])
    ensures DigitRun(u, 0) == n
  {
    DigitRunUpTo(u, 0, n);
  }

  lemma {:induction false} DigitRunUpTo(u: string, i: nat, n: nat)
    requires i <= n < |u| && !IsDigit(u[n]) && forall j :: i <= j < n ==> IsDigit(u[j])
    ensures DigitRun(u, i) == n - i
    decreases n - i
  {
    if i < n { DigitRunUpTo(u, i + 1, n); }
  }

  /** Text that does not start, after blanks, with a sign or a digit is NaN. */
  lemma ParseIntNaN(s: string)
    requires TrimStart(s) == [] || !(IsDigit(TrimStart(s)[0]) || TrimStart(s)[0] in "-+")
    ensures ParseInt(s).None?
  {
  }

  lemma DecimalAll(s: string)
    requires |s| > 0 && AllDigits(s)
    ensures DecimalPrefixValue(s) == Some(DigitsValue(s))
  {
    DigitRunAll(s, 0);
    assert s[..|s|] == s;
  }

  lemma ParseIntUnsigned(s: string)
    requires |s| > 0 && IsDigit(s[0])
    ensures ParseInt(s) == ParseUnsigned(s)
  {
    assert !IsSpace(s[0]);
    var t := TrimStart(s);
    assert t == s;
    assert t[0] != '-' && t[0] != '+';
  }

  lemma ParseUnsignedDecimal(s: string)
    requires AllDigits(s)
    ensures ParseUnsigned(s) == DecimalPrefixValue(s)
  {
    assert !(|s| >= 2 && (s[1] == 'x' || s[1] == 'X')) by { if |s| >= 2 { assert IsDigit(s[1]); } }
  }

  lemma {:induction false} DigitRunAll(s: string, i: nat)
    requires i <= |s| && forall j :: i <= j < |s| ==> IsDigit(s[j])
    ensures DigitRun(s, i) == |s| - i
    decreases |s| - i
  {
    if i < |s| { DigitRunAll(s, i + 1); }
  }

  /** Where the lookahead of a pubspec dependency section holds, in multiline mode:
      `^[a-zA-Z]` (an ASCII letter at a line start), `\n$` (a line feed at the end
      of the text or before another line terminator) and, for the `dependencies:`
      section (`beforeDev`), `\ndev_dependencies:`. */
  predicate EndsSectionAt(c: string, e: nat, beforeDev: bool) {
    (LineStart(c, e) && e < |c| && IsAsciiLetter(c[e]))
    || (beforeDev && OccursAt(c, "\ndev_dependencies:", e))
    || (e < |c| && c[e] == '\n' && (e + 1 == |c| || IsLineTerminator(c[e + 1])))
  }

  /** The first position from `i` on where the lookahead holds: `[\s\S]*?` is lazy. */
  function SectionEnd(c: string, i: nat, beforeDev: bool): (r: Option<nat>)
    ensures r.Some? ==> i <= r.value <= |c| && EndsSectionAt(c, r.value, beforeDev)
    ensures r.Some? ==> forall e :: i <= e < r.value ==> !EndsSectionAt(c, e, beforeDev)
    ensures r.None? <==> forall e :: i <= e <= |c| ==> !EndsSectionAt(c, e, beforeDev)
    decreases |c| + 1 - i
  {
    if i > |c| then None
    else if EndsSectionAt(c, i, beforeDev) then Some(i)
    else SectionEnd(c, i + 1, beforeDev)
  }

  /** `^header([\s\S]*?)(?=...)` (multiline) at position `p`: the header at a line
      start, then the shortest text after which the lookahead holds. */
  function SectionAt(c: string, header: string, beforeDev: bool, p: nat): (r: Option<string>)
    ensures r.Some? ==> LineStart(c, p) && OccursAt(c, header + r.value, p)
    ensures r.Some? ==> EndsSectionAt(c, p + |header| + |r.value|, beforeDev)
    ensures r.Some? ==> forall e :: p + |header| <= e < p + |header| + |r.value| ==> !EndsSectionAt(c, e, beforeDev)
    ensures r.None? <==>
      (!LineStart(c, p) || !OccursAt(c, header, p) || forall e :: p + |header| <= e <= |c| ==> !EndsSectionAt(c, e, beforeDev))
  {
    if !LineStart(c, p) || !OccursAt(c, header, p) then None
    else
      var e := SectionEnd(c, p + |header|, beforeDev);
      if e.None? then None
      else
        assert c[p..e.value] == c[p..p + |header|] + c[p + |header|..e.value];
        Some(c[p + |header|..e.value])
  }

  /** The capture of `content.match(/^header([\s\S]*?)(?=...)/m)`: the section at the
      leftmost position where the pattern matches. */
  function Section(c: string, header: string, beforeDev: bool): Option<string> {
    FirstFrom(|c|, 0, (p: nat) => SectionAt(c, header, beforeDev, p))
  }

  /** The section is none exactly when the pattern matches nowhere, and otherwise
      the one at the leftmost match. */
  lemma SectionIsFirstMatch(c: string, header: string, beforeDev: bool)
    ensures Section(c, header, beforeDev).None? <==> forall p :: 0 <= p <= |c| ==> SectionAt(c, header, beforeDev, p).None?
    ensures Section(c, header, beforeDev).Some? ==>
      exists p :: 0 <= p <= |c| && SectionAt(c, header, beforeDev, p) == Section(c, header, beforeDev)
        && forall j :: 0 <= j < p ==> SectionAt(c, header, beforeDev, j).None?
  {
    var m := (p: nat) => SectionAt(c, header, beforeDev, p);
    FirstFromIsLeftmost(|c|, 0, m);
    assert forall p: nat :: m(p) == SectionAt(c, header, beforeDev, p);
  }

  /** The first header at a line start decides: a later header cannot find an end
      the first one missed, so the section is the one after the first header. */
  lemma SectionAfterFirstHeader(c: string, header: string, beforeDev: bool, n: nat)
    requires LineStart(c, n) && OccursAt(c, header, n)
    requires forall j :: 0 <= j < n ==> !(LineStart(c, j) && OccursAt(c, header, j))
    ensures Section(c, header, beforeDev) == SectionAt(c, header, beforeDev, n)
  {
    SectionIsFirstMatch(c, header, beforeDev);
    if SectionAt(c, header, beforeDev, n).None? {
      forall p | 0 <= p <= |c| ensures SectionAt(c, header, beforeDev, p).None? {
        if p > n && LineStart(c, p) && OccursAt(c, header, p) {
          assert forall e :: p + |header| <= e <= |c| ==> !EndsSectionAt(c, e, beforeDev);
        }
      }
    } else {
      var r := Section(c, header, beforeDev);
      var p :| 0 <= p <= |c| && SectionAt(c, header, beforeDev, p) == r
        && forall j :: 0 <= j < p ==> SectionAt(c, header, beforeDev, j).None?;
      assert p == n;
    }
  }

  predicate IsAsciiLetter(c: char) { 'a' <= c <= 'z' || 'A' <= c <= 'Z' }

  predicate EndsSection(line: string) {
    line == [] || IsLineTerminator(line[0]) || IsAsciiLetter(line[0])
  }

  /** The first line from `i` on that ends a section. */
  function FirstSectionEnd(lines: seq<string>, i: nat): (r: Option<nat>)
    ensures r.Some? ==> i <= r.value < |lines| && EndsSection(lines[r.value])
    ensures r.Some? ==> forall j :: i <= j < r.value ==> !EndsSection(lines[j])
    ensures r.None? <==> forall j :: i <= j < |lines| ==> !EndsSection(lines[j])
    decreases |lines| - i
  {
    if i >= |lines| then None
    else if EndsSection(lines[i]) then Some(i)
    else FirstSectionEnd(lines, i + 1)
  }

  /** The dependency-name filter applied to the lines of a section: trimmed, not
      empty, not a comment, holding a `:`, optionally not an `sdk:` line; the name
      is the trimmed text before the first `:`, dropped when empty or `excluded`. */
  predicate IsDependencyName(n: string, excluded: string) {
    n != [] && n != excluded && ':' !in n
  }

  /** Every name kept is non-empty, holds no `:` and is not the excluded one. */
  function DependencyNames(lines: seq<string>, skipSdk: bool, excluded: string): (names: seq<string>)
    ensures |names| <= |lines|
    ensures forall k :: 0 <= k < |names| ==> IsDependencyName(names[k], excluded)
  {
    if lines == [] then []
    else
      var rest := DependencyNames(lines[1..], skipSdk, excluded);
      match DependencyName(lines[0], skipSdk, excluded)
      case Some(name) =>
        assert forall k :: 0 < k <= |rest| ==> ([name] + rest)[k] == rest[k - 1];
        [name] + rest
      case None => rest
  }

  function DependencyName(raw: string, skipSdk: bool, excluded: string): (r: Option<string>)
    ensures r.Some? ==> IsDependencyName(r.value, excluded)
  {
    var line := Trim(raw);
    if line != [] && !StartsWith(line, "#") && ':' in line && !(skipSdk && StartsWith(line, "sdk:")) then
      NameBeforeColon(line, excluded)
    else None
  }

  /** `line.split(':')[0].trim()` (the text before the first `:`, as `SplitHead`
      shows), dropped when empty or `excluded`. */
  function NameBeforeColon(line: string, excluded: string): (r: Option<string>)
    requires ':' in line
    ensures r.Some? ==> IsDependencyName(r.value, excluded)
  {
    var head := line[..IndexOf(line, ':')];
    NoColonInTrim(head);
    var name := Trim(head);
    if name != [] && name != excluded then Some(name) else None
  }

  lemma NoColonInTrim(s: string)
    requires ':' !in s
    ensures ':' !in Trim(s)
  {
    var t := TrimStart(s);
    assert forall k :: 0 <= k < |t| ==> t[k] == s[|s| - |t| + k];
    var u := TrimEnd(t);
    assert forall k :: 0 <= k < |u| ==> u[k] == t[k];
  }

  /** Where `(?=\n\w|$)` holds: a line feed before a word character, or the end
      of the text (the pattern has no `m` flag). */
  predicate EndsEnvironmentAt(c: string, e: nat) {
    e == |c| || (e + 1 < |c| && c[e] == '\n' && IsWordChar(c[e + 1]))
  }

  /** The first position from `i` on where the lookahead holds; the end of the text always does. */
  function EnvironmentEnd(c: string, i: nat): (e: nat)
    requires i <= |c|
    ensures i <= e <= |c| && EndsEnvironmentAt(c, e)
    ensures forall j :: i <= j < e ==> !EndsEnvironmentAt(c, j)
    decreases |c| - i
  {
    if EndsEnvironmentAt(c, i) then i else EnvironmentEnd(c, i + 1)
  }

  /** The capture of `content.match(/environment:([\s\S]*?)(?=\n\w|$)/)`. The pattern
      matches after the first `environment:` whatever follows, so none is found
      exactly when the text holds no `environment:`, and the capture never holds a
      line feed before a word character. */
  function Environment(c: string): (r: Option<string>)
    ensures r.None? <==> forall j :: 0 <= j <= |c| ==> !OccursAt(c, "environment:", j)
    ensures r.Some? ==> forall k :: 0 <= k < |r.value| - 1 ==> !(r.value[k] == '\n' && IsWordChar(r.value[k + 1]))
  {
    match FindFrom(c, "environment:", 0)
    case None => None
    case Some(p) =>
      var e := EnvironmentEnd(c, p + 12);
      NoEndInside(c, p + 12, e);
      Some(c[p + 12..e])
  }

  lemma NoEndInside(c: string, i: nat, e: nat)
    requires i <= e <= |c| && forall j :: i <= j < e ==> !EndsEnvironmentAt(c, j)
    ensures var v := c[i..e]; forall k :: 0 <= k < |v| - 1 ==> !(v[k] == '\n' && IsWordChar(v[k + 1]))
  {
    var v := c[i..e];
    forall k | 0 <= k < |v| - 1
      ensures !(v[k] == '\n' && IsWordChar(v[k + 1]))
    {
      assert v[k] == c[i + k] && v[k + 1] == c[i + k + 1];
      assert !EndsEnvironmentAt(c, i + k);
    }
  }

  /** After the first `environment:`, the capture is the shortest text the lookahead follows. */
  lemma EnvironmentAfterFirst(c: string, p: nat)
    requires OccursAt(c, "environment:", p)
    requires forall j :: 0 <= j < p ==> !OccursAt(c, "environment:", j)
    ensures Environment(c).Some?
    ensures var v := Environment(c).value;
      OccursAt(c, "environment:" + v, p) && EndsEnvironmentAt(c, p + 12 + |v|)
      && forall e :: p + 12 <= e < p + 12 + |v| ==> !EndsEnvironmentAt(c, e)
  {
    var f := FindFrom(c, "environment:", 0);
    assert f == Some(p);
    var e := EnvironmentEnd(c, p + 12);
    assert c[p..e] == c[p..p + 12] + c[p + 12..e];
  }

  /** The Flutter constraint: the first match of the Flutter pattern in the environment section. */
  function FlutterConstraint(content: string): (r: Option<string>)
    ensures r.Some? ==> Environment(content).Some?
    ensures r.Some? ==> '"' !in r.value && '\'' !in r.value && '\n' !in r.value
  {
    match Environment(content)
    case None => None
    case Some(section) => FlutterValue(section)
  }

  predicate IsQuote(c: char) { c == '"' || c == '\'' }

  /** A character `[^"'\n]` matches. */
  predicate Capturable(c: char) { !IsQuote(c) && c != '\n' }

  /** Length of the run of capturable characters starting at `i` (`[^"'\n]+`, greedy). */
  function CaptureRun(s: string, i: nat): (k: nat)
    ensures i + k <= |s| || (i > |s| && k == 0)
    ensures forall j :: i <= j < i + k ==> Capturable(s[j])
    ensures i + k < |s| ==> !Capturable(s[i + k])
    decreases |s| - i
  {
    if i < |s| && Capturable(s[i]) then 1 + CaptureRun(s, i + 1) else 0
  }

  /** `flutter:\s*["']?([^"'\n]+)["']?` at position `i`, with the capture trimmed.
      After the greedy blanks the regex tries an opening quote, then no quote; when
      neither starts a capture it gives blanks back, and the last blank that is not
      `\n` starts a capture of blanks alone, which trims to "". */
  function FlutterAt(s: string, i: nat): (r: Option<string>)
    ensures r.Some? ==> OccursAt(s, "flutter:", i)
    ensures r.Some? ==> '"' !in r.value && '\'' !in r.value && '\n' !in r.value
  {
    if !OccursAt(s, "flutter:", i) then None
    else
      var j := i + |"flutter:"|;
      var q := j + SpaceRun(s, j);
      if q + 1 < |s| && IsQuote(s[q]) && Capturable(s[q + 1]) then
        var v := s[q + 1..q + 1 + CaptureRun(s, q + 1)];
        TrimKeepsOut(v);
        Some(Trim(v))
      else if q < |s| && Capturable(s[q]) then
        var v := s[q..q + CaptureRun(s, q)];
        TrimKeepsOut(v);
        Some(Trim(v))
      else if exists k :: j <= k < q && s[k] != '\n' then Some("")
      else None
  }

  /** The first match of the Flutter pattern in `text`. */
  function FlutterValue(text: string): (r: Option<string>)
    ensures r.Some? ==> Contains(text, "flutter:")
    ensures r.Some? ==> '"' !in r.value && '\'' !in r.value && '\n' !in r.value
  {
    var m := (i: nat) => FlutterAt(text, i);
    FirstFromIsLeftmost(|text|, 0, m);
    ContainsIffOccurs(text, "flutter:");
    FirstFrom(|text|, 0, m)
  }

  /** Trimming keeps out every character the text lacks. */
  lemma TrimKeepsOut(v: string)
    requires '"' !in v && '\'' !in v && '\n' !in v
    ensures '"' !in Trim(v) && '\'' !in Trim(v) && '\n' !in Trim(v)
  {
    var t := TrimStart(v);
    assert forall c :: c in t ==> c in v;
    var u := TrimEnd(t);
    assert forall c :: c in u ==> c in t;
  }

  /** A quoted constraint is read without its quotes and trimmed. */
  lemma FlutterQuoted(v: string)
    requires v != [] && forall k :: 0 <= k < |v| ==> Capturable(v[k])
    ensures FlutterValue("flutter: \"" + v + "\"") == Some(Trim(v))
  {
    var s := "flutter: \"" + v + "\"";
    assert OccursAt(s, "flutter:", 0);
    assert s[8] == ' ' && s[9] == '"' && s[10] == v[0];
    assert SpaceRun(s, 8) == 1;
    var k := CaptureRun(s, 10);
    assert s[10 + |v|] == '"';
    assert s[10..10 + |v|] == v;
    assert k == |v|;
    assert FlutterAt(s, 0) == Some(Trim(v));
  }

  /** Blanks alone after `flutter:`, one of them not a line end, give an empty constraint. */
  lemma FlutterBlank(b: string)
    requires forall k :: 0 <= k < |b| ==> IsSpace(b[k])
    requires exists k :: 0 <= k < |b| && b[k] != '\n'
    ensures FlutterValue("flutter:" + b) == Some("")
  {
    var s := "flutter:" + b;
    assert OccursAt(s, "flutter:", 0);
    var w := SpaceRun(s, 8);
    assert w == |b|;
    var k :| 0 <= k < |b| && b[k] != '\n';
    assert s[8 + k] == b[k];
    assert FlutterAt(s, 0) == Some("");
  }

  /** An empty quoted constraint matches too: the regex gives back the blank before
      the quotes, and the constraint is "". */
  lemma FlutterEmptyQuotes()
    ensures FlutterValue("flutter: \"\"") == Some("")
  {
    var s := "flutter: \"\"";
    assert OccursAt(s, "flutter:", 0);
    assert SpaceRun(s, 8) == 1;
    assert s[8] == ' ';
    assert FlutterAt(s, 0) == Some("");
  }

  /** With the constraint on the next line, `\s*` runs over the line end. */
  lemma FlutterNextLine(v: string)
    requires v != [] && forall k :: 0 <= k < |v| ==> Capturable(v[k]) && !IsSpace(v[k])
    ensures FlutterValue("flutter:\n" + v) == Some(v)
  {
    var s := "flutter:\n" + v;
    assert OccursAt(s, "flutter:", 0);
    assert s[8] == '\n' && s[9] == v[0];
    assert SpaceRun(s, 8) == 1;
    var k := CaptureRun(s, 9);
    assert s[9..] == v;
    assert k == |v|;
    assert s[9..9 + k] == v;
    assert TrimStart(v) == v;
    assert TrimEnd(v) == v;
    assert FlutterAt(s, 0) == Some(v);
  }

  predicate IsWordChar(c: char) { IsAsciiLetter(c) || IsDigit(c) || c == '_' }
}
