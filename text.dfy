/** String helpers shared by the model: trimming, prefix and substring tests,
    joining, ASCII case mapping and decimal rendering of numbers.
    Whitespace and word characters are the ASCII ones. */
module Text {
  import opened Wrappers

  /** ASCII approximation of JavaScript's whitespace set used by `trim` and `\s`. */
  predicate IsSpace(c: char) {
    c == ' ' || c == '\t' || c == '\n' || c == '\r' || c == '\U{000B}' || c == '\U{000C}'
  }

  predicate IsDigit(c: char) { '0' <= c <= '9' }

  predicate IsUpper(c: char) { 'A' <= c <= 'Z' }

  predicate IsLower(c: char) { 'a' <= c <= 'z' }

  /** The characters of the regular-expression class `\w`. */
  predicate IsWordChar(c: char) { IsUpper(c) || IsLower(c) || IsDigit(c) || c == '_' }

  /** `\b` before position `i` of `s` when the next character is a word character. */
  predicate BoundaryBefore(s: string, i: nat)
    requires i <= |s|
  {
    i == 0 || !IsWordChar(s[i - 1])
  }

  /** `\b` at position `j` of `s` when the previous character is a word character. */
  predicate BoundaryAfter(s: string, j: nat)
    requires j <= |s|
  {
    j == |s| || !IsWordChar(s[j])
  }

  predicate AllDigits(s: string) { forall i :: 0 <= i < |s| ==> IsDigit(s[i]) }

  function TrimStart(s: string): (r: string)
    ensures |r| <= |s| && r == s[|s| - |r|..]
    ensures r != [] ==> !IsSpace(r[0])
  {
    if s != [] && IsSpace(s[0]) then TrimStart(s[1..]) else s
  }

  function TrimEnd(s: string): (r: string)
    ensures |r| <= |s| && r == s[..|r|]
    ensures r != [] ==> !IsSpace(r[|r| - 1])
  {
    if s != [] && IsSpace(s[|s| - 1]) then TrimEnd(s[..|s| - 1]) else s
  }

  /** `String.prototype.trim`. */
  function Trim(s: string): string {
    TrimEnd(TrimStart(s))
  }

  /** Trimming removes whitespace only: a text with a non-space character trims to a
      non-empty text. */
  lemma TrimKeepsNonSpace(s: string, k: nat)
    requires k < |s| && !IsSpace(s[k])
    ensures Trim(s) != ""
  {
    TrimStartStopsAt(s, k);
    var t := TrimStart(s);
    var j := k - (|s| - |t|);
    assert t[j] == s[k];
    TrimEndStopsAt(t, j);
  }

  /** `TrimStart` removes nothing from the first non-space character on. */
  lemma {:induction false} TrimStartStopsAt(s: string, k: nat)
    requires k < |s| && !IsSpace(s[k])
    ensures |s| - |TrimStart(s)| <= k
  {
    if s != [] && IsSpace(s[0]) {
      assert s[1..][k - 1] == s[k];
      TrimStartStopsAt(s[1..], k - 1);
    }
  }

  /** `TrimEnd` removes nothing up to the last non-space character. */
  lemma {:induction false} TrimEndStopsAt(s: string, k: nat)
    requires k < |s| && !IsSpace(s[k])
    ensures k < |TrimEnd(s)|
  {
    if s != [] && IsSpace(s[|s| - 1]) {
      assert s[..|s| - 1][k] == s[k];
      TrimEndStopsAt(s[..|s| - 1], k);
    }
  }

  /** Trimming twice is trimming once. */
  lemma TrimIdempotent(s: string)
    ensures Trim(Trim(s)) == Trim(s)
  {
    var t := TrimStart(s);
    var u := TrimEnd(t);
    if u != [] {
      assert u[0] == t[0];
    }
    assert TrimStart(u) == u;
  }

  /** `s` is whitespace only. */
  predicate Blank(s: string) { forall i :: 0 <= i < |s| ==> IsSpace(s[i]) }

  /** A text trims to nothing exactly when it is whitespace only. */
  lemma TrimEmptyIffBlank(s: string)
    ensures Trim(s) == "" <==> Blank(s)
  {
    if exists k :: 0 <= k < |s| && !IsSpace(s[k]) {
      var k :| 0 <= k < |s| && !IsSpace(s[k]);
      TrimKeepsNonSpace(s, k);
    }
  }

  /** A non-empty text is its first character followed by the rest. */
  lemma HeadThenTail(a: string, r: string)
    requires a != []
    ensures [a[0]] + (a[1..] + r) == a + r
  {
    assert a == [a[0]] + a[1..];
  }

  predicate StartsWith(s: string, prefix: string) {
    |prefix| <= |s| && s[..|prefix|] == prefix
  }

  predicate EndsWith(s: string, suffix: string) {
    |suffix| <= |s| && s[|s| - |suffix|..] == suffix
  }

  /** `sub` occurs in `s` starting at index `j`. */
  predicate OccursAt(s: string, sub: string, j: int) {
    0 <= j && j + |sub| <= |s| && s[j..j + |sub|] == sub
  }

  /** The first index at or after `from` where `sub` occurs in `s`. */
  function IndexOfFrom(s: string, sub: string, from: nat): (r: Option<nat>)
    requires from <= |s|
    ensures r.Some? ==> from <= r.value && OccursAt(s, sub, r.value)
    ensures r.Some? ==> forall j :: from <= j < r.value ==> !OccursAt(s, sub, j)
    ensures r.None? ==> forall j :: from <= j ==> !OccursAt(s, sub, j)
    decreases |s| - from
  {
    if from + |sub| > |s| then None
    else if s[from..from + |sub|] == sub then Some(from)
    else if from == |s| then None
    else IndexOfFrom(s, sub, from + 1)
  }

  function IndexOf(s: string, sub: string): Option<nat> {
    IndexOfFrom(s, sub, 0)
  }

  /** `String.prototype.includes`. */
  predicate Contains(s: string, sub: string) {
    IndexOf(s, sub).Some?
  }

  /** `String.prototype.replace` with a string pattern: only the first occurrence. */
  function ReplaceFirst(s: string, pattern: string, replacement: string): string {
    match IndexOf(s, pattern)
    case None => s
    case Some(i) => s[..i] + Expand(replacement, pattern, s[..i], s[i + |pattern|..]) + s[i + |pattern|..]
  }

  /** The text a replacement string stands for when `String.prototype.replace` is given a
      string pattern (GetSubstitution, section 22.1.3.19.1 of ECMA-262, without captures):
      "$$" is one dollar sign, "$&" the matched text, "$`" the text before the match and
      "$'" the text after it; any other character, any other '$' included, is itself. */
  function Expand(template: string, matched: string, before: string, after: string): string
    decreases |template|
  {
    if template == [] then []
    else if template[0] == '$' && |template| >= 2 && template[1] in "$&`'" then
      var piece := if template[1] == '$' then "$" else if template[1] == '&' then matched
        else if template[1] == '`' then before else after;
      piece + Expand(template[2..], matched, before, after)
    else [template[0]] + Expand(template[1..], matched, before, after)
  }

  /** A replacement without a dollar sign is inserted as it is. */
  lemma {:induction false} ExpandPlain(template: string, matched: string, before: string, after: string)
    requires '$' !in template
    ensures Expand(template, matched, before, after) == template
    decreases |template|
  {
    if template != [] {
      assert template[0] != '$' && '$' !in template[1..];
      ExpandPlain(template[1..], matched, before, after);
      assert template == [template[0]] + template[1..];
    }
  }

  /** A replacement without a dollar sign replaces the first occurrence as it is, and a
      text without the pattern is left alone. */
  lemma ReplaceFirstPlain(s: string, pattern: string, replacement: string)
    requires '$' !in replacement
    ensures IndexOf(s, pattern).None? ==> ReplaceFirst(s, pattern, replacement) == s
    ensures IndexOf(s, pattern).Some? ==>
      var i := IndexOf(s, pattern).value;
      ReplaceFirst(s, pattern, replacement) == s[..i] + replacement + s[i + |pattern|..]
  {
    if IndexOf(s, pattern).Some? {
      var i := IndexOf(s, pattern).value;
      ExpandPlain(replacement, pattern, s[..i], s[i + |pattern|..]);
    }
  }

  /** A pattern at the very start is the first occurrence. */
  lemma ReplaceLeading(pattern: string, rest: string, replacement: string)
    ensures ReplaceFirst(pattern + rest, pattern, replacement) == Expand(replacement, pattern, "", rest) + rest
  {
    var s := pattern + rest;
    assert OccursAt(s, pattern, 0);
    assert s[..0] == "" && s[|pattern|..] == rest;
  }

  /** A replacement without `$` replaces a leading pattern as it is. */
  lemma ReplaceLeadingPlain(pattern: string, rest: string, replacement: string)
    requires '$' !in replacement
    ensures ReplaceFirst(pattern + rest, pattern, replacement) == replacement + rest
  {
    ReplaceLeading(pattern, rest, replacement);
    ExpandPlain(replacement, pattern, "", rest);
  }

  /** A pattern that opens with '{' and ends the text is first found after a brace-free
      lead-in. */
  lemma ReplaceAfterBraceFree(lead: string, pattern: string, replacement: string)
    requires '{' !in lead && pattern != [] && pattern[0] == '{'
    ensures ReplaceFirst(lead + pattern, pattern, replacement) == lead + Expand(replacement, pattern, lead, "")
  {
    var s := lead + pattern;
    var i := |lead|;
    assert s[i..i + |pattern|] == pattern;
    forall j | 0 <= j < i ensures !OccursAt(s, pattern, j) {
      assert s[j] == lead[j];
      assert j + |pattern| <= |s| ==> s[j..j + |pattern|][0] == s[j];
    }
    assert OccursAt(s, pattern, i);
    var r := IndexOf(s, pattern);
    assert r == Some(i);
    assert s[..i] == lead && s[i + |pattern|..] == [];
  }

  /** Text before the first dollar sign is copied as it is. */
  lemma {:induction false} ExpandPlainPrefix(lead: string, rest: string, matched: string, before: string, after: string)
    requires '$' !in lead
    ensures Expand(lead + rest, matched, before, after) == lead + Expand(rest, matched, before, after)
    decreases |lead|
  {
    if lead == [] {
      assert lead + rest == rest;
    } else {
      assert (lead + rest)[0] == lead[0] && (lead + rest)[1..] == lead[1..] + rest;
      assert lead[0] != '$' && '$' !in lead[1..];
      ExpandPlainPrefix(lead[1..], rest, matched, before, after);
      assert lead == [lead[0]] + lead[1..];
    }
  }

  /** "$$" between dollar-free texts inserts one dollar sign. */
  lemma ExpandDoubleDollar(lead: string, tail: string, matched: string, before: string, after: string)
    requires '$' !in lead && '$' !in tail
    ensures Expand(lead + "$$" + tail, matched, before, after) == lead + "$" + tail
  {
    assert lead + "$$" + tail == lead + ("$$" + tail);
    ExpandPlainPrefix(lead, "$$" + tail, matched, before, after);
    assert ("$$" + tail)[2..] == tail;
    ExpandPlain(tail, matched, before, after);
  }

  /** The UTF-16 code units JavaScript stores for `c`: a surrogate pair beyond U+FFFF. */
  function Units(c: char): nat {
    if c as int > 0xFFFF then 2 else 1
  }

  /** JavaScript's `length`: the number of UTF-16 code units of `s`. */
  function Utf16Length(s: string): (n: nat)
    ensures |s| <= n <= 2 * |s|
  {
    if s == [] then 0 else Units(s[0]) + Utf16Length(s[1..])
  }

  lemma {:induction false} Utf16LengthAppend(a: string, b: string)
    ensures Utf16Length(a + b) == Utf16Length(a) + Utf16Length(b)
  {
    if a == [] {
      assert a + b == b;
    } else {
      assert (a + b)[0] == a[0] && (a + b)[1..] == a[1..] + b;
      Utf16LengthAppend(a[1..], b);
    }
  }

  /** Text of the Basic Multilingual Plane: one code unit per character. */
  predicate Bmp(s: string) {
    forall i :: 0 <= i < |s| ==> s[i] as int <= 0xFFFF
  }

  lemma {:induction false} BmpLength(s: string)
    requires Bmp(s)
    ensures Utf16Length(s) == |s|
  {
    if s != [] {
      assert Bmp(s[1..]) by {
        forall i | 0 <= i < |s[1..]| ensures s[1..][i] as int <= 0xFFFF {
          assert s[1..][i] == s[i + 1];
        }
      }
      BmpLength(s[1..]);
    }
  }

  /** `s.slice(0, n)` for n >= 0: the characters held in the first `n` code units. A cut
      through a surrogate pair keeps half a character in JavaScript; here it stops before it. */
  function Utf16Prefix(s: string, n: nat): (r: string)
    ensures |r| <= |s| && r == s[..|r|]
    ensures Utf16Length(r) <= n
    ensures |r| < |s| ==> n < Utf16Length(r) + Units(s[|r|])
    ensures Utf16Length(s) <= n ==> r == s
  {
    if s == [] || n < Units(s[0]) then []
    else
      var rest := Utf16Prefix(s[1..], n - Units(s[0]));
      assert ([s[0]] + rest)[1..] == rest;
      assert s[1..][..|rest|] == s[1..|rest| + 1];
      assert |rest| < |s[1..]| ==> s[|rest| + 1] == s[1..][|rest|];
      [s[0]] + rest
  }

  /** On text of the Basic Multilingual Plane the cut is the first `n` characters. */
  lemma {:induction false} BmpPrefix(s: string, n: nat)
    requires Bmp(s)
    ensures Utf16Prefix(s, n) == if n < |s| then s[..n] else s
  {
    var r := Utf16Prefix(s, n);
    BmpLength(s);
    assert Bmp(r) by {
      forall i | 0 <= i < |r| ensures r[i] as int <= 0xFFFF { assert r[i] == s[i]; }
    }
    BmpLength(r);
    if |r| < |s| {
      assert Units(s[|r|]) == 1;
    }
  }

  /** `Array.prototype.join`. */
  function Join(parts: seq<string>, sep: string): string {
    if parts == [] then ""
    else if |parts| == 1 then parts[0]
    else parts[0] + sep + Join(parts[1..], sep)
  }

  function LowerChar(c: char): char {
    if IsUpper(c) then (c as int + 32) as char else c
  }

  /** ASCII approximation of `toLowerCase`. */
  function ToLower(s: string): (r: string)
    ensures |r| == |s|
    ensures forall i :: 0 <= i < |s| ==> r[i] == LowerChar(s[i])
  {
    if s == [] then [] else [LowerChar(s[0])] + ToLower(s[1..])
  }

  function DigitChar(d: nat): char
    requires d < 10
  {
    "0123456789"[d]
  }

  /** Decimal rendering of a natural number, as `String(n)` does. */
  function NatToString(n: nat): (r: string)
    ensures r != [] && AllDigits(r)
  {
    if n < 10 then [DigitChar(n)] else NatToString(n / 10) + [DigitChar(n % 10)]
  }

  /** The number a string of decimal digits denotes (`Number(s)` on digits). */
  function DecimalValue(s: string): nat
    requires AllDigits(s)
  {
    if s == [] then 0 else DecimalValue(s[..|s| - 1]) * 10 + (s[|s| - 1] as int - '0' as int)
  }

  lemma DigitCharValue(d: nat)
    requires d < 10
    ensures DigitChar(d) as int - '0' as int == d
  {
    if d == 0 {} else if d == 1 {} else if d == 2 {} else if d == 3 {} else if d == 4 {}
    else if d == 5 {} else if d == 6 {} else if d == 7 {} else if d == 8 {} else {}
  }

  /** Reading a rendered number back gives the number. */
  lemma {:induction false} DecimalRoundTrip(n: nat)
    ensures DecimalValue(NatToString(n)) == n
  {
    DigitCharValue(n % 10);
    if n >= 10 {
      var r := NatToString(n);
      DecimalRoundTrip(n / 10);
      assert r[..|r| - 1] == NatToString(n / 10);
    }
  }

  /** Two numbers render alike only when they are equal. */
  lemma NatToStringInjective(a: nat, b: nat)
    requires NatToString(a) == NatToString(b)
    ensures a == b
  {
    DecimalRoundTrip(a);
    DecimalRoundTrip(b);
  }

  /** The number of decimal digits at the start of `s`. */
  function DigitRun(s: string): (k: nat)
    ensures k <= |s| && AllDigits(s[..k])
    ensures k < |s| ==> !IsDigit(s[k])
  {
    if s == [] || !IsDigit(s[0]) then 0
    else
      var k := 1 + DigitRun(s[1..]);
      assert s[..k] == [s[0]] + s[1..][..k - 1];
      k
  }

  /** A digit string followed by a non-digit is the whole leading digit run. */
  lemma {:induction false} DigitRunOfDigits(digits: string, rest: string)
    requires AllDigits(digits) && rest != [] && !IsDigit(rest[0])
    ensures DigitRun(digits + rest) == |digits|
  {
    if digits != [] {
      assert (digits + rest)[1..] == digits[1..] + rest;
      DigitRunOfDigits(digits[1..], rest);
    } else {
      assert digits + rest == rest;
    }
  }

  function IntToString(n: int): string {
    if n < 0 then "-" + NatToString(-n) else NatToString(n)
  }

  /** The elements of `s` once each, in first-occurrence order (`[...new Set(s)]`). */
  function Dedup<T(==,!new)>(s: seq<T>): (r: seq<T>)
    ensures forall x :: x in r <==> x in s
    ensures forall i, j :: 0 <= i < j < |r| ==> r[i] != r[j]
  {
    DedupFrom(s, [])
  }

  function DedupFrom<T(==,!new)>(s: seq<T>, seen: seq<T>): (r: seq<T>)
    requires forall i, j :: 0 <= i < j < |seen| ==> seen[i] != seen[j]
    ensures forall x :: x in r <==> x in s || x in seen
    ensures forall i, j :: 0 <= i < j < |r| ==> r[i] != r[j]
    ensures |seen| <= |r| && r[..|seen|] == seen
    decreases |s|
  {
    if s == [] then seen
    else if s[0] in seen then DedupFrom(s[1..], seen)
    else DedupFrom(s[1..], seen + [s[0]])
  }

  predicate NoSlash(s: string) { forall i :: 0 <= i < |s| ==> s[i] != '/' }

  /** `s` split at every '/'. */
  function Split(s: string): (parts: seq<string>)
    ensures |parts| >= 1
    ensures forall i :: 0 <= i < |parts| ==> NoSlash(parts[i])
  {
    if s == [] then [""]
    else if s[0] == '/' then [""] + Split(s[1..])
    else
      var rest := Split(s[1..]);
      [[s[0]] + rest[0]] + rest[1..]
  }

  /** A piece without a slash splits into itself. */
  lemma {:induction false} SplitNoSlash(a: string)
    requires NoSlash(a)
    ensures Split(a) == [a]
    decreases |a|
  {
    if a != [] {
      SplitNoSlash(a[1..]);
      assert [a[0]] + a[1..] == a;
    }
  }
}
