/** Classifying a failed graph run: a recursion-limit error escalates the run, every
    other error fails it; the classification's message is the formatted error. */
module GraphError {
  import opened Wrappers
  import opened Text
  import opened Domain

  /** A thrown value: an Error object (its name and message), a string, or anything
      else, for which `rendering` is what JSON.stringify (or String, when it throws)
      makes of it. */
  datatype Thrown = ErrorValue(name: string, message: string) | StringValue(text: string) | OtherValue(rendering: string)

  datatype Classification = Classification(
    runStatus: RunStatus,
    notifyStatus: string,
    eventType: string,
    errorCode: Option<string>,
    message: string)

  const RecursionCode: string := "GRAPH_RECURSION_LIMIT"

  /** "name: message" trimmed for an Error (never empty, so the fallback text is never
      used), a string as it is, anything else as rendered. */
  function FormatGraphError(err: Thrown): (text: string)
    ensures err.ErrorValue? ==> text == Trim(err.name + ": " + err.message) && text != ""
    ensures err.StringValue? ==> text == err.text
    ensures err.OtherValue? ==> text == err.rendering
  {
    match err
    case ErrorValue(name, message) =>
      var full := name + ": " + message;
      assert full[|name|] == ':';
      TrimKeepsNonSpace(full, |name|);
      var text := Trim(full);
      if |text| > 0 then text else "Unknown graph error"
    case StringValue(text) => text
    case OtherValue(rendering) => rendering
  }

  /** `/\bGRAPH_RECURSION_LIMIT\b/i` matches at `i` of the lower-cased text `l`. */
  predicate CodeAt(l: string, i: nat) {
    i + 21 <= |l| && OccursAt(l, "graph_recursion_limit", i) && BoundaryBefore(l, i) && BoundaryAfter(l, i + 21)
  }

  /** `/\brecursion limit of \d+ reached\b/i` matches at `i` of the lower-cased text `l`,
      the digits ending at `k`. */
  predicate PhraseAt(l: string, i: nat, k: nat) {
    i + 19 < k && k + 8 <= |l| && OccursAt(l, "recursion limit of ", i) && BoundaryBefore(l, i)
    && AllDigits(l[i + 19..k]) && OccursAt(l, " reached", k) && BoundaryAfter(l, k + 8)
  }

  /** Either recursion pattern matches somewhere in the lower-cased text `l`. */
  predicate MatchesRecursion(l: string) {
    (exists i :: 0 <= i <= |l| && CodeAt(l, i)) || (exists i, k :: 0 <= i < k <= |l| && PhraseAt(l, i, k))
  }

  /** Either recursion pattern matches somewhere, ignoring case. */
  predicate IsGraphRecursionLimitError(message: string) {
    MatchesRecursion(ToLower(message))
  }

  function ClassifyGraphFailure(err: Thrown): (c: Classification)
    ensures c.message == FormatGraphError(err)
    ensures c.runStatus == Escalated <==> IsGraphRecursionLimitError(FormatGraphError(err))
    ensures c.runStatus == Escalated || c.runStatus == Failed
    ensures c.runStatus == Escalated <==> c.notifyStatus == "escalated"
    ensures c.runStatus == Escalated <==> c.eventType == "escalation"
    ensures c.runStatus == Escalated <==> c.errorCode == Some(RecursionCode)
    ensures c.runStatus == Failed <==> c.notifyStatus == "failed" && c.eventType == "error" && c.errorCode.None?
  {
    var message := FormatGraphError(err);
    if IsGraphRecursionLimitError(message) then
      Classification(Escalated, "escalated", "escalation", Some(RecursionCode), message)
    else
      Classification(Failed, "failed", "error", None, message)
  }

  /** Lower-casing works character by character, so it distributes over concatenation. */
  lemma LowerAppend(a: string, b: string)
    ensures ToLower(a + b) == ToLower(a) + ToLower(b)
  {
    var l := ToLower(a + b);
    var r := ToLower(a) + ToLower(b);
    assert forall i :: 0 <= i < |l| ==> l[i] == r[i];
  }

  /** Lower-casing keeps a character a word character or not. */
  lemma LowerKeepsWordChars(c: char)
    ensures IsWordChar(LowerChar(c)) <==> IsWordChar(c)
  {
  }

  /** `before + mid + after` lower-cased, with the character on each side of `mid`
      still a word character or not. */
  lemma LowerAround(before: string, mid: string, after: string)
    ensures ToLower(before + mid + after) == ToLower(before) + ToLower(mid) + ToLower(after)
    ensures before != [] ==> ToLower(before)[|before| - 1] == LowerChar(before[|before| - 1])
    ensures after != [] ==> ToLower(after)[0] == LowerChar(after[0])
  {
    LowerAppend(before + mid, after);
    LowerAppend(before, mid);
  }

  /** The code between two word boundaries matches. */
  lemma CodeMatches(l: string, before: string, after: string)
    requires l == before + "graph_recursion_limit" + after
    requires before == [] || !IsWordChar(before[|before| - 1])
    requires after == [] || !IsWordChar(after[0])
    ensures MatchesRecursion(l)
  {
    var i := |before|;
    assert l[i..i + 21] == "graph_recursion_limit";
    assert i > 0 ==> l[i - 1] == before[|before| - 1];
    assert i + 21 < |l| ==> l[i + 21] == after[0];
    assert CodeAt(l, i);
  }

  /** The middle part of a three-part text. */
  lemma MiddleOf(a: string, b: string, c: string)
    ensures (a + b + c)[|a|..|a| + |b|] == b
  {
  }

  /** "recursion limit of N reached" between two word boundaries matches, for any run of
      digits N. */
  lemma PhraseMatches(l: string, before: string, digits: string, after: string)
    requires l == before + ("recursion limit of " + digits + " reached") + after
    requires digits != [] && AllDigits(digits)
    requires before == [] || !IsWordChar(before[|before| - 1])
    requires after == [] || !IsWordChar(after[0])
    ensures MatchesRecursion(l)
  {
    var mid := "recursion limit of " + digits + " reached";
    var i := |before|;
    var k := i + 19 + |digits|;
    MiddleOf(before, mid, after);
    MiddleOf("recursion limit of ", digits, " reached");
    var m := l[i..i + |mid|];
    assert m == mid;
    assert l[i..i + 19] == m[..19] == "recursion limit of ";
    assert l[i + 19..k] == m[19..19 + |digits|] == digits;
    assert l[k..k + 8] == m[19 + |digits|..] == " reached";
    assert i > 0 ==> l[i - 1] == before[|before| - 1];
    assert k + 8 < |l| ==> l[k + 8] == after[0];
    assert PhraseAt(l, i, k);
  }

  /** An error whose text holds the code, in any letter case, between two word boundaries
      escalates the run with the GRAPH_RECURSION_LIMIT code. */
  lemma RecursionLimitEscalates(err: Thrown, before: string, code: string, after: string)
    requires FormatGraphError(err) == before + code + after
    requires ToLower(code) == "graph_recursion_limit"
    requires before == [] || !IsWordChar(before[|before| - 1])
    requires after == [] || !IsWordChar(after[0])
    ensures ClassifyGraphFailure(err).runStatus == Escalated
    ensures ClassifyGraphFailure(err).errorCode == Some(RecursionCode)
  {
    CodeMatchesAnyCase(before, code, after);
  }

  /** The code matches in any letter case. */
  lemma CodeMatchesAnyCase(before: string, code: string, after: string)
    requires ToLower(code) == "graph_recursion_limit"
    requires before == [] || !IsWordChar(before[|before| - 1])
    requires after == [] || !IsWordChar(after[0])
    ensures IsGraphRecursionLimitError(before + code + after)
  {
    LowerAround(before, code, after);
    if before != [] { LowerKeepsWordChars(before[|before| - 1]); }
    if after != [] { LowerKeepsWordChars(after[0]); }
    CodeMatches(ToLower(before + code + after), ToLower(before), ToLower(after));
  }

  /** Digits between two texts are left alone by lower-casing. */
  lemma LowerDigitsBetween(lead: string, digits: string, tail: string)
    requires AllDigits(digits)
    ensures ToLower(lead + digits + tail) == ToLower(lead) + digits + ToLower(tail)
  {
    LowerAppend(lead + digits, tail);
    LowerAppend(lead, digits);
    LowerOfLower(digits);
  }

  /** The phrase matches in any letter case and with any step count. */
  lemma PhraseMatchesAnyCase(before: string, lead: string, digits: string, tail: string, after: string)
    requires ToLower(lead) == "recursion limit of " && ToLower(tail) == " reached"
    requires digits != [] && AllDigits(digits)
    requires before == [] || !IsWordChar(before[|before| - 1])
    requires after == [] || !IsWordChar(after[0])
    ensures IsGraphRecursionLimitError(before + (lead + digits + tail) + after)
  {
    var mid := lead + digits + tail;
    LowerAround(before, mid, after);
    LowerDigitsBetween(lead, digits, tail);
    if before != [] { LowerKeepsWordChars(before[|before| - 1]); }
    if after != [] { LowerKeepsWordChars(after[0]); }
    PhraseMatches(ToLower(before + mid + after), ToLower(before), digits, ToLower(after));
  }

  /** The phrase LangGraph reports when a run exceeds its step budget, in any letter case
      and with any step count, escalates the run. */
  lemma PhraseEscalates(err: Thrown, before: string, lead: string, digits: string, tail: string, after: string)
    requires FormatGraphError(err) == before + (lead + digits + tail) + after
    requires ToLower(lead) == "recursion limit of " && ToLower(tail) == " reached"
    requires digits != [] && AllDigits(digits)
    requires before == [] || !IsWordChar(before[|before| - 1])
    requires after == [] || !IsWordChar(after[0])
    ensures ClassifyGraphFailure(err).runStatus == Escalated
  {
    PhraseMatchesAnyCase(before, lead, digits, tail, after);
  }

  /** A text without upper-case letters is its own lower-case form. */
  lemma LowerOfLower(m: string)
    requires forall i :: 0 <= i < |m| ==> !IsUpper(m[i])
    ensures ToLower(m) == m
  {
    var l := ToLower(m);
    assert forall i :: 0 <= i < |m| ==> l[i] == m[i];
  }

  /** In a text of word characters only, the code can match only as the whole text. */
  lemma WordCodeIsWhole(l: string, i: nat)
    requires forall j :: 0 <= j < |l| ==> IsWordChar(l[j])
    ensures CodeAt(l, i) ==> l == "graph_recursion_limit"
  {
    if CodeAt(l, i) {
      assert i == 0 && i + 21 == |l|;
      assert l == l[i..i + 21];
    }
  }

  /** The phrase has a space after "recursion". */
  lemma PhraseHasSpace(l: string, i: nat, k: nat)
    ensures PhraseAt(l, i, k) ==> i + 9 < |l| && l[i + 9] == ' '
  {
    if PhraseAt(l, i, k) {
      assert l[i + 9] == l[i..i + 19][9];
    }
  }

  /** A single word other than the code, such as the code glued to further word
      characters, matches neither pattern: the code needs a boundary on each side and
      the phrase needs spaces. */
  lemma GluedHasNoPattern(l: string)
    requires forall j :: 0 <= j < |l| ==> IsWordChar(l[j])
    requires l != "graph_recursion_limit"
    ensures !MatchesRecursion(l)
  {
    forall i | 0 <= i <= |l| ensures CodeAt(l, i) ==> l == "graph_recursion_limit" {
      WordCodeIsWhole(l, i);
    }
    forall i, k | 0 <= i < k <= |l| ensures PhraseAt(l, i, k) ==> i + 9 < |l| && l[i + 9] == ' ' {
      PhraseHasSpace(l, i, k);
    }
  }

  /** A single word whose lower-case form is not the code is no recursion-limit error. */
  lemma GluedCodeIsNoMatch(m: string)
    requires forall j :: 0 <= j < |m| ==> IsWordChar(m[j])
    requires ToLower(m) != "graph_recursion_limit"
    ensures !IsGraphRecursionLimitError(m)
  {
    var l := ToLower(m);
    forall j | 0 <= j < |l| ensures IsWordChar(l[j]) {
      LowerKeepsWordChars(m[j]);
    }
    GluedHasNoPattern(l);
  }

  /** The code spells "recursion" six characters in. */
  lemma CodeSpellsRecursion(l: string, i: nat)
    ensures CodeAt(l, i) ==> OccursAt(l, "recursion", i + 6)
  {
    if CodeAt(l, i) {
      assert l[i + 6..i + 15] == l[i..i + 21][6..15];
    }
  }

  /** The phrase starts with "recursion". */
  lemma PhraseSpellsRecursion(l: string, i: nat, k: nat)
    ensures PhraseAt(l, i, k) ==> OccursAt(l, "recursion", i)
  {
    if PhraseAt(l, i, k) {
      assert l[i..i + 9] == l[i..i + 19][..9];
      assert "recursion limit of "[..9] == "recursion";
    }
  }

  /** Both patterns spell out "recursion": a text without it matches neither. */
  lemma NoRecursionNoMatch(l: string)
    requires forall i :: !OccursAt(l, "recursion", i)
    ensures !MatchesRecursion(l)
  {
    forall i | 0 <= i <= |l| ensures CodeAt(l, i) ==> OccursAt(l, "recursion", i + 6) {
      CodeSpellsRecursion(l, i);
    }
    forall i, k | 0 <= i < k <= |l| ensures PhraseAt(l, i, k) ==> OccursAt(l, "recursion", i) {
      PhraseSpellsRecursion(l, i, k);
    }
  }

  /** Any error whose text does not mention "recursion" in any letter case fails the run. */
  lemma OrdinaryErrorFails(err: Thrown)
    requires forall i :: !OccursAt(ToLower(FormatGraphError(err)), "recursion", i)
    ensures ClassifyGraphFailure(err).runStatus == Failed
    ensures ClassifyGraphFailure(err).errorCode.None?
  {
    NoRecursionNoMatch(ToLower(FormatGraphError(err)));
  }
}
