/**
 * The two string helpers the components apply: `s.replace('_', ' ').toUpperCase()`
 * for labels, and `String.prototype.trim` for the keyword guard.
 */
module Text {

  /** The first index of `c` in `s`, or |s| when there is none. */
  function FirstIndex(s: string, c: char): (k: nat)
    ensures k <= |s|
    ensures k < |s| ==> s[k] == c
    ensures forall j :: 0 <= j < k ==> s[j] != c
  {
    if |s| == 0 then 0
    else if s[0] == c then 0
    else 1 + FirstIndex(s[1..], c)
  }

  /** `s.replace(from, to)` with a one-character string pattern: only the first match is replaced. */
  function ReplaceFirst(s: string, from: char, to: char): (r: string)
    ensures |r| == |s|
    ensures forall j :: 0 <= j < |s| && j != FirstIndex(s, from) ==> r[j] == s[j]
    ensures FirstIndex(s, from) < |s| ==> r[FirstIndex(s, from)] == to
  {
    var k := FirstIndex(s, from);
    if k == |s| then s else s[..k] + [to] + s[k + 1..]
  }

  /** Upper-casing of the ASCII letters a to z; every other character is kept. */
  function UpperChar(c: char): char {
    if 'a' <= c <= 'z' then (c as int - 32) as char else c
  }

  function ToUpper(s: string): string {
    seq(|s|, j requires 0 <= j < |s| => UpperChar(s[j]))
  }

  /** A timeline key or question type as displayed: first '_' to a space, then upper case. */
  function Label(s: string): string {
    ToUpper(ReplaceFirst(s, '_', ' '))
  }

  function Underscores(s: string): nat {
    if |s| == 0 then 0 else (if s[0] == '_' then 1 else 0) + Underscores(s[1..])
  }

  lemma {:induction false} UnderscoresSplit(a: string, c: char, b: string)
    ensures Underscores(a + [c] + b) == Underscores(a) + (if c == '_' then 1 else 0) + Underscores(b)
  {
    if |a| == 0 {
      assert a + [c] + b == [c] + b;
      assert ([c] + b)[1..] == b;
    } else {
      assert (a + [c] + b)[1..] == a[1..] + [c] + b;
      UnderscoresSplit(a[1..], c, b);
    }
  }

  lemma {:induction false} UnderscoresUpper(s: string)
    ensures Underscores(ToUpper(s)) == Underscores(s)
  {
    if |s| > 0 {
      assert ToUpper(s)[1..] == ToUpper(s[1..]);
      UnderscoresUpper(s[1..]);
    }
  }

  /**
   * A label keeps the length of its key, contains no lower-case ASCII
   * letter, and has exactly one underscore fewer when the key had any.
   */
  lemma LabelShape(s: string)
    ensures |Label(s)| == |s|
    ensures forall j :: 0 <= j < |s| ==> !('a' <= Label(s)[j] <= 'z')
    ensures Underscores(Label(s)) == if Underscores(s) > 0 then Underscores(s) - 1 else 0
  {
    var k := FirstIndex(s, '_');
    UnderscoresUpper(ReplaceFirst(s, '_', ' '));
    if k < |s| {
      assert s == s[..k] + ['_'] + s[k + 1..];
      UnderscoresSplit(s[..k], '_', s[k + 1..]);
      UnderscoresSplit(s[..k], ' ', s[k + 1..]);
    } else {
      NoUnderscores(s);
    }
  }

  lemma {:induction false} NoUnderscores(s: string)
    requires forall j :: 0 <= j < |s| ==> s[j] != '_'
    ensures Underscores(s) == 0
  {
    if |s| > 0 {
      NoUnderscores(s[1..]);
    }
  }

  /** The timeline key the acquisition planner shows as "WEEK 5_8". */
  lemma TimelineLabelExample()
    ensures Label("week_5_8") == "WEEK 5_8"
  {
    SpacedWeek();
    UpperWeek();
  }

  lemma SpacedWeek()
    ensures ReplaceFirst("week_5_8", '_', ' ') == "week 5_8"
  {
    assert "week_5_8" == "week" + "_" + "5_8";
    assert "week 5_8" == "week" + " " + "5_8";
    ReplaceAt("week", '_', ' ', "5_8");
  }

  lemma UpperWeek()
    ensures ToUpper("week 5_8") == "WEEK 5_8"
  {
  }

  /** The question type the validation tools show as "PROBLEM VALIDATION". */
  lemma QuestionTypeLabelExample()
    ensures Label("problem_validation") == "PROBLEM VALIDATION"
  {
    SpacedQuestionType();
    UpperQuestionType();
  }

  lemma SpacedQuestionType()
    ensures ReplaceFirst("problem_validation", '_', ' ') == "problem validation"
  {
    assert "problem_validation" == "problem" + "_" + "validation";
    assert "problem validation" == "problem" + " " + "validation";
    ReplaceAt("problem", '_', ' ', "validation");
  }

  /** Replacing in front of the first occurrence: the prefix and suffix are kept. */
  lemma ReplaceAt(a: string, from: char, to: char, b: string)
    requires forall j :: 0 <= j < |a| ==> a[j] != from
    ensures ReplaceFirst(a + [from] + b, from, to) == a + [to] + b
  {
    FirstIndexAfter(a, from, b);
    var s := a + [from] + b;
    assert s[..|a|] == a && s[|a| + 1..] == b;
  }

  lemma UpperQuestionType()
    ensures ToUpper("problem validation") == "PROBLEM VALIDATION"
  {
  }

  lemma {:induction false} FirstIndexAfter(a: string, c: char, b: string)
    requires forall j :: 0 <= j < |a| ==> a[j] != c
    ensures FirstIndex(a + [c] + b, c) == |a|
  {
    if |a| > 0 {
      assert (a + [c] + b)[1..] == a[1..] + [c] + b;
      FirstIndexAfter(a[1..], c, b);
    }
  }

  /** The characters `trim` removes: ECMAScript white space and line terminators. */
  predicate IsWhitespace(c: char) {
    c == '\t' || c == '\n' || c == '\U{B}' || c == '\U{C}' || c == '\r' || c == ' '
    || c == '\U{A0}' || c == '\U{1680}' || ('\U{2000}' <= c <= '\U{200A}')
    || c == '\U{2028}' || c == '\U{2029}' || c == '\U{202F}' || c == '\U{205F}'
    || c == '\U{3000}' || c == '\U{FEFF}'
  }

  function TrimStart(s: string): (r: string)
    ensures |r| <= |s| && r == s[|s| - |r|..]
    ensures forall j :: 0 <= j < |s| - |r| ==> IsWhitespace(s[j])
    ensures |r| > 0 ==> !IsWhitespace(r[0])
  {
    if |s| == 0 || !IsWhitespace(s[0]) then s else TrimStart(s[1..])
  }

  function TrimEnd(s: string): (r: string)
    ensures |r| <= |s| && r == s[..|r|]
    ensures forall j :: |r| <= j < |s| ==> IsWhitespace(s[j])
    ensures |r| > 0 ==> !IsWhitespace(r[|r| - 1])
  {
    if |s| == 0 || !IsWhitespace(s[|s| - 1]) then s else TrimEnd(s[..|s| - 1])
  }

  /** `s.trim()`. */
  function Trim(s: string): string {
    TrimEnd(TrimStart(s))
  }

  /** Trimming leaves nothing exactly when every character is white space. */
  lemma TrimEmpty(s: string)
    ensures Trim(s) == [] <==> forall j :: 0 <= j < |s| ==> IsWhitespace(s[j])
  {
    var t := TrimStart(s);
    if Trim(s) == [] {
      assert |t| == 0;
    }
  }
}
