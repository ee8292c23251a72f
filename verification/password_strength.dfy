/** The password strength meter shown under the signup form's password input
    (src/components/auth/password-strength.tsx).

    The effect scores the password with a local accumulator: up to two points
    for length, one point per character class present, two points off when a
    common word appears as a whole word, then clamps the score to 0..4 and
    picks one of five labels. The render colours a four-segment bar and the
    label from that score. */
module PasswordStrength {

  // ---------------------------------------------------------------------------
  // Character classes, as the bracket expressions of the regular expressions
  // ---------------------------------------------------------------------------

  /** `[A-Z]` */
  predicate IsUpper(c: char) { 'A' <= c <= 'Z' }

  /** `[a-z]` */
  predicate IsLower(c: char) { 'a' <= c <= 'z' }

  /** `[0-9]` */
  predicate IsDigit(c: char) { '0' <= c <= '9' }

  /** `[^A-Za-z0-9]`: anything that is not an ASCII letter or digit. */
  predicate IsOther(c: char) { !IsUpper(c) && !IsLower(c) && !IsDigit(c) }

  /** The characters `\b` treats as word characters: `[A-Za-z0-9_]`. */
  predicate IsWordChar(c: char) { IsUpper(c) || IsLower(c) || IsDigit(c) || c == '_' }

  predicate HasUpper(s: string) { exists i :: 0 <= i < |s| && IsUpper(s[i]) }
  predicate HasLower(s: string) { exists i :: 0 <= i < |s| && IsLower(s[i]) }
  predicate HasDigit(s: string) { exists i :: 0 <= i < |s| && IsDigit(s[i]) }
  predicate HasOther(s: string) { exists i :: 0 <= i < |s| && IsOther(s[i]) }

  // ---------------------------------------------------------------------------
  // The common-word pattern /\b(password|123456|qwerty|admin)\b/i
  // ---------------------------------------------------------------------------

  const CommonWords: seq<string> := ["password", "123456", "qwerty", "admin"]

  /** Case folding of the `i` flag without the `u` flag: only ASCII letters
      have a case partner that can match an ASCII pattern character. */
  function FoldCase(c: char): (f: char)
    ensures IsUpper(c) ==> IsLower(f) && f as int == c as int + 32
    ensures !IsUpper(c) ==> f == c
  {
    if IsUpper(c) then (c as int + 32) as char else c
  }

  /** `\b` at position `p`: exactly one of the characters on either side of
      `p` is a word character (the outside of the string counts as non-word). */
  predicate WordBoundary(s: string, p: nat)
    requires p <= |s|
    // at either end of the string, a boundary exactly when the end character is a word character
    ensures p == 0 ==> (WordBoundary(s, p) <==> |s| > 0 && IsWordChar(s[0]))
    ensures p == |s| ==> (WordBoundary(s, p) <==> |s| > 0 && IsWordChar(s[|s| - 1]))
    // inside the string, a boundary needs a word character on exactly one side
    ensures 0 < p < |s| && WordBoundary(s, p) ==> IsWordChar(s[p - 1]) || IsWordChar(s[p])
  {
    (p > 0 && IsWordChar(s[p - 1])) != (p < |s| && IsWordChar(s[p]))
  }

  /** `w` occurs at position `p` of `s`, ignoring ASCII letter case. */
  predicate MatchesAt(s: string, p: nat, w: string)
    ensures MatchesAt(s, p, w) ==> p + |w| <= |s|
    // a lower-case letter of the pattern matches itself or its capital ...
    ensures MatchesAt(s, p, w) ==> forall k :: 0 <= k < |w| && IsLower(w[k]) ==>
      s[p + k] == w[k] || s[p + k] as int == w[k] as int - 32
    // ... and any other non-letter of the pattern only matches itself
    ensures MatchesAt(s, p, w) ==> forall k :: 0 <= k < |w| && !IsLower(w[k]) && !IsUpper(w[k]) ==>
      s[p + k] == w[k]
  {
    p + |w| <= |s| && forall k :: 0 <= k < |w| ==> FoldCase(s[p + k]) == FoldCase(w[k])
  }

  /** `\bw\b` matches at position `p`. */
  predicate WholeWordAt(s: string, p: nat, w: string)
    ensures WholeWordAt(s, p, w) ==> p + |w| <= |s|
    // a word that starts and ends with word characters is not preceded or
    // followed by another word character
    ensures WholeWordAt(s, p, w) && |w| > 0 && IsWordChar(w[0]) ==> p == 0 || !IsWordChar(s[p - 1])
    ensures WholeWordAt(s, p, w) && |w| > 0 && IsWordChar(w[|w| - 1]) ==>
      p + |w| == |s| || !IsWordChar(s[p + |w|])
  {
    MatchesAt(s, p, w) && WordBoundary(s, p) && WordBoundary(s, p + |w|)
  }

  /** The regular expression's `test`: some alternative matches as a whole
      word somewhere in `s`. */
  predicate HasCommonWord(s: string)
    // the shortest common word, "admin", has five characters
    ensures HasCommonWord(s) ==> |s| >= 5
  {
    assert forall j :: 0 <= j < |CommonWords| ==> |CommonWords[j]| >= 5;
    exists j, p: nat :: 0 <= j < |CommonWords| && p <= |s| && WholeWordAt(s, p, CommonWords[j])
  }

  // ---------------------------------------------------------------------------
  // The score, as a function of the password
  // ---------------------------------------------------------------------------

  /** Points for length: one at 8 characters, another at 12. */
  function LengthPoints(password: string): (r: nat)
    ensures r <= 2
    ensures r == 0 <==> |password| < 8
    ensures r == 1 <==> 8 <= |password| < 12
    ensures r == 2 <==> 12 <= |password|
  {
    (if |password| >= 8 then 1 else 0) + (if |password| >= 12 then 1 else 0)
  }

  function Indicator(b: bool): nat { if b then 1 else 0 }

  /** One point for each of the four character classes that occurs at least once. */
  function ClassPoints(password: string): (r: nat)
    ensures r <= 4
    ensures r == 4 <==> HasUpper(password) && HasLower(password) && HasDigit(password) && HasOther(password)
    ensures r == 0 <==> password == []
  {
    assert password != [] ==> IsUpper(password[0]) || IsLower(password[0]) || IsDigit(password[0]) || IsOther(password[0]);
    Indicator(HasUpper(password)) + Indicator(HasLower(password))
      + Indicator(HasDigit(password)) + Indicator(HasOther(password))
  }

  /** The score before normalisation: may range from -2 to 6. */
  function RawScore(password: string): (r: int)
    ensures -2 <= r <= 6
  {
    LengthPoints(password) + ClassPoints(password) - (if HasCommonWord(password) then 2 else 0)
  }

  /** `Math.max(0, Math.min(4, score))` */
  function Clamp(score: int): (r: nat)
    ensures r <= 4
    ensures 0 <= score <= 4 ==> r == score
    ensures score < 0 ==> r == 0
    ensures score > 4 ==> r == 4
  {
    if score < 0 then 0 else if score > 4 then 4 else score
  }

  /** The strength the meter settles on for `password`. */
  function Strength(password: string): (r: nat)
    ensures r <= 4
  {
    Clamp(RawScore(password))
  }

  const Messages: seq<string> := ["Very weak", "Weak", "Moderate", "Strong", "Very strong"]

  /** `messages[score]`: the label for a strength. */
  function Message(strength: nat): (m: string)
    requires strength < |Messages|
    ensures m in Messages
  {
    Messages[strength]
  }

  // ---------------------------------------------------------------------------
  // The component: the effect that recomputes strength and message
  // ---------------------------------------------------------------------------

  class Meter {
    var strength: int
    var message: string

    /** `useState(0)` and `useState('')` before the first effect runs. */
    constructor ()
      ensures strength == 0 && message == ""
    {
      strength := 0;
      message := "";
    }

    /** The effect run whenever `password` changes. */
    method Recalculate(password: string)
      modifies this
      ensures 0 <= strength <= 4
      ensures strength == Strength(password)
      ensures message == Messages[strength]
    {
      var score := 0;

      if |password| >= 8 { score := score + 1; }
      if |password| >= 12 { score := score + 1; }

      if HasUpper(password) { score := score + 1; }
      if HasLower(password) { score := score + 1; }
      if HasDigit(password) { score := score + 1; }
      if HasOther(password) { score := score + 1; }

      if HasCommonWord(password) { score := score - 2; }

      score := Max(0, Min(4, score));
      strength := score;
      message := Messages[score];
    }
  }

  function Max(a: int, b: int): (r: int)
    ensures r >= a && r >= b && (r == a || r == b)
  {
    if a >= b then a else b
  }

  function Min(a: int, b: int): (r: int)
    ensures r <= a && r <= b && (r == a || r == b)
  {
    if a <= b then a else b
  }

  // ---------------------------------------------------------------------------
  // The render: the four-segment bar and the label colour
  // ---------------------------------------------------------------------------

  const SegmentCount := 4

  /** The conditional classes of bar segment `i`. */
  datatype SegmentClasses = SegmentClasses(destructive: bool, orange: bool, yellow: bool, green: bool, muted: bool)
  {
    predicate Coloured() { destructive || orange || yellow || green }
  }

  /** Segment `i` of the bar for a given strength. */
  function Segment(strength: int, i: nat): (r: SegmentClasses)
    requires i < SegmentCount
    ensures r.Coloured() <==> i < strength
    ensures r.muted <==> !r.Coloured()
    ensures r.destructive ==> i == 0
    ensures r.orange ==> i == 1
    ensures r.yellow ==> i == 2
    ensures r.green ==> i == 3
  {
    SegmentClasses(
      destructive := strength > 0 && i == 0,
      orange := strength > 1 && i == 1,
      yellow := strength > 2 && i == 2,
      green := strength > 3 && i == 3,
      muted := i >= strength)
  }

  /** The conditional classes of the label paragraph. */
  datatype LabelClasses = LabelClasses(destructive: bool, orange: bool, yellow: bool, green: bool)

  function LabelColour(strength: int): (r: LabelClasses)
    ensures 0 <= strength <= 4 ==>
      Indicator(r.destructive) + Indicator(r.orange) + Indicator(r.yellow) + Indicator(r.green) == 1
  {
    LabelClasses(
      destructive := strength <= 1,
      orange := strength == 2,
      yellow := strength == 3,
      green := strength == 4)
  }

  /** The label is drawn only for a non-empty password. */
  predicate LabelShown(password: string) { password != "" }

  // ---------------------------------------------------------------------------
  // Properties
  // ---------------------------------------------------------------------------

  /** The strength is always a valid index into the five labels, so the
      message is always one of them. */
  lemma StrengthIndexesMessages(password: string)
    ensures 0 <= Strength(password) < |Messages|
    ensures Message(Strength(password)) == Messages[Strength(password)]
  {
  }

  /** The empty password scores 0 and reads "Very weak". */
  lemma EmptyIsVeryWeak()
    ensures Strength("") == 0
    ensures Message(Strength("")) == "Very weak"
    ensures !LabelShown("")
  {
    assert !HasCommonWord("") by {
      forall j, p: nat | 0 <= j < |CommonWords| && p <= 0
        ensures !WholeWordAt("", p, CommonWords[j])
      {
        assert |CommonWords[j]| > 0;
      }
    }
  }

  /** A character adds at most one point, and none when its class is
      already present: each class counts once however often it occurs. */
  lemma {:induction false} ClassCountsOnce(password: string, c: char)
    ensures ClassPoints(password) <= ClassPoints(password + [c]) <= ClassPoints(password) + 1
    ensures (IsUpper(c) && HasUpper(password)) || (IsLower(c) && HasLower(password))
         || (IsDigit(c) && HasDigit(password)) || (IsOther(c) && HasOther(password))
         ==> ClassPoints(password + [c]) == ClassPoints(password)
  {
    var s := password + [c];
    assert s[|password|] == c;
    assert forall i :: 0 <= i < |password| ==> s[i] == password[i];
    assert HasUpper(s) == (HasUpper(password) || IsUpper(c));
    assert HasLower(s) == (HasLower(password) || IsLower(c));
    assert HasDigit(s) == (HasDigit(password) || IsDigit(c));
    assert HasOther(s) == (HasOther(password) || IsOther(c));
  }

  /** The common-word penalty lowers the raw score by exactly two. */
  lemma PenaltyIsTwo(password: string)
    ensures HasCommonWord(password) ==> RawScore(password) == LengthPoints(password) + ClassPoints(password) - 2
    ensures !HasCommonWord(password) ==> RawScore(password) == LengthPoints(password) + ClassPoints(password)
  {
  }

  /** "password" matches the common-word pattern: 1 (length) + 1 (lower) - 2 = 0. */
  lemma PasswordIsVeryWeak()
    ensures HasCommonWord("password")
    ensures Strength("password") == 0
    ensures Message(Strength("password")) == "Very weak"
  {
    assert WholeWordAt("password", 0, CommonWords[0]);
    assert HasLower("password") by { assert IsLower("password"[0]); }
    assert !HasUpper("password");
    assert !HasDigit("password");
    assert !HasOther("password");
  }

  /** The common word must stand alone: in "Password123!" the word is
      followed by a digit, so there is no boundary and no penalty. */
  lemma CommonWordNeedsBoundary()
    ensures !HasCommonWord("Password123!")
    ensures Strength("Password123!") == 4
  {
    var s := "Password123!";
    forall j, p: nat | 0 <= j < |CommonWords| && p <= |s|
      ensures !WholeWordAt(s, p, CommonWords[j])
    {
      var w := CommonWords[j];
      if j == 0 && p == 0 {
        assert !WordBoundary(s, p + |w|);
      }
    }
    assert IsUpper(s[0]) && IsLower(s[1]) && IsDigit(s[8]) && IsOther(s[11]);
  }

  /** Two characters that fold to the same character are both word
      characters or both not. */
  lemma WordCharIgnoresCase(a: char, b: char)
    requires FoldCase(a) == FoldCase(b)
    ensures IsWordChar(a) <==> IsWordChar(b)
  {
  }

  /** A whole-word match survives changing the case of letters anywhere in
      the string. */
  lemma WholeWordIgnoresCase(s: string, t: string, p: nat, w: string)
    requires |s| == |t|
    requires forall k :: 0 <= k < |s| ==> FoldCase(s[k]) == FoldCase(t[k])
    requires WholeWordAt(s, p, w)
    ensures WholeWordAt(t, p, w)
  {
    if p > 0 {
      WordCharIgnoresCase(s[p - 1], t[p - 1]);
    }
    if p < |s| {
      WordCharIgnoresCase(s[p], t[p]);
    }
    if p + |w| > 0 {
      WordCharIgnoresCase(s[p + |w| - 1], t[p + |w| - 1]);
    }
    if p + |w| < |s| {
      WordCharIgnoresCase(s[p + |w|], t[p + |w|]);
    }
    forall k | 0 <= k < |w|
      ensures FoldCase(t[p + k]) == FoldCase(w[k])
    {
      assert FoldCase(s[p + k]) == FoldCase(w[k]);
    }
  }

  /** The `i` flag: two passwords that differ only in the case of their
      letters are penalised alike. */
  lemma CommonWordIgnoresCase(s: string, t: string)
    requires |s| == |t|
    requires forall k :: 0 <= k < |s| ==> FoldCase(s[k]) == FoldCase(t[k])
    ensures HasCommonWord(s) <==> HasCommonWord(t)
  {
    if HasCommonWord(s) {
      var j, p: nat :| 0 <= j < |CommonWords| && p <= |s| && WholeWordAt(s, p, CommonWords[j]);
      WholeWordIgnoresCase(s, t, p, CommonWords[j]);
    }
    if HasCommonWord(t) {
      var j, p: nat :| 0 <= j < |CommonWords| && p <= |t| && WholeWordAt(t, p, CommonWords[j]);
      WholeWordIgnoresCase(t, s, p, CommonWords[j]);
    }
  }

  /** Capitals do not escape the penalty: "PASSWORD" matches the pattern
      because "password" does. */
  lemma UpperCaseIsPenalised()
    ensures HasCommonWord("PASSWORD")
  {
    var lower, upper := "password", "PASSWORD";
    assert WholeWordAt(lower, 0, CommonWords[0]);
    forall k | 0 <= k < |lower| ensures FoldCase(lower[k]) == FoldCase(upper[k]) {
      assert upper[k] as int + 32 == lower[k] as int;
    }
    CommonWordIgnoresCase(lower, upper);
  }

  /** "PASSWORD" scores 1 (length) + 1 (upper) - 2 = 0, like "password". */
  lemma UpperCaseIsVeryWeak()
    ensures Strength("PASSWORD") == 0
  {
    var upper := "PASSWORD";
    UpperCaseIsPenalised();
    assert HasUpper(upper) by { assert IsUpper(upper[0]); }
    assert !HasLower(upper);
    assert !HasDigit(upper);
    assert !HasOther(upper);
  }

  /** Twelve characters or more with all four classes and no common word
      reach the top of the scale. */
  lemma AllClassesLongIsVeryStrong(password: string)
    requires |password| >= 12
    requires HasUpper(password) && HasLower(password) && HasDigit(password) && HasOther(password)
    requires !HasCommonWord(password)
    ensures Strength(password) == 4
    ensures Message(Strength(password)) == "Very strong"
  {
  }

  /** Bar segment `i` is coloured exactly when `i < strength`, muted
      otherwise, never both; and the label takes the colour of the highest
      coloured segment. */
  lemma BarMatchesStrength(password: string, i: nat)
    requires i < SegmentCount
    ensures Segment(Strength(password), i).Coloured() <==> i < Strength(password)
    ensures Segment(Strength(password), i).muted != Segment(Strength(password), i).Coloured()
    ensures var st := Strength(password);
            st > 0 ==> LabelColour(st) == LabelClasses(
              Segment(st, st - 1).destructive, Segment(st, st - 1).orange,
              Segment(st, st - 1).yellow, Segment(st, st - 1).green)
  {
  }
}
