/** The parts of Go's `strings` package the program uses. */
module Text {

  /** unicode.IsSpace. */
  predicate IsSpace(c: char) {
    || c == ' ' || '\t' <= c <= '\r' || c == '\U{85}' || c == '\U{A0}' || c == '\U{1680}'
    || '\U{2000}' <= c <= '\U{200A}' || c == '\U{2028}' || c == '\U{2029}' || c == '\U{202F}'
    || c == '\U{205F}' || c == '\U{3000}'
  }

  function TrimLeft(s: string): string {
    if s != [] && IsSpace(s[0]) then TrimLeft(s[1..]) else s
  }

  function TrimRight(s: string): string {
    if s != [] && IsSpace(s[|s| - 1]) then TrimRight(s[..|s| - 1]) else s
  }

  /** strings.TrimSpace. */
  function Trim(s: string): string {
    TrimRight(TrimLeft(s))
  }

  /** unicode.ToLower, as far as the result can be an ASCII letter: the dotted capital I and the
      Kelvin sign are the only other characters that it maps to ASCII. */
  function LowerChar(c: char): char {
    if 'A' <= c <= 'Z' then c - 'A' + 'a'
    else if c == '\U{130}' then 'i'
    else if c == '\U{212A}' then 'k'
    else c
  }

  function Lower(s: string): string {
    seq(|s|, i requires 0 <= i < |s| => LowerChar(s[i]))
  }

  /** What is used of unicode.ToUpper: upper case stays, blanks stay blanks and letters letters, and ASCII letters
      change as expected. */
  ghost predicate UpperCase(up: char -> char) {
    && (forall c :: up(up(c)) == up(c) && (IsSpace(up(c)) <==> IsSpace(c)))
    && (forall c :: 'a' <= c <= 'z' ==> up(c) == c - 'a' + 'A')
  }

  /** strings.ToUpper. */
  function Upper(s: string, up: char -> char): string {
    seq(|s|, i requires 0 <= i < |s| => up(s[i]))
  }

  predicate OccursAt(s: string, part: string, i: nat) {
    i + |part| <= |s| && s[i..i + |part|] == part
  }

  /** strings.Contains. */
  predicate Contains(s: string, part: string) {
    exists i :: 0 <= i <= |s| && OccursAt(s, part, i)
  }

  lemma ContainsWithin(before: string, s: string, after: string, part: string)
    requires Contains(s, part)
    ensures Contains(before + s + after, part)
  {
    var i :| 0 <= i <= |s| && OccursAt(s, part, i);
    var whole := before + s + after;
    assert whole[|before| + i..|before| + i + |part|] == s[i..i + |part|];
    assert OccursAt(whole, part, |before| + i);
  }

  /** A string that starts and ends with something visible, or nothing. */
  predicate Trimmed(s: string) {
    s == "" || (!IsSpace(s[0]) && !IsSpace(s[|s| - 1]))
  }

  predicate IsBlank(s: string) {
    forall i :: 0 <= i < |s| ==> IsSpace(s[i])
  }

  lemma {:induction false} TrimLeftStarts(s: string)
    ensures TrimLeft(s) == "" || !IsSpace(TrimLeft(s)[0])
    decreases |s|
  {
    if s != [] && IsSpace(s[0]) {
      TrimLeftStarts(s[1..]);
    }
  }

  lemma {:induction false} TrimRightEnds(s: string)
    requires s == "" || !IsSpace(s[0])
    ensures Trimmed(TrimRight(s))
    decreases |s|
  {
    if s != [] && IsSpace(s[|s| - 1]) {
      TrimRightEnds(s[..|s| - 1]);
    }
  }

  lemma TrimIsTrimmed(s: string)
    ensures Trimmed(Trim(s))
  {
    TrimLeftStarts(s);
    TrimRightEnds(TrimLeft(s));
  }

  lemma {:induction false} TrimLeftDrops(before: string, s: string)
    requires IsBlank(before) && (s == "" || !IsSpace(s[0]))
    ensures TrimLeft(before + s) == s
    decreases |before|
  {
    if before == "" {
      assert before + s == s;
    } else {
      assert (before + s)[1..] == before[1..] + s;
      TrimLeftDrops(before[1..], s);
    }
  }

  lemma {:induction false} TrimRightDrops(s: string, after: string)
    requires IsBlank(after) && Trimmed(s)
    ensures TrimRight(s + after) == s
    decreases |after|
  {
    if after == "" {
      assert s + after == s;
    } else {
      var n := |after| - 1;
      assert (s + after)[..|s| + n] == s + after[..n];
      TrimRightDrops(s, after[..n]);
    }
  }

  /** Trimming finds the text between any blank padding. */
  lemma TrimUnpads(before: string, s: string, after: string)
    requires IsBlank(before) && IsBlank(after) && Trimmed(s)
    ensures Trim(before + s + after) == s
  {
    if s == "" {
      assert before + s + after == before + after + "";
      TrimLeftDrops(before + after, "");
    } else {
      assert before + s + after == before + (s + after);
      TrimLeftDrops(before, s + after);
      TrimRightDrops(s, after);
    }
  }

  // -------------------------------------------------- what trimming is meant to do

  /** `t` is `s` without the blanks around it. */
  ghost predicate Unpadded(s: string, t: string) {
    Trimmed(t) && exists before, after :: IsBlank(before) && IsBlank(after) && s == before + t + after
  }

  /** There is exactly one such string. */
  lemma TrimIffUnpadded(s: string, t: string)
    ensures t == Trim(s) <==> Unpadded(s, t)
  {
    if Unpadded(s, t) {
      var before, after :| IsBlank(before) && IsBlank(after) && s == before + t + after;
      TrimUnpads(before, t, after);
    } else {
      TrimIsTrimmed(s);
      var before := LeftPadding(s);
      var after := RightPadding(TrimLeft(s));
      assert s == before + Trim(s) + after;
    }
  }

  lemma {:induction false} LeftPadding(s: string) returns (before: string)
    ensures IsBlank(before) && s == before + TrimLeft(s)
  {
    before := "";
    if s != "" && IsSpace(s[0]) {
      before := LeftPadding(s[1..]);
      before := [s[0]] + before;
      assert s == [s[0]] + s[1..];
    }
  }

  lemma {:induction false} RightPadding(s: string) returns (after: string)
    ensures IsBlank(after) && s == TrimRight(s) + after
  {
    after := "";
    if s != "" && IsSpace(s[|s| - 1]) {
      after := RightPadding(s[..|s| - 1]);
      after := after + [s[|s| - 1]];
      assert s == s[..|s| - 1] + [s[|s| - 1]];
    }
  }

  lemma {:induction false} LeftOfBlank(s: string)
    ensures TrimLeft(s) == "" <==> IsBlank(s)
  {
    if s != "" && IsSpace(s[0]) {
      LeftOfBlank(s[1..]);
      assert s == [s[0]] + s[1..];
    }
  }

  lemma {:induction false} RightOfBlank(s: string)
    ensures TrimRight(s) == "" <==> IsBlank(s)
  {
    if s != "" && IsSpace(s[|s| - 1]) {
      RightOfBlank(s[..|s| - 1]);
      assert s == s[..|s| - 1] + [s[|s| - 1]];
    }
  }

  /** What is trimmed away entirely is exactly what holds nothing but spaces. */
  lemma TrimmedAwayIff(s: string)
    ensures Trim(s) == "" <==> IsBlank(s)
  {
    LeftOfBlank(s);
    RightOfBlank(TrimLeft(s));
    TrimLeftStarts(s);
  }

  // ------------------------------------------------------------------ spellings

  /** A spelling of the character `b` of a lower-case word: itself, its upper case, or one of the two characters outside
      ASCII whose lower case it is. */
  predicate SameLetter(a: char, b: char) {
    || a == b || ('a' <= b <= 'z' && a as int + 32 == b as int)
    || (b == 'i' && a == '\U{130}') || (b == 'k' && a == '\U{212A}')
  }

  /** A word in lower case that neither starts nor ends with a blank. */
  predicate LowerWord(word: string) {
    && word != "" && Trimmed(word)
    && forall i :: 0 <= i < |word| ==> word[i] < '\U{80}' && !('A' <= word[i] <= 'Z')
  }

  /** `s` is `word`, in any case and with any blanks around it. */
  ghost predicate Spells(s: string, word: string) {
    exists t :: Unpadded(s, t) && |t| == |word| && SpelledAt(t, word, 0)
  }

  predicate SpelledAt(s: string, word: string, i: nat) {
    i + |word| <= |s| && forall j :: 0 <= j < |word| ==> SameLetter(s[i + j], word[j])
  }

  /** `word` occurs in `s`, in any case. */
  predicate Holds(s: string, word: string) {
    exists i :: 0 <= i <= |s| && SpelledAt(s, word, i)
  }

  lemma LowerIffSpelledAt(s: string, word: string, i: nat)
    requires LowerWord(word) && i <= |s|
    ensures OccursAt(Lower(s), word, i) <==> SpelledAt(s, word, i)
  {
    if i + |word| <= |s| {
      forall j | 0 <= j < |word| ensures LowerChar(s[i + j]) == word[j] <==> SameLetter(s[i + j], word[j]) {}
    }
  }

  lemma SpellsIff(s: string, word: string)
    requires LowerWord(word)
    ensures Lower(Trim(s)) == word <==> Spells(s, word)
  {
    hide Trim, OccursAt;
    TrimIffUnpadded(s, Trim(s));
    LowerIffSpelledAt(Trim(s), word, 0);
    if |Trim(s)| == |word| {
      WholeIffOccurs(Lower(Trim(s)), word);
    }
    forall t | Unpadded(s, t) ensures t == Trim(s) {
      TrimIffUnpadded(s, t);
    }
  }

  lemma WholeIffOccurs(s: string, word: string)
    requires |s| == |word|
    ensures OccursAt(s, word, 0) <==> s == word
  {
    assert s[0..|s|] == s;
  }

  lemma ContainsIffHolds(s: string, word: string)
    requires LowerWord(word)
    ensures Contains(Lower(s), word) <==> Holds(s, word)
  {
    hide OccursAt, SpelledAt;
    forall i | 0 <= i <= |s| ensures OccursAt(Lower(s), word, i) <==> SpelledAt(s, word, i) {
      LowerIffSpelledAt(s, word, i);
    }
  }

  /** Blanks around a text hide no word. */
  lemma TrimKeepsWords(s: string, word: string)
    requires LowerWord(word)
    ensures Holds(Trim(s), word) <==> Holds(s, word)
  {
    hide Trim;
    TrimIffUnpadded(s, Trim(s));
    var before, after :| IsBlank(before) && IsBlank(after) && s == before + Trim(s) + after;
    if Holds(Trim(s), word) {
      var i :| 0 <= i <= |Trim(s)| && SpelledAt(Trim(s), word, i);
      assert SpelledAt(s, word, |before| + i);
    }
    if Holds(s, word) {
      var i :| 0 <= i <= |s| && SpelledAt(s, word, i);
      NoBlankLetter(s[i], word[0]);
      NoBlankLetter(s[i + |word| - 1], word[|word| - 1]);
      assert |before| <= i && i + |word| <= |before| + |Trim(s)|;
      assert SpelledAt(Trim(s), word, i - |before|);
    }
  }

  lemma NoBlankLetter(a: char, b: char)
    requires SameLetter(a, b) && !IsSpace(b)
    ensures !IsSpace(a)
  {
  }
}
