/**
 * Python's `str.title()` on ASCII text: a letter that follows a letter is
 * lower-cased, every other letter is upper-cased, and everything that is not
 * an ASCII letter is left as it is and counts as a word break.
 */
module TextCase {

  predicate IsUpper(c: char) { 'A' <= c <= 'Z' }

  predicate IsLower(c: char) { 'a' <= c <= 'z' }

  /** A character that has a case (for ASCII: a letter). */
  predicate IsCased(c: char) { IsUpper(c) || IsLower(c) }

  function ToUpper(c: char): (u: char)
    ensures IsCased(u) == IsCased(c) && !IsLower(u)
    ensures IsCased(c) ==> ToLowerRaw(u) == ToLowerRaw(c)
    ensures !IsCased(c) ==> u == c
  {
    if IsLower(c) then (c as int - 32) as char else c
  }

  // The lowering without a contract, so that ToUpper's contract can mention it.
  function ToLowerRaw(c: char): char
  {
    if IsUpper(c) then (c as int + 32) as char else c
  }

  function ToLower(c: char): (l: char)
    ensures IsCased(l) == IsCased(c) && !IsUpper(l)
    ensures l == ToLowerRaw(c)
    ensures !IsCased(c) ==> l == c
  {
    ToLowerRaw(c)
  }

  /** Title-cases `s`, given whether the character before it was a letter. */
  function TitleFrom(s: string, afterLetter: bool): (t: string)
    ensures |t| == |s|
  {
    if s == [] then []
    else [if afterLetter then ToLower(s[0]) else ToUpper(s[0])] + TitleFrom(s[1..], IsCased(s[0]))
  }

  /** `s.title()`: the same characters, up to the case of letters. */
  function TitleCase(s: string): (t: string)
    ensures |t| == |s|
    ensures forall i :: 0 <= i < |s| ==> ToLower(t[i]) == ToLower(s[i])
  {
    var t := TitleFrom(s, false);
    assert forall i :: 0 <= i < |s| ==> ToLower(t[i]) == ToLower(s[i]) by {
      forall i | 0 <= i < |s|
        ensures ToLower(t[i]) == ToLower(s[i])
      {
        TitleFromAt(s, false, i);
      }
    }
    t
  }

  /** Whether position `i` of `s` continues a word (follows a letter). */
  predicate InsideWord(s: string, i: int)
    requires 0 <= i < |s|
  {
    i > 0 && IsCased(s[i - 1])
  }

  /**
   * The reference reading of a title-cased string: no letter that starts a
   * word is lower case and no letter inside a word is upper case.
   */
  predicate IsTitled(s: string)
  {
    forall i :: 0 <= i < |s| ==> if InsideWord(s, i) then !IsUpper(s[i]) else !IsLower(s[i])
  }

  lemma {:induction false} TitleFromAt(s: string, afterLetter: bool, i: int)
    requires 0 <= i < |s|
    ensures TitleFrom(s, afterLetter)[i] ==
      if (if i == 0 then afterLetter else IsCased(s[i - 1])) then ToLower(s[i]) else ToUpper(s[i])
  {
    if i > 0 {
      TitleFromAt(s[1..], IsCased(s[0]), i - 1);
    }
  }

  /**
   * Title-casing keeps the length, changes only the case of letters, and
   * decides each letter's case by whether the ORIGINAL previous character
   * is a letter.
   */
  lemma TitleCaseAt(s: string, i: int)
    requires 0 <= i < |s|
    ensures |TitleCase(s)| == |s|
    ensures TitleCase(s)[i] == if InsideWord(s, i) then ToLower(s[i]) else ToUpper(s[i])
    ensures IsCased(TitleCase(s)[i]) == IsCased(s[i])
    ensures ToLower(TitleCase(s)[i]) == ToLower(s[i])
  {
    TitleFromAt(s, false, i);
  }

  /** The result of `title()` is title-cased. */
  lemma TitleCaseIsTitled(s: string)
    ensures IsTitled(TitleCase(s))
  {
    var t := TitleCase(s);
    forall i | 0 <= i < |t|
      ensures if InsideWord(t, i) then !IsUpper(t[i]) else !IsLower(t[i])
    {
      TitleCaseAt(s, i);
      if i > 0 {
        TitleCaseAt(s, i - 1);
      }
    }
  }

  /** Exactly the title-cased strings pass through `title()` unchanged. */
  lemma TitleCaseFixedPoints(s: string)
    ensures TitleCase(s) == s <==> IsTitled(s)
  {
    if IsTitled(s) {
      forall i | 0 <= i < |s|
        ensures TitleCase(s)[i] == s[i]
      {
        TitleCaseAt(s, i);
      }
    } else {
      TitleCaseIsTitled(s);
    }
  }

  /** Title-casing twice is title-casing once. */
  lemma TitleCaseIdempotent(s: string)
    ensures TitleCase(TitleCase(s)) == TitleCase(s)
  {
    TitleCaseIsTitled(s);
    TitleCaseFixedPoints(TitleCase(s));
  }

  /** Already-cased condition names come through unchanged. */
  lemma HeartDiseaseUnchanged()
    ensures TitleCase("Heart Disease") == "Heart Disease"
  {
    TitleCaseFixedPoints("Heart Disease");
  }

  /** An all-capitals acronym is lowered after its first letter. */
  lemma AcronymIsLowered()
    ensures TitleCase("COPD") == "Copd"
  {
    var s := "COPD";
    forall i | 0 <= i < 4
      ensures TitleCase(s)[i] == "Copd"[i]
    {
      TitleCaseAt(s, i);
    }
  }
}
