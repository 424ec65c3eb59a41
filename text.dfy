/**
 * The two string utilities of the platform that the initializer relies on:
 * the null-or-blank test of `Validator.isNull` and ASCII lower-casing of
 * `StringUtil.toLowerCase`.
 */
module Text {
  import opened Wrappers

  /** The characters of `s` other than the space character, in order. */
  function NonSpace(s: string): (r: string)
    ensures |r| <= |s|
    ensures forall i :: 0 <= i < |r| ==> r[i] != ' '
  {
    if s == [] then []
    else if s[0] == ' ' then NonSpace(s[1..])
    else [s[0]] + NonSpace(s[1..])
  }

  /** Dropping the spaces leaves nothing exactly when the text is all spaces. */
  lemma {:induction false} NonSpaceEmpty(s: string)
    ensures NonSpace(s) == "" <==> forall i :: 0 <= i < |s| ==> s[i] == ' '
  {
    if s != [] {
      NonSpaceEmpty(s[1..]);
      if s[0] == ' ' {
        assert forall i :: 1 <= i < |s| ==> s[i] == s[1..][i - 1];
      }
    }
  }

  /**
   * The platform's null test for text: a missing value, a value made only of
   * spaces, or the word "null" written with spaces anywhere.
   */
  predicate IsNullText(s: Option<string>): (r: bool)
    ensures r <==> s.None? || (forall i :: 0 <= i < |s.value| ==> s.value[i] == ' ') || NonSpace(s.value) == "null"
  {
    if s.None? then true
    else
      NonSpaceEmpty(s.value);
      NonSpace(s.value) == "" || NonSpace(s.value) == "null"
  }

  /** A blank or absent value is null. */
  lemma {:induction false} BlankIsNull(s: string)
    requires forall i :: 0 <= i < |s| ==> s[i] == ' '
    ensures IsNullText(Some(s))
  {
    if s != [] {
      BlankIsNull(s[1..]);
    }
  }

  /** Spaces inside the word do not matter: " n ull " is null text. */
  lemma SpacedNullIsNull()
    ensures IsNullText(Some(" n ull "))
  {
    assert NonSpace(" n ull ") == "null" by {
      assert NonSpace(" ") == "";
      assert NonSpace("l ") == "l";
      assert NonSpace("ll ") == "ll";
      assert NonSpace("ull ") == "ull";
      assert NonSpace(" ull ") == "ull";
      assert NonSpace("n ull ") == "null";
    }
  }

  /** Only the whole word in lower case counts: "nul" and "NULL" are not null text. */
  lemma OnlyLowerNullIsNull()
    ensures !IsNullText(Some("nul")) && !IsNullText(Some("NULL"))
  {
    assert NonSpace("nul") == "nul" by {
      assert NonSpace("l") == "l";
      assert NonSpace("ul") == "ul";
    }
    assert NonSpace("NULL") == "NULL" by {
      assert NonSpace("L") == "L";
      assert NonSpace("LL") == "LL";
      assert NonSpace("ULL") == "ULL";
    }
  }

  /** The page-element type "Root" is not null text, so "is null or differs from Root" means "differs from Root". */
  lemma RootIsNotNull()
    ensures !IsNullText(Some("Root"))
  {
    assert NonSpace("Root") == "Root" by {
      assert NonSpace("t") == "t";
      assert NonSpace("ot") == "ot";
      assert NonSpace("oot") == "oot";
    }
  }

  function LowerChar(c: char): (r: char)
    ensures 'A' <= c <= 'Z' ==> r as int == c as int + 32
    ensures !('A' <= c <= 'Z') ==> r == c
  {
    if 'A' <= c <= 'Z' then (c as int + 32) as char else c
  }

  /** ASCII lower-casing, character by character. */
  function ToLower(s: string): (r: string)
    ensures |r| == |s|
    ensures forall i :: 0 <= i < |s| ==> r[i] == LowerChar(s[i])
  {
    if s == [] then [] else [LowerChar(s[0])] + ToLower(s[1..])
  }

  /** A lower-case letter is the lower-casing of exactly itself and its capital. */
  lemma LowerCharOf(c: char, lower: char, upper: char)
    requires 'a' <= lower <= 'z' && upper as int == lower as int - 32
    ensures LowerChar(c) == lower <==> c == lower || c == upper
  {
  }

  /** A lower-case word is the lower-casing of exactly its spellings in any mix of cases. */
  lemma ToLowerOf(s: string, lower: string, upper: string)
    requires |lower| == |upper|
    requires forall i :: 0 <= i < |lower| ==> 'a' <= lower[i] <= 'z' && upper[i] as int == lower[i] as int - 32
    ensures ToLower(s) == lower <==> |s| == |lower| && forall i :: 0 <= i < |s| ==> s[i] == lower[i] || s[i] == upper[i]
  {
    if |s| == |lower| {
      forall i | 0 <= i < |s|
        ensures LowerChar(s[i]) == lower[i] <==> s[i] == lower[i] || s[i] == upper[i]
      {
        LowerCharOf(s[i], lower[i], upper[i]);
      }
      if forall i :: 0 <= i < |s| ==> LowerChar(s[i]) == lower[i] {
        assert forall i :: 0 <= i < |s| ==> ToLower(s)[i] == lower[i];
      }
    }
  }

  /** A declared type lower-cases to "content" exactly when it spells "content" in any mix of cases. */
  lemma ContentInAnyCase(s: string)
    ensures ToLower(s) == "content" <==>
      (|s| == 7 && forall i :: 0 <= i < 7 ==> s[i] == "content"[i] || s[i] == "CONTENT"[i])
  {
    var lower, upper := "content", "CONTENT";
    assert lower[0] == 'c' && lower[1] == 'o' && lower[2] == 'n' && lower[3] == 't'
      && lower[4] == 'e' && lower[5] == 'n' && lower[6] == 't';
    assert upper[0] == 'C' && upper[1] == 'O' && upper[2] == 'N' && upper[3] == 'T'
      && upper[4] == 'E' && upper[5] == 'N' && upper[6] == 'T';
    ToLowerOf(s, lower, upper);
  }
}
