/** The two validators of the mobile client's `utils.ts`. */
module ClientUtils {
  import opened Strings

  /** `IsEmptyString`: the string trims (with JavaScript's white space) to nothing. */
  predicate IsEmptyString(s: string) {
    |TrimBy(s, IsJsWhitespace)| == 0
  }

  /** A string is blank exactly when every character of it is JavaScript white space. */
  lemma EmptyStringIsAllWhitespace(s: string)
    ensures IsEmptyString(s) <==> forall i :: 0 <= i < |s| ==> IsJsWhitespace(s[i])
  {
    TrimByEmpty(s, IsJsWhitespace);
  }

  /** Any character that is not white space makes a string non-blank. */
  lemma NonWhitespaceIsNotEmpty(s: string, i: nat)
    requires i < |s| && !IsJsWhitespace(s[i])
    ensures !IsEmptyString(s)
  {
    EmptyStringIsAllWhitespace(s);
  }

  /** `IsCodeOk`: a key phrase is twenty `-`-separated words. */
  predicate IsCodeOk(code: string) {
    |Split(code, '-')| == 20
  }

  /** The check only counts separators: exactly nineteen `-`, whatever the words are. */
  lemma CodeOkIffNineteenDashes(code: string)
    ensures IsCodeOk(code) <==> Count(code, '-') == 19
  {
    SplitLength(code, '-');
  }

  /** The empty string is one empty word, so it is not a key phrase; nineteen bare dashes are one. */
  lemma CodeOkEdgeCases()
    ensures !IsCodeOk("")
    ensures IsCodeOk("-------------------")
  {
    CountAllSeparators("-------------------", '-');
    CodeOkIffNineteenDashes("-------------------");
  }

  /** Twenty dash-free words joined with `-` always pass the check, empty words included. */
  lemma JoinedWordsAreCode(words: seq<string>)
    requires |words| == 20
    requires forall i :: 0 <= i < |words| ==> '-' !in words[i]
    ensures IsCodeOk(Join(words, '-'))
  {
    SplitJoin(words, '-');
  }
}
