/** Recognising the words that end the session: an input line whose lower-case
    form is "exit" or "quit".  Lower-casing is modelled on ASCII letters only.
 */
module ExitCommand {

  /** ASCII lower-casing of one character; every other character is unchanged.
      The result is never a capital letter. */
  function LowerChar(c: char): (r: char)
    ensures !('A' <= r <= 'Z')
  {
    if 'A' <= c <= 'Z' then (c as int + 32) as char else c
  }

  /** The lower-case form of a line, character by character. */
  function Lower(s: string): (r: string)
    ensures |r| == |s|
    ensures forall i :: 0 <= i < |s| ==> r[i] == LowerChar(s[i])
  {
    if s == [] then [] else [LowerChar(s[0])] + Lower(s[1..])
  }

  /** The exit test: the lower-case form of the input is one of the two words. */
  predicate IsExit(userInput: string)
  {
    Lower(userInput) in ["exit", "quit"]
  }

  /** A reference description of a case-insensitive match against a lower-case
      word: same length, and at each position the word's letter or its capital. */
  predicate MatchesIgnoringCase(s: string, lower: string, upper: string)
    requires |lower| == |upper|
  {
    |s| == |lower| && forall i :: 0 <= i < |s| ==> s[i] == lower[i] || s[i] == upper[i]
  }

  /** A character lower-cases to a lower-case letter exactly when it is that
      letter or its capital. */
  lemma LowerCharIsLetter(c: char, l: char)
    requires 'a' <= l <= 'z'
    ensures LowerChar(c) == l <==> c == l || c as int == l as int - 32
  {
  }

  /** Lower-casing a line gives a word of lower-case letters exactly when the
      line matches that word ignoring case. */
  lemma LowerEqualsIff(s: string, lower: string, upper: string)
    requires |lower| == |upper|
    requires forall i :: 0 <= i < |lower| ==> 'a' <= lower[i] <= 'z' && upper[i] as int == lower[i] as int - 32
    ensures Lower(s) == lower <==> MatchesIgnoringCase(s, lower, upper)
  {
    if |s| == |lower| {
      forall i | 0 <= i < |s|
        ensures LowerChar(s[i]) == lower[i] <==> s[i] == lower[i] || s[i] == upper[i]
      {
        LowerCharIsLetter(s[i], lower[i]);
      }
      if MatchesIgnoringCase(s, lower, upper) {
        assert forall i :: 0 <= i < |s| ==> Lower(s)[i] == lower[i];
      }
    }
  }

  /** The session ends on exactly the case variants of "exit" and "quit" and on
      nothing else. */
  lemma ExitIffCaseVariant(s: string)
    ensures IsExit(s) <==> MatchesIgnoringCase(s, "exit", "EXIT") || MatchesIgnoringCase(s, "quit", "QUIT")
  {
    LowerEqualsIff(s, "exit", "EXIT");
    LowerEqualsIff(s, "quit", "QUIT");
  }

  /** Examples: capitals are accepted in any position. */
  lemma ExitExamplesAccepted()
    ensures IsExit("exit") && IsExit("EXIT") && IsExit("Quit") && IsExit("qUiT")
  {
    ExitIffCaseVariant("exit");
    ExitIffCaseVariant("EXIT");
    ExitIffCaseVariant("Quit");
    ExitIffCaseVariant("qUiT");
  }

  /** Examples: the line is not trimmed, so a surrounding space makes it an
      ordinary input, as do other words and the empty line. */
  lemma ExitExamplesRejected()
    ensures !IsExit("exit ") && !IsExit(" quit") && !IsExit("bye") && !IsExit("")
  {
    ExitIffCaseVariant("exit ");
    ExitIffCaseVariant(" quit");
    ExitIffCaseVariant("bye");
    ExitIffCaseVariant("");
  }
}
