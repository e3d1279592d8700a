/** `formatCategoryName` of `frontend/src/utils/categories.ts`, over ASCII text. */
module CategoryNames {
  import opened Text

  predicate IsSpace(c: char) {
    c == ' ' || 9 <= c as int <= 13
  }

  /** Underscores and white space separate words. */
  predicate IsSeparator(c: char) {
    c == '_' || IsSpace(c)
  }

  function TrimStart(s: string): string {
    if s != [] && IsSpace(s[0]) then TrimStart(s[1..]) else s
  }

  function TrimEnd(s: string): string {
    if s != [] && IsSpace(s[|s| - 1]) then TrimEnd(s[..|s| - 1]) else s
  }

  function Trim(s: string): string {
    TrimEnd(TrimStart(s))
  }

  /** The words of `s`, none of them empty; `word` holds the characters read since the last separator. */
  function Words(s: string, word: string): seq<string> {
    if s == [] then (if word == [] then [] else [word])
    else if IsSeparator(s[0]) then (if word == [] then [] else [word]) + Words(s[1..], [])
    else Words(s[1..], word + [s[0]])
  }

  function Capitalized(word: string): string {
    if word == [] then [] else [UpperChar(word[0])] + Lower(word[1..])
  }

  /** The words with a capital each, one space apart. */
  function JoinCapitalized(words: seq<string>): string {
    if |words| == 0 then []
    else if |words| == 1 then Capitalized(words[0])
    else Capitalized(words[0]) + " " + JoinCapitalized(words[1..])
  }

  const GENERIC_NAMES := ["other", "uncategorized", "unknown", "general merchandise", "general_merchandise", "general"]

  function FormatCategoryName(name: string): string {
    if name == "" || Lower(Trim(name)) in GENERIC_NAMES then "Shopping"
    else
      var formatted := JoinCapitalized(Words(Trim(name), ""));
      if Lower(formatted) == "general merchandise" || Lower(formatted) == "other" then "Shopping" else formatted
  }

  lemma {:induction false} WordsHaveNoUnderscore(s: string, word: string)
    requires '_' !in word
    ensures forall w :: w in Words(s, word) ==> '_' !in w
  {
    if s != [] {
      if IsSeparator(s[0]) {
        WordsHaveNoUnderscore(s[1..], []);
      } else {
        WordsHaveNoUnderscore(s[1..], word + [s[0]]);
      }
    }
  }

  lemma {:induction false} CapitalizedHasNoUnderscore(word: string)
    requires '_' !in word
    ensures '_' !in Capitalized(word)
  {
  }

  lemma {:induction false} JoinHasNoUnderscore(words: seq<string>)
    requires forall w :: w in words ==> '_' !in w
    ensures '_' !in JoinCapitalized(words)
  {
    if |words| > 0 {
      CapitalizedHasNoUnderscore(words[0]);
      if |words| > 1 {
        JoinHasNoUnderscore(words[1..]);
      }
    }
  }

  /** A formatted name never contains an underscore and is never the name `Other` that
      `groupMinorSubcategories` introduces. */
  lemma {:induction false} FormattedNameIsReserved(name: string)
    ensures '_' !in FormatCategoryName(name) && FormatCategoryName(name) != "Other"
  {
    WordsHaveNoUnderscore(Trim(name), "");
    JoinHasNoUnderscore(Words(Trim(name), ""));
    assert Lower("Other") == "other";
  }

  /** A separator ends a word. */
  lemma {:induction false} WordEnds(a: string, c: char, b: string, word: string)
    requires forall i :: 0 <= i < |a| ==> !(a[i] == '_' || a[i] == ' ')  && !(9 <= a[i] as int <= 13)
    requires c == '_' || c == ' ' || 9 <= c as int <= 13
    ensures Words(a + [c] + b, word) == (if word + a == "" then [] else [word + a]) + Words(b, "")
    ensures Words(a, word) == if word + a == "" then [] else [word + a]
    decreases a
  {
    if a == "" {
      assert a + [c] + b == [c] + b && word + a == word;
    } else {
      WordEnds(a[1..], c, b, word + [a[0]]);
      assert (a + [c] + b)[1..] == a[1..] + [c] + b && (a + [c] + b)[0] == a[0];
      assert word + [a[0]] + a[1..] == word + a;
    }
  }

  /** A word keeps its letters; the first is shown large and the others small. */
  lemma {:induction false} CapitalizedKeepsLetters(word: string)
    ensures Lower(Capitalized(word)) == Lower(word)
    ensures word != "" ==> !('a' <= Capitalized(word)[0] <= 'z')
    ensures forall i :: 0 < i < |Capitalized(word)| ==> !('A' <= Capitalized(word)[i] <= 'Z')
  {
    var shown := Lower(Capitalized(word));
    assert |shown| == |Lower(word)|;
    assert forall i :: 0 <= i < |word| ==> shown[i] == Lower(word)[i];
  }

  /** Words are joined one space apart. */
  lemma {:induction false} JoinedByOneSpace(word: string, words: seq<string>)
    ensures JoinCapitalized([word]) == Capitalized(word)
    ensures words != [] ==> JoinCapitalized([word] + words) == Capitalized(word) + " " + JoinCapitalized(words)
  {
    assert ([word] + words)[1..] == words;
  }

  /** Names that say nothing become "Shopping". */
  lemma {:induction false} GenericIsShopping(name: string)
    requires || name == ""
             || Lower(Trim(name)) in {"other", "uncategorized", "unknown", "general merchandise", "general_merchandise", "general"}
    ensures FormatCategoryName(name) == "Shopping"
  {
  }

  /** All others are shown word by word, unless that gives a name that says nothing after all. */
  lemma {:induction false} OtherNamesByWord(name: string)
    requires name != ""
    requires Lower(Trim(name)) !in {"other", "uncategorized", "unknown", "general merchandise", "general_merchandise", "general"}
    ensures var shown := JoinCapitalized(Words(Trim(name), ""));
            FormatCategoryName(name) == if Lower(shown) in {"general merchandise", "other"} then "Shopping" else shown
  {
  }
}
