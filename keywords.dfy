/** The table of reserved words and the type name the lexer gives a word. */
module Keywords {

  /** The thirteen reserved words, matched case-sensitively. */
  const ReservedKeywords: set<string> := {
    "int", "float", "string", "read", "write", "repeat", "until", "if",
    "elseif", "else", "then", "return", "end"
  }

  /** `isReservedKeyword`: membership in the table. Every reserved word is
      two to six lower-case letters long. */
  predicate IsReservedKeyword(word: string): (reserved: bool)
    ensures reserved ==> 2 <= |word| <= 6 && forall k :: 0 <= k < |word| ==> 'a' <= word[k] <= 'z'
  {
    word in ReservedKeywords
  }

  /** `::toupper` on one character, for ASCII. */
  function UpperChar(c: char): char {
    if 'a' <= c <= 'z' then (c as int - 32) as char else c
  }

  /** `::toupper` applied to every character of `s`. */
  function Upper(s: string): (u: string)
    ensures |u| == |s|
  {
    seq(|s|, k requires 0 <= k < |s| => UpperChar(s[k]))
  }

  /** The type name of an identifier-or-keyword token whose text is `word`:
      the uppercased word for a reserved word, "IDENTIFIER" otherwise. */
  function WordKind(word: string): (kind: string)
    ensures kind == "IDENTIFIER" <==> !IsReservedKeyword(word)
    ensures IsReservedKeyword(word) ==> kind == Upper(word)
  {
    if IsReservedKeyword(word) then Upper(word) else "IDENTIFIER"
  }

  /** The type names of the reserved words: `Upper` of each word of
      `ReservedKeywords`, written out; `KeywordKindOf` proves that the type
      of every reserved word is among them. */
  const KeywordKinds: set<string> := {
    "INT", "FLOAT", "STRING", "READ", "WRITE", "REPEAT", "UNTIL", "IF",
    "ELSEIF", "ELSE", "THEN", "RETURN", "END"
  }

  /** A reserved word's type name is one of the thirteen keyword type names,
      so it is never "IDENTIFIER", "NUMBER" or "COMMENT"; it is "STRING" only
      for the word `string`. */
  lemma KeywordKindOf(word: string)
    requires IsReservedKeyword(word)
    ensures WordKind(word) in KeywordKinds
    ensures WordKind(word) == "STRING" <==> word == "string"
  {
    if word in {"int", "float", "string", "read", "write", "repeat", "until"} {
      EarlierKeywordKinds(word);
    } else {
      LaterKeywordKinds(word);
    }
  }

  lemma EarlierKeywordKinds(word: string)
    requires word in {"int", "float", "string", "read", "write", "repeat", "until"}
    ensures Upper(word) in KeywordKinds && (Upper(word) == "STRING" <==> word == "string")
  {
    var u := Upper(word);
    if word == "int" { assert u == "INT"; }
    else if word == "float" { assert u == "FLOAT"; }
    else if word == "string" { assert u == "STRING"; }
    else if word == "read" { assert u == "READ"; }
    else if word == "write" { assert u == "WRITE"; }
    else if word == "repeat" { assert u == "REPEAT"; }
    else { assert u == "UNTIL"; }
  }

  lemma LaterKeywordKinds(word: string)
    requires word in {"if", "elseif", "else", "then", "return", "end"}
    ensures Upper(word) in KeywordKinds && Upper(word) != "STRING"
  {
    var u := Upper(word);
    if word == "if" { assert u == "IF"; }
    else if word == "elseif" { assert u == "ELSEIF"; }
    else if word == "else" { assert u == "ELSE"; }
    else if word == "then" { assert u == "THEN"; }
    else if word == "return" { assert u == "RETURN"; }
    else { assert u == "END"; }
  }

  predicate HasUpperCaseLetter(word: string) {
    exists k :: 0 <= k < |word| && 'A' <= word[k] <= 'Z'
  }

  /** Every reserved word is spelled in lower case. */
  lemma ReservedWordsAreLowerCase(word: string)
    requires IsReservedKeyword(word)
    ensures !HasUpperCaseLetter(word)
  {
  }

  /** Keywords are matched case-sensitively: a word with any upper-case
      letter in it (`READ`, `If`, `eLsE`) is an identifier. */
  lemma {:induction false} CaseSensitiveKeywords(word: string)
    requires HasUpperCaseLetter(word)
    ensures !IsReservedKeyword(word)
    ensures WordKind(word) == "IDENTIFIER"
  {
    if IsReservedKeyword(word) {
      ReservedWordsAreLowerCase(word);
    }
  }

  function LowerChar(c: char): char {
    if 'A' <= c <= 'Z' then (c as int + 32) as char else c
  }

  /** Any spelling of a reserved word other than the reserved one itself,
      differing only in letter case, lexes as an identifier. */
  lemma {:induction false} OtherCasingIsIdentifier(keyword: string, word: string)
    requires IsReservedKeyword(keyword)
    requires |word| == |keyword| && word != keyword
    requires forall k :: 0 <= k < |word| ==> LowerChar(word[k]) == keyword[k]
    ensures WordKind(word) == "IDENTIFIER"
  {
    ReservedWordsAreLowerCase(keyword);
    var k :| 0 <= k < |word| && word[k] != keyword[k];
    assert LowerChar(word[k]) == keyword[k];
    assert 'A' <= word[k] <= 'Z';
    CaseSensitiveKeywords(word);
  }

  /** Distinct reserved words get distinct type names: uppercasing loses
      nothing on words spelled in lower case. */
  lemma {:induction false} KeywordKindsDistinct(w1: string, w2: string)
    requires IsReservedKeyword(w1) && IsReservedKeyword(w2) && w1 != w2
    ensures WordKind(w1) != WordKind(w2)
  {
    ReservedWordsAreLowerCase(w1);
    ReservedWordsAreLowerCase(w2);
    if |w1| == |w2| {
      var k :| 0 <= k < |w1| && w1[k] != w2[k];
      assert Upper(w1)[k] != Upper(w2)[k];
    }
  }
}
