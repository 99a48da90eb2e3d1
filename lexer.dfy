/** The lexer: `tokenize` and the character classes and scanning loops it is
    built from. The ghost functions `Step`, `LexFrom` and `Lex` say what the
    scan produces; the method `Tokenize` is the scan itself, written as
    `tokenize` in `Compiler.cpp` writes it, and is proved to produce exactly `Lex(text)`. */
module Lexer {
  import opened Tokens
  import opened Keywords

  /** A character the lexer rejects, with the index where it stood. The text
      is a sequence of characters, so this is a character index. */
  datatype LexError = UnexpectedChar(ch: char, position: nat)

  const NUL: char := '\0'

  /** `text[j]` of a `std::string`, which is NUL at `j == text.size()`; reads
      further out are NUL too so that the function is total. */
  function Peek(text: string, j: nat): char {
    if j < |text| then text[j] else NUL
  }

  // The `<cctype>` classes, for ASCII.

  predicate IsSpace(c: char) {
    c == ' ' || c == '\t' || c == '\n' || c == '\U{B}' || c == '\U{C}' || c == '\r'
  }

  predicate IsDigit(c: char) {
    '0' <= c <= '9'
  }

  predicate IsAlpha(c: char) {
    'a' <= c <= 'z' || 'A' <= c <= 'Z'
  }

  predicate IsAlnum(c: char) {
    IsAlpha(c) || IsDigit(c)
  }

  /** A character that continues a number: a digit or a dot. */
  predicate IsNumberChar(c: char) {
    IsDigit(c) || c == '.'
  }

  /** A character that starts an identifier or keyword. */
  predicate IsWordStart(c: char) {
    IsAlpha(c) || c == '_'
  }

  /** A character that continues an identifier or keyword. */
  predicate IsWordChar(c: char) {
    IsAlnum(c) || c == '_'
  }

  // The two characters at `i` are the comment opener, slash then star.
  predicate OpensComment(text: string, i: nat) {
    i + 1 < |text| && text[i] == '/' && text[i + 1] == '*'
  }

  // The two characters at `i` are the comment closer, star then slash.
  predicate ClosesComment(text: string, i: nat) {
    i + 1 < |text| && text[i] == '*' && text[i + 1] == '/'
  }

  // Where each scanning loop of `tokenize` stops.

  /** The index at which the string-literal loop, looking at `j` first,
      stops: the next `"`, or the last index of the text, whichever comes
      first (or `j` itself when `j` is already past the last index). */
  function QuoteStop(text: string, j: nat): (p: nat)
    requires 0 < j <= |text|
    ensures j <= p <= |text|
    ensures p == j || p <= |text| - 1
    ensures forall k :: j <= k < p ==> text[k] != '"'
    ensures p < |text| - 1 ==> text[p] == '"'
    decreases |text| - j
  {
    if Peek(text, j) == '"' || j >= |text| - 1 then j else QuoteStop(text, j + 1)
  }

  /** The end of the run of digits and dots that starts at `j`. */
  function NumberEnd(text: string, j: nat): (e: nat)
    requires j <= |text|
    ensures j <= e <= |text|
    ensures forall k :: j <= k < e ==> IsNumberChar(text[k])
    ensures e == |text| || !IsNumberChar(text[e])
    decreases |text| - j
  {
    if IsNumberChar(Peek(text, j)) then NumberEnd(text, j + 1) else j
  }

  /** The end of the run of letters, digits and underscores that starts at `j`. */
  function WordEnd(text: string, j: nat): (e: nat)
    requires j <= |text|
    ensures j <= e <= |text|
    ensures forall k :: j <= k < e ==> IsWordChar(text[k])
    ensures e == |text| || !IsWordChar(text[e])
    decreases |text| - j
  {
    if IsWordChar(Peek(text, j)) then WordEnd(text, j + 1) else j
  }

  // The index at which the comment loop, looking at `j` first, stops: the
  // next closer (star, slash), or the last index of the text.
  function CommentStop(text: string, j: nat): (e: nat)
    requires j < |text|
    ensures j <= e < |text|
    ensures forall k :: j <= k < e ==> !ClosesComment(text, k)
    ensures ClosesComment(text, e) || e == |text| - 1
    decreases |text| - j
  {
    if ClosesComment(text, j) || j >= |text| - 1 then j else CommentStop(text, j + 1)
  }

  // Operators and punctuation.

  /** The operators that take one character of lookahead, with their type names. */
  const TwoCharOperators: map<string, string> := map[
    ":=" := "COLON_EQUALS",
    "<=" := "LESS_THAN_OR_EQUAL",
    ">=" := "MORE_THAN_OR_EQUAL",
    "!=" := "CONDITION_OPERATOR",
    "&&" := "BOOLEAN_OPERATOR",
    "||" := "BOOLEAN_OPERATOR"
  ]

  /** The characters that make a token on their own, with their type names. */
  const OneCharOperators: map<char, string> := map[
    ':' := "COLON", '<' := "LESS_THAN", '>' := "MORE_THAN", '=' := "EQUALS",
    ';' := "SEMICOLON", '+' := "PLUS", '-' := "MINUS", '*' := "STAR", '/' := "SLASH",
    '(' := "LEFT_PAREN", ')' := "RIGHT_PAREN", '{' := "LEFT_BRACE", '}' := "RIGHT_BRACE",
    ',' := "COMMA"
  ]

  /** What the `switch` of `tokenize` does with character `c` followed by `d`. */
  datatype Punct = Pair(kind: string, lexeme: string) | Single(kind: string, lexeme: string) | Unexpected

  /** The `switch` of `tokenize`: a two-character operator when `c` and `d`
      form one, otherwise a one-character token when `c` is one, otherwise
      an error (a lone `!`, `&` or `|`, or any character not listed). */
  function Punctuation(c: char, d: char): (r: Punct)
    ensures r.Pair? <==> [c, d] in TwoCharOperators
    ensures r.Pair? ==> r == Pair(TwoCharOperators[[c, d]], [c, d])
    ensures r.Single? <==> [c, d] !in TwoCharOperators && c in OneCharOperators
    ensures r.Single? ==> r == Single(OneCharOperators[c], [c])
  {
    match c
    case ':' => if d == '=' then Pair("COLON_EQUALS", ":=") else Single("COLON", ":")
    case '<' => if d == '=' then Pair("LESS_THAN_OR_EQUAL", "<=") else Single("LESS_THAN", "<")
    case '>' => if d == '=' then Pair("MORE_THAN_OR_EQUAL", ">=") else Single("MORE_THAN", ">")
    case '=' => Single("EQUALS", "=")
    case '!' => if d == '=' then Pair("CONDITION_OPERATOR", "!=") else Unexpected
    case '&' => if d == '&' then Pair("BOOLEAN_OPERATOR", "&&") else Unexpected
    case '|' => if d == '|' then Pair("BOOLEAN_OPERATOR", "||") else Unexpected
    case ';' => Single("SEMICOLON", ";")
    case '+' => Single("PLUS", "+")
    case '-' => Single("MINUS", "-")
    case '*' => Single("STAR", "*")
    case '/' => Single("SLASH", "/")
    case '(' => Single("LEFT_PAREN", "(")
    case ')' => Single("RIGHT_PAREN", ")")
    case '{' => Single("LEFT_BRACE", "{")
    case '}' => Single("RIGHT_BRACE", "}")
    case ',' => Single("COMMA", ",")
    case _ => Unexpected
  }

  // What a token looks like, by the character it starts at.

  /** `v` is the text of the string-literal token that starts at `s`: a
      quote, the characters up to where the loop stopped, and a quote that
      is appended whether or not the literal was closed. The loop stops at
      the closing quote or at the last index of the text, so an unclosed
      literal loses its last character. */
  ghost predicate StringLexemeAt(text: string, s: nat, v: string) {
    2 <= |v| && v[0] == '"' && v[|v| - 1] == '"' &&
    var p := s + |v| - 1;
    p <= |text| && v[1..|v| - 1] == text[s + 1..p] &&
    (forall k :: s < k < p ==> text[k] != '"') &&
    ((p < |text| && text[p] == '"') || p + 1 >= |text|) &&
    // The loop's first step is taken before its test, so it ends past the
    // text only when the opening quote is the last character.
    (p < |text| || p == s + 1)
  }

  /** At most one text satisfies the string-literal shape at `s`: the loop
      leaves no choice, whether or not the literal is closed. */
  lemma StringLexemeUnique(text: string, s: nat, v1: string, v2: string)
    requires StringLexemeAt(text, s, v1) && StringLexemeAt(text, s, v2)
    ensures v1 == v2
  {
    assert v1[1..|v1| - 1] == v2[1..|v2| - 1];
    assert v1 == [v1[0]] + v1[1..|v1| - 1] + [v1[|v1| - 1]];
    assert v2 == [v2[0]] + v2[1..|v2| - 1] + [v2[|v2| - 1]];
  }

  /** `v` is the maximal run of digits and dots that starts with the digit at `s`. */
  ghost predicate NumberLexemeAt(text: string, s: nat, v: string) {
    1 <= |v| && s + |v| <= |text| && text[s..s + |v|] == v && IsDigit(v[0]) &&
    (forall k :: 0 <= k < |v| ==> IsNumberChar(v[k])) &&
    (s + |v| == |text| || !IsNumberChar(text[s + |v|]))
  }

  // `v` is the text of the comment token that starts at `s`: the opener
  // (slash, star), the characters after the opening slash up to and
  // including the star of the first closer (or up to the end of the text),
  // then a closer (star, slash) appended whether or not the comment was
  // closed.
  ghost predicate CommentLexemeAt(text: string, s: nat, v: string) {
    5 <= |v| && v[..2] == "/*" && v[|v| - 2..] == "*/" &&
    var e := s + |v| - 4;
    e < |text| && v[2..|v| - 2] == text[s + 1..e + 1] &&
    (forall k :: s < k < e ==> !ClosesComment(text, k)) &&
    (ClosesComment(text, e) || e == |text| - 1)
  }

  /** `v` is the maximal run of letters, digits and underscores that starts
      with the letter or underscore at `s`. */
  ghost predicate WordLexemeAt(text: string, s: nat, v: string) {
    1 <= |v| && s + |v| <= |text| && text[s..s + |v|] == v && IsWordStart(v[0]) &&
    (forall k :: 0 <= k < |v| ==> IsWordChar(v[k])) &&
    (s + |v| == |text| || !IsWordChar(text[s + |v|]))
  }

  /** `t` is the operator token that starts at `s`: the two-character
      operator when one starts there, else the one-character token. */
  ghost predicate OperatorTokenAt(text: string, s: nat, t: Token)
    requires s < |text|
  {
    var pair := [text[s], Peek(text, s + 1)];
    if pair in TwoCharOperators then
      t.value == pair && t.kind == TwoCharOperators[pair]
    else
      text[s] in OneCharOperators && t.value == [text[s]] && t.kind == OneCharOperators[text[s]]
  }

  /** No operator or punctuation type name is shared with an identifier,
      a keyword, a number, a string literal or a comment. */
  lemma OperatorKindsAreDistinct(text: string, s: nat, t: Token)
    requires s < |text| && OperatorTokenAt(text, s, t)
    ensures t.kind !in {"IDENTIFIER", "NUMBER", "STRING", "COMMENT"} && t.kind !in KeywordKinds
  {
  }

  /** The token that the scan emits at `s`, described by the character at
      `s` in the order in which `tokenize` tries the cases. */
  ghost predicate TokenShape(text: string, s: nat, t: Token)
    requires s < |text|
  {
    var c := text[s];
    if c == '"' then t.kind == "STRING" && StringLexemeAt(text, s, t.value)
    else if IsDigit(c) then t.kind == "NUMBER" && NumberLexemeAt(text, s, t.value)
    else if OpensComment(text, s) then t.kind == "COMMENT" && CommentLexemeAt(text, s, t.value)
    else if IsWordStart(c) then t.kind == WordKind(t.value) && WordLexemeAt(text, s, t.value)
    else OperatorTokenAt(text, s, t)
  }

  /** The character at `i` is reported as unexpected: it starts no token. */
  ghost predicate BadCharAt(text: string, i: nat)
    requires i < |text|
  {
    var c := text[i];
    !IsSpace(c) && c != '"' && !IsDigit(c) && !OpensComment(text, i) && !IsWordStart(c) &&
    [c, Peek(text, i + 1)] !in TwoCharOperators && c !in OneCharOperators
  }

  // One iteration of the outer loop, and the whole scan.

  /** What one iteration of the outer loop does at `i`: skip whitespace
      (noting a newline), emit a token, or report the character. `next` is
      the index the following iteration looks at. */
  datatype Scan =
    | Skip(next: nat, newline: bool)
    | Emit(token: Token, next: nat)
    | Reject(error: LexError, next: nat)

  ghost function Step(text: string, i: nat, line: nat): (r: Scan)
    requires i < |text|
    ensures i < r.next <= |text| + 1
  {
    var c := text[i];
    if c == '\n' then Skip(i + 1, true)
    else if IsSpace(c) then Skip(i + 1, false)
    else if c == '"' then
      var p := QuoteStop(text, i + 1);
      Emit(Token("STRING", "\"" + text[i + 1..p] + "\"", line), p + 1)
    else if IsDigit(c) then
      var e := NumberEnd(text, i + 1);
      Emit(Token("NUMBER", text[i..e], line), e)
    else if OpensComment(text, i) then
      var e := CommentStop(text, i);
      Emit(Token("COMMENT", "/*" + text[i + 1..e + 1] + "*/", line), e + 2)
    else if IsWordStart(c) then
      var e := WordEnd(text, i + 1);
      Emit(Token(WordKind(text[i..e]), text[i..e], line), e)
    else
      match Punctuation(c, Peek(text, i + 1))
      case Pair(kind, lexeme) => Emit(Token(kind, lexeme, line), i + 2)
      case Single(kind, lexeme) => Emit(Token(kind, lexeme, line), i + 1)
      case Unexpected => Reject(UnexpectedChar(c, i), i + 1)
  }

  /** What one iteration does, stated by the character at `i`: whitespace is
      skipped and only a newline counts a line; a token is emitted in the
      shape `TokenShape` gives, on the current line, and the next iteration
      looks just past its text (a comment's appended closer excepted); any
      other character is reported, with its index, and the scan resumes at
      the next character. */
  lemma StepProperties(text: string, i: nat, line: nat)
    requires i < |text|
    ensures var r := Step(text, i, line);
      && (r.Skip? <==> IsSpace(text[i]))
      && (r.Skip? ==> r.next == i + 1 && (r.newline <==> text[i] == '\n'))
      && (r.Emit? ==> TokenShape(text, i, r.token) && r.token.line == line)
      && (r.Emit? && !OpensComment(text, i) ==> r.next == i + |r.token.value|)
      && (r.Emit? && OpensComment(text, i) ==> r.next == i + |r.token.value| - 2)
      && (r.Reject? <==> BadCharAt(text, i))
      && (r.Reject? ==> r.error == UnexpectedChar(text[i], i) && r.next == i + 1)
  {
    StepSkipsOrRejects(text, i, line);
    StepEmits(text, i, line);
    EmittedTokenShape(text, i, line);
  }

  /** The whitespace and error cases of one iteration, and the line of an
      emitted token. */
  lemma StepSkipsOrRejects(text: string, i: nat, line: nat)
    requires i < |text|
    ensures var r := Step(text, i, line);
      && (r.Skip? <==> IsSpace(text[i]))
      && (r.Skip? ==> r.next == i + 1 && (r.newline <==> text[i] == '\n'))
      && (r.Emit? ==> r.token.line == line)
      && (r.Reject? <==> BadCharAt(text, i))
      && (r.Reject? ==> r.error == UnexpectedChar(text[i], i) && r.next == i + 1)
  {
  }

  /** Where the iteration after an emitted token looks. */
  lemma StepEmits(text: string, i: nat, line: nat)
    requires i < |text|
    ensures var r := Step(text, i, line);
      && (r.Emit? && !OpensComment(text, i) ==> r.next == i + |r.token.value|)
      && (r.Emit? && OpensComment(text, i) ==> r.next == i + |r.token.value| - 2)
  {
    var c := text[i];
    if IsSpace(c) {
    } else if c == '"' {
      var p := QuoteStop(text, i + 1);
      assert |Step(text, i, line).token.value| == p - i + 1;
    } else if IsDigit(c) {
    } else if OpensComment(text, i) {
      var e := CommentStop(text, i);
      assert |Step(text, i, line).token.value| == e - i + 4;
    }
  }

  /** The token an iteration emits, if any. */
  function Emitted(r: Scan): seq<Token> {
    if r.Emit? then [r.token] else []
  }

  /** The error an iteration reports, if any. */
  function Rejected(r: Scan): seq<LexError> {
    if r.Reject? then [r.error] else []
  }

  /** The line counter after an iteration that started on `line`. */
  function LineAfter(r: Scan, line: nat): nat {
    if r.Skip? && r.newline then line + 1 else line
  }

  // The token an iteration emits is in the shape `TokenShape` gives; one
  // lemma per branch of `Step`.

  lemma StringStepShape(text: string, i: nat, line: nat)
    requires i < |text| && text[i] == '"'
    ensures Step(text, i, line).Emit? && StringLexemeAt(text, i, Step(text, i, line).token.value)
  {
    var p := QuoteStop(text, i + 1);
    var v := Step(text, i, line).token.value;
    assert v == "\"" + text[i + 1..p] + "\"";
    assert v[1..|v| - 1] == text[i + 1..p];
  }

  lemma NumberStepShape(text: string, i: nat, line: nat)
    requires i < |text| && IsDigit(text[i])
    ensures Step(text, i, line).Emit? && NumberLexemeAt(text, i, Step(text, i, line).token.value)
  {
  }

  lemma CommentStepShape(text: string, i: nat, line: nat)
    requires i < |text| && text[i] != '"' && !IsDigit(text[i]) && OpensComment(text, i)
    ensures Step(text, i, line).Emit? && CommentLexemeAt(text, i, Step(text, i, line).token.value)
  {
    var e := CommentStop(text, i);
    var v := Step(text, i, line).token.value;
    assert v == "/*" + text[i + 1..e + 1] + "*/";
    assert v[2..|v| - 2] == text[i + 1..e + 1];
  }

  lemma WordStepShape(text: string, i: nat, line: nat)
    requires i < |text| && IsWordStart(text[i]) && !OpensComment(text, i)
    ensures Step(text, i, line).Emit?
    ensures WordLexemeAt(text, i, Step(text, i, line).token.value)
    ensures Step(text, i, line).token.kind == WordKind(Step(text, i, line).token.value)
  {
  }

  lemma EmittedTokenShape(text: string, i: nat, line: nat)
    requires i < |text|
    ensures Step(text, i, line).Emit? ==> TokenShape(text, i, Step(text, i, line).token)
  {
    var c := text[i];
    if IsSpace(c) {
    } else if c == '"' {
      StringStepShape(text, i, line);
    } else if IsDigit(c) {
      NumberStepShape(text, i, line);
    } else if OpensComment(text, i) {
      CommentStepShape(text, i, line);
    } else if IsWordStart(c) {
      WordStepShape(text, i, line);
    }
  }

  /** The result of a scan: the tokens, the rejected characters, and (for
      the proofs) the index at which each token starts. */
  datatype Lexed = Lexed(tokens: seq<Token>, errors: seq<LexError>, starts: seq<nat>)

  /** The scan from index `i` on, with `line` as the current line number. */
  ghost function LexFrom(text: string, i: nat, line: nat): (r: Lexed)
    ensures |r.starts| == |r.tokens|
    ensures forall k :: 0 <= k < |r.starts| ==> i <= r.starts[k] < |text|
    decreases |text| + 1 - i
  {
    if i >= |text| then Lexed([], [], [])
    else
      var s := Step(text, i, line);
      var rest := LexFrom(text, s.next, LineAfter(s, line));
      Lexed(Emitted(s) + rest.tokens, Rejected(s) + rest.errors,
            (if s.Emit? then [i] else []) + rest.starts)
  }

  /** The loop invariant of `Tokenize` survives one iteration that adds what
      `Step` emits. */
  lemma TokenizeAdvances(text: string, i: nat, line: nat, tokens0: seq<Token>, errors0: seq<LexError>,
                         tokens: seq<Token>, errors: seq<LexError>)
    requires i < |text|
    requires Lex(text).tokens == tokens0 + LexFrom(text, i, line).tokens
    requires Lex(text).errors == errors0 + LexFrom(text, i, line).errors
    requires tokens == tokens0 + Emitted(Step(text, i, line))
    requires errors == errors0 + Rejected(Step(text, i, line))
    ensures var r := Step(text, i, line);
      var rest := LexFrom(text, r.next, LineAfter(r, line));
      Lex(text).tokens == tokens + rest.tokens && Lex(text).errors == errors + rest.errors
  {
    var r := Step(text, i, line);
    var rest := LexFrom(text, r.next, LineAfter(r, line));
    LexFromStep(text, i, line);
    AppendAssociates(tokens0, Emitted(r), rest.tokens);
    AppendAssociates(errors0, Rejected(r), rest.errors);
  }

  /** The scan from `i` is what `Step` does at `i` followed by the scan from
      where it leaves off. */
  lemma LexFromStep(text: string, i: nat, line: nat)
    requires i < |text|
    ensures var r := Step(text, i, line);
      var rest := LexFrom(text, r.next, LineAfter(r, line));
      && LexFrom(text, i, line).tokens == Emitted(r) + rest.tokens
      && LexFrom(text, i, line).errors == Rejected(r) + rest.errors
  {
  }

  /** `tokenize(text)`: the scan from the first character, on line 1. */
  ghost function Lex(text: string): Lexed {
    LexFrom(text, 0, 1)
  }

  // The inner loops of `tokenize`. Each starts with `i` at the first
  // character of its token and returns the token's text and the index the
  // outer loop's own increment starts from.

  /** The string-literal loop: it steps forward first, then stops at a
      double quote or at the last index of the text. */
  method ScanString(text: string, start: nat) returns (word: string, i: nat)
    requires start < |text| && text[start] == '"'
    ensures i == QuoteStop(text, start + 1)
    ensures word == "\"" + text[start + 1..i] + "\""
  {
    word := "\"";
    i := start + 1;
    while Peek(text, i) != '"' && i < |text| - 1
      invariant start < i <= |text|
      invariant word == "\"" + text[start + 1..i]
      invariant QuoteStop(text, i) == QuoteStop(text, start + 1)
      decreases |text| - i
    {
      word := word + [text[i]];
      i := i + 1;
    }
    word := word + "\"";
  }

  /** The number loop: it advances while the next character is a digit or a dot. */
  method ScanNumber(text: string, start: nat) returns (word: string, i: nat)
    requires start < |text| && IsDigit(text[start])
    ensures i + 1 == NumberEnd(text, start + 1)
    ensures word == text[start..i + 1]
  {
    word := [text[start]];
    i := start;
    while IsNumberChar(Peek(text, i + 1))
      invariant start <= i < |text|
      invariant word == text[start..i + 1]
      invariant NumberEnd(text, i + 1) == NumberEnd(text, start + 1)
      decreases |text| - i
    {
      i := i + 1;
      word := word + [text[i]];
    }
  }

  /** The comment loop: it runs until the two characters at `i` are the closer or
      `i` is the last index of the text. */
  method ScanComment(text: string, start: nat) returns (word: string, i: nat)
    requires OpensComment(text, start)
    ensures i == CommentStop(text, start)
    ensures word == "/*" + text[start + 1..i + 1] + "*/"
  {
    word := "/*";
    i := start;
    while !ClosesComment(text, i) && i < |text| - 1
      invariant start <= i < |text|
      invariant word == "/*" + text[start + 1..i + 1]
      invariant CommentStop(text, i) == CommentStop(text, start)
      decreases |text| - i
    {
      i := i + 1;
      word := word + [text[i]];
    }
    word := word + "*/";
  }

  /** The identifier loop: it advances while the next character is a letter,
      a digit or an underscore. */
  method ScanWord(text: string, start: nat) returns (word: string, i: nat)
    requires start < |text| && IsWordStart(text[start])
    ensures i + 1 == WordEnd(text, start + 1)
    ensures word == text[start..i + 1]
  {
    word := [text[start]];
    i := start;
    while IsWordChar(Peek(text, i + 1))
      invariant start <= i < |text|
      invariant word == text[start..i + 1]
      invariant WordEnd(text, i + 1) == WordEnd(text, start + 1)
      decreases |text| - i
    {
      i := i + 1;
      word := word + [text[i]];
    }
  }

  /** One iteration of the loop of `tokenize`, from the character at `i`
      with `lineNumber` as the current line: the whitespace test, the inner
      scanning loops above, or the punctuation table. The index the next
      iteration looks at includes the loop's own increment. */
  method ScanAt(text: string, i: nat, lineNumber: nat) returns (r: Scan)
    requires i < |text|
    ensures r == Step(text, i, lineNumber)
  {
    var currentChar := text[i];
    if currentChar == '\n' {
      r := Skip(i + 1, true);
    } else if IsSpace(currentChar) {
      r := Skip(i + 1, false);
    } else if currentChar == '"' {
      var word, last := ScanString(text, i);
      r := Emit(Token("STRING", word, lineNumber), last + 1);
    } else if IsDigit(currentChar) {
      var word, last := ScanNumber(text, i);
      r := Emit(Token("NUMBER", word, lineNumber), last + 1);
    } else if OpensComment(text, i) {
      var word, last := ScanComment(text, i);
      r := Emit(Token("COMMENT", word, lineNumber), last + 2);
    } else if IsWordStart(currentChar) {
      var word, last := ScanWord(text, i);
      r := Emit(Token(WordKind(word), word, lineNumber), last + 1);
    } else {
      match Punctuation(currentChar, Peek(text, i + 1))
      case Pair(kind, lexeme) =>
        r := Emit(Token(kind, lexeme, lineNumber), i + 2);
      case Single(kind, lexeme) =>
        r := Emit(Token(kind, lexeme, lineNumber), i + 1);
      case Unexpected =>
        r := Reject(UnexpectedChar(currentChar, i), i + 1);
    }
  }

  /** `tokenize`: the loop over `text` of the C++ code, with its line counter.
      The messages it sends to the error stream are returned in `errors`. */
  method Tokenize(text: string) returns (tokens: seq<Token>, errors: seq<LexError>)
    ensures tokens == Lex(text).tokens
    ensures errors == Lex(text).errors
  {
    tokens, errors := [], [];
    var lineNumber: nat := 1;
    var i: nat := 0;
    while i < |text|
      invariant i <= |text| + 1
      invariant Lex(text).tokens == tokens + LexFrom(text, i, lineNumber).tokens
      invariant Lex(text).errors == errors + LexFrom(text, i, lineNumber).errors
      decreases |text| + 1 - i
    {
      ghost var start, line, tokens0, errors0 := i, lineNumber, tokens, errors;
      var r := ScanAt(text, i, lineNumber);
      match r {
        case Skip(_, newline) =>
          if newline {
            lineNumber := lineNumber + 1;
          }
        case Emit(token, _) =>
          tokens := tokens + [token];
        case Reject(error, _) =>
          errors := errors + [error];
      }
      i := r.next;
      TokenizeAdvances(text, start, line, tokens0, errors0, tokens, errors);
    }
  }
}
