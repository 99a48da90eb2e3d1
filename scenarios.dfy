/** Small inputs followed through the whole front end: the tokens the lexer
    produces for them and what the checker and the serialiser then say. */
module Scenarios {
  import opened Tokens
  import opened Keywords
  import opened Lexer
  import opened Validator
  import opened ValidatorProperties
  import opened ParseTree

  // Stepping through a concrete text one iteration at a time.

  lemma EmitThenRest(text: string, i: nat, line: nat, t: Token, next: nat)
    requires i < |text| && Step(text, i, line) == Emit(t, next)
    ensures LexFrom(text, i, line).tokens == [t] + LexFrom(text, next, line).tokens
    ensures LexFrom(text, i, line).errors == LexFrom(text, next, line).errors
  {
  }

  lemma SkipThenRest(text: string, i: nat, line: nat, newline: bool)
    requires i < |text| && Step(text, i, line) == Skip(i + 1, newline)
    ensures LexFrom(text, i, line).tokens == LexFrom(text, i + 1, if newline then line + 1 else line).tokens
    ensures LexFrom(text, i, line).errors == LexFrom(text, i + 1, if newline then line + 1 else line).errors
  {
  }

  lemma RejectThenRest(text: string, i: nat, line: nat, e: LexError)
    requires i < |text| && Step(text, i, line) == Reject(e, i + 1)
    ensures LexFrom(text, i, line).tokens == LexFrom(text, i + 1, line).tokens
    ensures LexFrom(text, i, line).errors == [e] + LexFrom(text, i + 1, line).errors
  {
  }

  // `x := 5;`

  const AssignmentText := "x := 5;\n"

  const AssignmentTokens := [Token("IDENTIFIER", "x", 1), Token("COLON_EQUALS", ":=", 1),
                             Token("NUMBER", "5", 1), Token("SEMICOLON", ";", 1)]

  /** `x := 5;` lexes to an identifier, the assignment operator, a number and
      a semicolon, all on line 1; the checker then complains that the
      semicolon is missing, because it looks for it in the slot of the
      number. */
  lemma AssignmentLine()
    ensures Lex(AssignmentText).tokens == AssignmentTokens
    ensures Lex(AssignmentText).errors == []
    ensures Validate(Lex(AssignmentText).tokens) == [Diagnostic(MissingSemicolonAfterExpression, 1)]
  {
    AssignmentLineTokens();
    AssignmentLineChecked();
  }

  lemma AssignmentStep0()
    ensures Step(AssignmentText, 0, 1) == Emit(Token("IDENTIFIER", "x", 1), 1)
  {
    assert WordEnd(AssignmentText, 1) == 1;
    assert AssignmentText[0..1] == "x";
    assert !IsReservedKeyword("x");
  }

  lemma AssignmentStep2()
    ensures Step(AssignmentText, 2, 1) == Emit(Token("COLON_EQUALS", ":=", 1), 4)
  {
  }

  lemma AssignmentStep5()
    ensures Step(AssignmentText, 5, 1) == Emit(Token("NUMBER", "5", 1), 6)
  {
    assert NumberEnd(AssignmentText, 6) == 6;
    assert AssignmentText[5..6] == "5";
  }

  lemma AssignmentStep6()
    ensures Step(AssignmentText, 6, 1) == Emit(Token("SEMICOLON", ";", 1), 7)
  {
  }

  lemma AssignmentSpaces()
    ensures Step(AssignmentText, 1, 1) == Skip(2, false)
    ensures Step(AssignmentText, 4, 1) == Skip(5, false)
    ensures Step(AssignmentText, 7, 1) == Skip(8, true)
  {
  }

  lemma AssignmentLineTokens()
    ensures Lex(AssignmentText).tokens == AssignmentTokens
    ensures Lex(AssignmentText).errors == []
  {
    var text := AssignmentText;
    assert LexFrom(text, 8, 2) == Lexed([], [], []);
    AssignmentSpaces();
    SkipThenRest(text, 7, 1, true);
    AssignmentStep6();
    EmitThenRest(text, 6, 1, Token("SEMICOLON", ";", 1), 7);
    AssignmentStep5();
    EmitThenRest(text, 5, 1, Token("NUMBER", "5", 1), 6);
    SkipThenRest(text, 4, 1, false);
    AssignmentStep2();
    EmitThenRest(text, 2, 1, Token("COLON_EQUALS", ":=", 1), 4);
    SkipThenRest(text, 1, 1, false);
    AssignmentStep0();
    EmitThenRest(text, 0, 1, Token("IDENTIFIER", "x", 1), 1);
  }

  lemma AssignmentLineChecked()
    ensures Validate(AssignmentTokens) == [Diagnostic(MissingSemicolonAfterExpression, 1)]
  {
    var tokens := AssignmentTokens;
    assert ParseStatement(tokens, 1) == [] && ParseStatement(tokens, 2) == [] && ParseStatement(tokens, 3) == [];
    OnlyFirstReports(tokens);
    assert ParseStatement(tokens, 0) == [Diagnostic(MissingSemicolonAfterExpression, 1)];
  }

  // `read x` without its semicolon.

  const ReadText := "read x\n"

  const ReadTokens := [Token("READ", "read", 1), Token("IDENTIFIER", "x", 1)]

  lemma ReadStep0()
    ensures Step(ReadText, 0, 1) == Emit(Token("READ", "read", 1), 4)
  {
    assert WordEnd(ReadText, 1) == 4;
    assert ReadText[0..4] == "read";
    assert IsReservedKeyword("read") && Upper("read") == "READ";
  }

  lemma ReadStep5()
    ensures Step(ReadText, 5, 1) == Emit(Token("IDENTIFIER", "x", 1), 6)
  {
    assert WordEnd(ReadText, 6) == 6;
    assert ReadText[5..6] == "x";
    assert !IsReservedKeyword("x");
  }

  lemma ReadLineTokens()
    ensures Lex(ReadText).tokens == ReadTokens
  {
    var text := ReadText;
    assert LexFrom(text, 7, 2) == Lexed([], [], []);
    assert Step(text, 6, 1) == Skip(7, true);
    SkipThenRest(text, 6, 1, true);
    ReadStep5();
    EmitThenRest(text, 5, 1, Token("IDENTIFIER", "x", 1), 6);
    assert Step(text, 4, 1) == Skip(5, false);
    SkipThenRest(text, 4, 1, false);
    ReadStep0();
    EmitThenRest(text, 0, 1, Token("READ", "read", 1), 4);
  }

  /** `read x` without its semicolon: the checker finds the identifier and
      then reads the end of the list where the semicolon should be. */
  lemma ReadWithoutSemicolon()
    ensures Validate(Lex(ReadText).tokens) == [Diagnostic(MissingSemicolonAfterIdentifier, 1)]
  {
    ReadLineTokens();
    var tokens := ReadTokens;
    assert ParseStatement(tokens, 1) == [];
    OnlyFirstReports(tokens);
    assert ParseStatement(tokens, 0) == [Diagnostic(MissingSemicolonAfterIdentifier, 1)];
  }

  /** The serialiser still produces the `read` node. */
  lemma ReadWithoutSemicolonTree()
    ensures RenderProgram(Tree(Lex(ReadText).tokens)) == ProgramOpen + ReadLine("x") + ProgramClose
  {
    ReadLineTokens();
    var tokens := ReadTokens;
    assert TreeFrom(tokens, 2) == [];
    assert Tree(tokens) == [Read("x")];
    ReadXml();
  }

  /** One `read` statement renders as the opening line, its `<Read>` line
      and the closing tag. */
  lemma ReadXml()
    ensures RenderProgram([Read("x")]) == ProgramOpen + ReadLine("x") + ProgramClose
  {
    var nodes := [Read("x")];
    assert nodes[1..] == [];
    assert RenderNodes(nodes) == RenderNode(Read("x")) + RenderNodes([]);
  }

  /** Even a well-formed `if (x) then` draws two diagnostics: the checks
      for `)` and for `then` look at the `(`. */
  lemma WellFormedIfRejected()
    ensures var tokens := [Token("IF", "if", 1), Token("LEFT_PAREN", "(", 1), Token("IDENTIFIER", "x", 1),
                           Token("RIGHT_PAREN", ")", 1), Token("THEN", "then", 1)];
      Validate(tokens) == [Diagnostic(MissingRightParenAfterCondition, 1), Diagnostic(MissingThenAfterCondition, 1)]
  {
    var tokens := [Token("IF", "if", 1), Token("LEFT_PAREN", "(", 1), Token("IDENTIFIER", "x", 1),
                   Token("RIGHT_PAREN", ")", 1), Token("THEN", "then", 1)];
    assert forall j :: 1 <= j < |tokens| ==> ParseStatement(tokens, j) == [];
    OnlyFirstReports(tokens);
    assert ParseStatement(tokens, 0) == [Diagnostic(MissingRightParenAfterCondition, 1), Diagnostic(MissingThenAfterCondition, 1)];
  }

  /** A string literal that is never closed loses its last character: the
      lexeme of `"abc` is `"ab"`. */
  lemma UnterminatedString()
    ensures Lex("\"abc").tokens == [Token("STRING", "\"ab\"", 1)]
  {
    var text := "\"abc";
    assert QuoteStop(text, 1) == 3;
    assert text[1..3] == "ab";
    assert Step(text, 0, 1) == Emit(Token("STRING", "\"ab\"", 1), 4);
    assert LexFrom(text, 4, 1) == Lexed([], [], []);
    EmitThenRest(text, 0, 1, Token("STRING", "\"ab\"", 1), 4);
  }

  const NewlineText := "\"a\nb\" x"

  lemma NewlineStep0()
    ensures Step(NewlineText, 0, 1) == Emit(Token("STRING", "\"a\nb\"", 1), 5)
  {
    assert QuoteStop(NewlineText, 1) == 4;
    assert NewlineText[1..4] == "a\nb";
  }

  lemma NewlineStep6()
    ensures Step(NewlineText, 6, 1) == Emit(Token("IDENTIFIER", "x", 1), 7)
  {
    assert WordEnd(NewlineText, 7) == 7;
    assert NewlineText[6..7] == "x";
    assert !IsReservedKeyword("x");
  }

  /** A newline inside a string literal does not advance the line count. */
  lemma NewlineInsideString()
    ensures Lex(NewlineText).tokens == [Token("STRING", "\"a\nb\"", 1), Token("IDENTIFIER", "x", 1)]
  {
    var text := NewlineText;
    assert LexFrom(text, 7, 1) == Lexed([], [], []);
    NewlineStep6();
    EmitThenRest(text, 6, 1, Token("IDENTIFIER", "x", 1), 7);
    assert Step(text, 5, 1) == Skip(6, false);
    SkipThenRest(text, 5, 1, false);
    NewlineStep0();
    EmitThenRest(text, 0, 1, Token("STRING", "\"a\nb\"", 1), 5);
  }

  /** The reserved word `string` gets the type name of string literals. */
  lemma StringKeyword()
    ensures Lex("string").tokens == [Token("STRING", "string", 1)]
  {
    var text := "string";
    assert WordEnd(text, 1) == 6;
    assert text[0..6] == "string";
    assert IsReservedKeyword("string") && Upper("string") == "STRING";
    assert Step(text, 0, 1) == Emit(Token("STRING", "string", 1), 6);
    assert LexFrom(text, 6, 1) == Lexed([], [], []);
    EmitThenRest(text, 0, 1, Token("STRING", "string", 1), 6);
  }

  /** A comment's lexeme repeats the star after the opener and the one
      before the closer. */
  lemma CommentLexeme()
    ensures Lex("/* a */").tokens == [Token("COMMENT", "/** a **/", 1)]
  {
    var text := "/* a */";
    assert OpensComment(text, 0);
    assert CommentStop(text, 0) == 5;
    assert text[1..6] == "* a *";
    assert Step(text, 0, 1) == Emit(Token("COMMENT", "/** a **/", 1), 7);
    assert LexFrom(text, 7, 1) == Lexed([], [], []);
    EmitThenRest(text, 0, 1, Token("COMMENT", "/** a **/", 1), 7);
  }

  lemma ExclamationStep0()
    ensures Step("!x", 0, 1) == Reject(UnexpectedChar('!', 0), 1)
  {
    assert Punctuation('!', 'x') == Unexpected;
  }

  lemma ExclamationStep1()
    ensures Step("!x", 1, 1) == Emit(Token("IDENTIFIER", "x", 1), 2)
  {
    assert WordEnd("!x", 2) == 2;
    assert "!x"[1..2] == "x";
    assert !IsReservedKeyword("x");
  }

  /** `!` not followed by `=` is reported with its index, and the scan goes
      on with the next character. */
  lemma LoneExclamation()
    ensures Lex("!x").tokens == [Token("IDENTIFIER", "x", 1)]
    ensures Lex("!x").errors == [UnexpectedChar('!', 0)]
  {
    var text := "!x";
    assert LexFrom(text, 2, 1) == Lexed([], [], []);
    ExclamationStep1();
    EmitThenRest(text, 1, 1, Token("IDENTIFIER", "x", 1), 2);
    ExclamationStep0();
    RejectThenRest(text, 0, 1, UnexpectedChar('!', 0));
  }
}
