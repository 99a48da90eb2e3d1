/** The statement checker: one look at each token and at the one or two
    tokens that follow it, with a syntax diagnostic for every expectation
    that is not met. Diagnostics are returned in the order they are issued
    instead of being written to the error stream. */
module Validator {
  import opened Tokens

  /** One syntax diagnostic: the message, without the trailing
      " on line N", and the line of the statement's first token. */
  datatype Diagnostic = Diagnostic(message: string, line: nat)

  const MissingSemicolonAfterIdentifier := "Syntax error: Missing ';' after identifier"
  const ExpectedIdentifierAfterRead := "Syntax error: Expected identifier after 'read'"
  const MissingNumberAfterAssign := "Syntax error: Missing number after ':='"
  const MissingSemicolonAfterExpression := "Syntax error: Missing ';' after expression"
  const MissingLeftParenAfterIf := "Syntax error: Missing '(' after 'if'"
  const MissingRightParenAfterCondition := "Syntax error: Missing ')' after condition"
  const MissingThenAfterCondition := "Syntax error: Missing 'then' after condition"
  const MissingLeftParenAfterElseif := "Syntax error: Missing '(' after 'elseif'"
  const MissingLeftParenAfterUntil := "Syntax error: Missing '(' after 'until'"

  /** The single diagnostic `message` on `line` when `failed`, else nothing. */
  function Report(failed: bool, message: string, line: nat): (ds: seq<Diagnostic>)
    ensures |ds| == (if failed then 1 else 0)
  {
    if failed then [Diagnostic(message, line)] else []
  }

  /** The diagnostics for a statement whose first token is `first`, when
      the two tokens after it are `next` and `afterNext`. No check looks
      any further: the three checks after `if` and `elseif` and the two
      after `until` all test the same next token, and the two checks after
      `x :=` test the same token after the operator. */
  function CheckStatement(first: Token, next: Token, afterNext: Token): (ds: seq<Diagnostic>)
    ensures |ds| <= 3
    ensures forall d :: d in ds ==> d.line == first.line
    // `read` wants an identifier and then a semicolon, and reports at most one problem.
    ensures first.kind == "READ" ==>
      && |ds| <= 1
      && (ds == [] <==> next.kind == "IDENTIFIER" && afterNext.kind == "SEMICOLON")
      && (next.kind != "IDENTIFIER" ==> ds == [Diagnostic(ExpectedIdentifierAfterRead, first.line)])
      && (next.kind == "IDENTIFIER" && afterNext.kind != "SEMICOLON" ==>
            ds == [Diagnostic(MissingSemicolonAfterIdentifier, first.line)])
    // An assignment is never accepted: the token after `:=` cannot be both a
    // number and a semicolon.
    ensures first.kind == "IDENTIFIER" && next.kind == "COLON_EQUALS" ==>
      && 1 <= |ds| <= 2
      && (|ds| == 1 <==> afterNext.kind == "NUMBER" || afterNext.kind == "SEMICOLON")
      && (Diagnostic(MissingNumberAfterAssign, first.line) in ds <==> afterNext.kind != "NUMBER")
      && (Diagnostic(MissingSemicolonAfterExpression, first.line) in ds <==> afterNext.kind != "SEMICOLON")
    // An identifier not followed by `:=` is not checked at all.
    ensures first.kind == "IDENTIFIER" && next.kind != "COLON_EQUALS" ==> ds == []
    // `if` and `elseif` are never accepted: one next token cannot be `(`,
    // `)` and `then` at once.
    ensures first.kind == "IF" || first.kind == "ELSEIF" ==>
      && 2 <= |ds| <= 3
      && (|ds| == 2 <==> next.kind == "LEFT_PAREN" || next.kind == "RIGHT_PAREN" || next.kind == "THEN")
      && (Diagnostic(MissingRightParenAfterCondition, first.line) in ds <==> next.kind != "RIGHT_PAREN")
      && (Diagnostic(MissingThenAfterCondition, first.line) in ds <==> next.kind != "THEN")
    ensures first.kind == "IF" ==>
      (Diagnostic(MissingLeftParenAfterIf, first.line) in ds <==> next.kind != "LEFT_PAREN")
    ensures first.kind == "ELSEIF" ==>
      (Diagnostic(MissingLeftParenAfterElseif, first.line) in ds <==> next.kind != "LEFT_PAREN")
    // `until` is never accepted either.
    ensures first.kind == "UNTIL" ==>
      && 1 <= |ds| <= 2
      && (|ds| == 1 <==> next.kind == "LEFT_PAREN" || next.kind == "RIGHT_PAREN")
      && (Diagnostic(MissingLeftParenAfterUntil, first.line) in ds <==> next.kind != "LEFT_PAREN")
      && (Diagnostic(MissingRightParenAfterCondition, first.line) in ds <==> next.kind != "RIGHT_PAREN")
    // Every other token, including `else`, `repeat`, `return` and `end`, is accepted.
    ensures first.kind !in {"READ", "IDENTIFIER", "IF", "ELSEIF", "UNTIL"} ==> ds == []
  {
    var line := first.line;
    match first.kind
    case "READ" =>
      if next.kind == "IDENTIFIER" then Report(afterNext.kind != "SEMICOLON", MissingSemicolonAfterIdentifier, line)
      else [Diagnostic(ExpectedIdentifierAfterRead, line)]
    case "IDENTIFIER" =>
      if next.kind == "COLON_EQUALS" then
        Report(afterNext.kind != "NUMBER", MissingNumberAfterAssign, line)
        + Report(afterNext.kind != "SEMICOLON", MissingSemicolonAfterExpression, line)
      else []
    case "IF" =>
      Report(next.kind != "LEFT_PAREN", MissingLeftParenAfterIf, line)
      + Report(next.kind != "RIGHT_PAREN", MissingRightParenAfterCondition, line)
      + Report(next.kind != "THEN", MissingThenAfterCondition, line)
    case "ELSEIF" =>
      Report(next.kind != "LEFT_PAREN", MissingLeftParenAfterElseif, line)
      + Report(next.kind != "RIGHT_PAREN", MissingRightParenAfterCondition, line)
      + Report(next.kind != "THEN", MissingThenAfterCondition, line)
    case "UNTIL" =>
      Report(next.kind != "LEFT_PAREN", MissingLeftParenAfterUntil, line)
      + Report(next.kind != "RIGHT_PAREN", MissingRightParenAfterCondition, line)
    case _ => []
  }

  /** The check of the statement at `tokens[index]`; reads past the end of
      the list yield the end-of-tokens sentinel. */
  function ParseStatement(tokens: seq<Token>, index: nat): (ds: seq<Diagnostic>)
    requires index < |tokens|
    ensures |ds| <= 3
    ensures forall d :: d in ds ==> d.line == tokens[index].line
    ensures tokens[index].kind !in {"READ", "IDENTIFIER", "IF", "ELSEIF", "UNTIL"} ==> ds == []
    // Past the end of the list the statement token sees only the sentinel.
    ensures index + 1 == |tokens| && tokens[index].kind == "READ" ==>
      ds == [Diagnostic(ExpectedIdentifierAfterRead, tokens[index].line)]
  {
    CheckStatement(tokens[index], At(tokens, index + 1), At(tokens, index + 2))
  }

  /** The report of the statement check at every position of the list, in
      position order: the checker advances one token at a time, whatever
      the statement it has just checked. */
  ghost function Reports(tokens: seq<Token>): (rs: seq<seq<Diagnostic>>)
    ensures |rs| == |tokens|
  {
    seq(|tokens|, k requires 0 <= k < |tokens| => ParseStatement(tokens, k))
  }

  /** The reports joined in order. */
  ghost function Concat(parts: seq<seq<Diagnostic>>): seq<Diagnostic>
    decreases |parts|
  {
    if parts == [] then [] else Concat(parts[..|parts| - 1]) + parts[|parts| - 1]
  }

  /** Everything `parse` reports about `tokens`. */
  ghost function Validate(tokens: seq<Token>): seq<Diagnostic> {
    Concat(Reports(tokens))
  }

  /** Joining one more report extends the output by that report. */
  lemma ConcatExtend(parts: seq<seq<Diagnostic>>, k: nat)
    requires k < |parts|
    ensures Concat(parts[..k + 1]) == Concat(parts[..k]) + parts[k]
  {
    assert parts[..k + 1][..k] == parts[..k];
  }

  /** The checking loop: a statement check at every token index in turn. */
  method Parse(tokens: seq<Token>) returns (diagnostics: seq<Diagnostic>)
    ensures diagnostics == Validate(tokens)
  {
    var index := 0;
    diagnostics := [];
    while index < |tokens|
      invariant index <= |tokens|
      invariant diagnostics == Concat(Reports(tokens)[..index])
      decreases |tokens| - index
    {
      var ds := ParseStatement(tokens, index);
      ConcatExtend(Reports(tokens), index);
      diagnostics := diagnostics + ds;
      index := index + 1;
    }
    assert Reports(tokens)[..index] == Reports(tokens);
  }
}
