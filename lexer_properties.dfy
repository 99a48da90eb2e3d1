/** What the scan of `Lexer.Lex` guarantees about every token and every
    error it produces, and what it produces for a few whole inputs. */
module LexerProperties {
  import opened Tokens
  import opened Keywords
  import opened Lexer

  /** The scan from `i` is the first iteration's output followed by the
      scan from where that iteration leaves off. */
  lemma LexFromSplits(text: string, i: nat, line: nat)
    requires i < |text|
    ensures var s := Step(text, i, line);
      var rest := LexFrom(text, s.next, LineAfter(s, line));
      LexFrom(text, i, line) ==
        Lexed(Emitted(s) + rest.tokens, Rejected(s) + rest.errors, (if s.Emit? then [i] else []) + rest.starts)
  {
  }

  /** Every token of `tokens` is in the shape that the character at its
      start calls for. */
  ghost predicate AllShaped(text: string, starts: seq<nat>, tokens: seq<Token>)
    requires |starts| == |tokens|
  {
    forall k :: 0 <= k < |tokens| ==> starts[k] < |text| && TokenShape(text, starts[k], tokens[k])
  }

  lemma ShapedAppend(text: string, starts1: seq<nat>, tokens1: seq<Token>, starts2: seq<nat>, tokens2: seq<Token>)
    requires |starts1| == |tokens1| && |starts2| == |tokens2|
    requires AllShaped(text, starts1, tokens1) && AllShaped(text, starts2, tokens2)
    ensures AllShaped(text, starts1 + starts2, tokens1 + tokens2)
  {
    var starts, tokens := starts1 + starts2, tokens1 + tokens2;
    forall k | 0 <= k < |tokens|
      ensures starts[k] < |text| && TokenShape(text, starts[k], tokens[k])
    {
      if k < |tokens1| {
        assert starts[k] == starts1[k] && tokens[k] == tokens1[k];
      } else {
        assert starts[k] == starts2[k - |tokens1|] && tokens[k] == tokens2[k - |tokens1|];
      }
    }
  }

  /** Every token is in the shape that the character it starts at calls for. */
  lemma {:induction false} TokensWellFormed(text: string, i: nat, line: nat)
    ensures var r := LexFrom(text, i, line);
      AllShaped(text, r.starts, r.tokens)
    decreases |text| + 1 - i
  {
    if i < |text| {
      var s := Step(text, i, line);
      var rest := LexFrom(text, s.next, LineAfter(s, line));
      LexFromSplits(text, i, line);
      TokensWellFormed(text, s.next, LineAfter(s, line));
      var headStarts: seq<nat> := if s.Emit? then [i] else [];
      if s.Emit? {
        EmittedTokenShape(text, i, line);
      }
      assert AllShaped(text, headStarts, Emitted(s));
      ShapedAppend(text, headStarts, Emitted(s), rest.starts, rest.tokens);
    }
  }

  ghost predicate Increasing(xs: seq<nat>) {
    forall k, m :: 0 <= k < m < |xs| ==> xs[k] < xs[m]
  }

  lemma PrependIncreasing(x: nat, xs: seq<nat>)
    requires Increasing(xs)
    requires forall k :: 0 <= k < |xs| ==> x < xs[k]
    ensures Increasing([x] + xs)
  {
    var ys := [x] + xs;
    forall k, m | 0 <= k < m < |ys|
      ensures ys[k] < ys[m]
    {
      assert ys[m] == xs[m - 1];
      if k > 0 {
        assert ys[k] == xs[k - 1];
      }
    }
  }

  /** Tokens start at strictly increasing indices. */
  lemma {:induction false} StartsIncrease(text: string, i: nat, line: nat)
    ensures Increasing(LexFrom(text, i, line).starts)
    decreases |text| + 1 - i
  {
    if i < |text| {
      var s := Step(text, i, line);
      var rest := LexFrom(text, s.next, LineAfter(s, line));
      LexFromSplits(text, i, line);
      StartsIncrease(text, s.next, LineAfter(s, line));
      if s.Emit? {
        PrependIncreasing(i, rest.starts);
      }
    }
  }

  /** Every error in `errors` reports, with its own index at or after `i`,
      a character that starts no token. */
  ghost predicate BadCharactersFrom(text: string, i: nat, errors: seq<LexError>) {
    forall k :: 0 <= k < |errors| ==>
      i <= errors[k].position < |text| && errors[k].ch == text[errors[k].position] &&
      BadCharAt(text, errors[k].position)
  }

  ghost predicate PositionsIncrease(errors: seq<LexError>) {
    forall k, m :: 0 <= k < m < |errors| ==> errors[k].position < errors[m].position
  }

  lemma PrependBadCharacter(text: string, i: nat, e: LexError, rest: seq<LexError>)
    requires i < |text| && e == UnexpectedChar(text[i], i) && BadCharAt(text, i)
    requires BadCharactersFrom(text, i + 1, rest) && PositionsIncrease(rest)
    ensures BadCharactersFrom(text, i, [e] + rest) && PositionsIncrease([e] + rest)
  {
    var es := [e] + rest;
    forall k | 0 < k < |es|
      ensures es[k] == rest[k - 1]
    {
    }
  }

  /** Every reported character is one that starts no token, reported with
      its own index, and reports come in increasing order of index. */
  lemma {:induction false} ErrorsAreBadCharacters(text: string, i: nat, line: nat)
    ensures var r := LexFrom(text, i, line);
      BadCharactersFrom(text, i, r.errors) && PositionsIncrease(r.errors)
    decreases |text| + 1 - i
  {
    if i < |text| {
      var s := Step(text, i, line);
      var rest := LexFrom(text, s.next, LineAfter(s, line));
      StepSkipsOrRejects(text, i, line);
      LexFromSplits(text, i, line);
      ErrorsAreBadCharacters(text, s.next, LineAfter(s, line));
      if s.Reject? {
        PrependBadCharacter(text, i, s.error, rest.errors);
      }
    }
  }

  /** The number of newline characters that the outer loop itself steps on
      from `i` up to (not including) index `s`; a newline inside a string
      literal or a comment is consumed by an inner loop and is not counted. */
  ghost function TopLevelNewlines(text: string, i: nat, s: nat): nat
    decreases |text| + 1 - i
  {
    if i >= |text| || s <= i then 0
    else (if text[i] == '\n' then 1 else 0) + TopLevelNewlines(text, Step(text, i, 1).next, s)
  }

  /** Where an iteration resumes and whether it counts a line do not depend
      on the line it starts on. */
  lemma StepIgnoresLine(text: string, i: nat, line: nat)
    requires i < |text|
    ensures Step(text, i, line).next == Step(text, i, 1).next
    ensures LineAfter(Step(text, i, line), line) == line + (if text[i] == '\n' then 1 else 0)
  {
    StepSkipsOrRejects(text, i, line);
    StepSkipsOrRejects(text, i, 1);
  }

  /** Counting newlines from `i` is the first iteration's newline, if any,
      plus the count from where it resumes. */
  lemma TopLevelNewlinesStep(text: string, i: nat, line: nat, st: nat)
    requires i < |text| && Step(text, i, line).next <= st
    ensures line + TopLevelNewlines(text, i, st) ==
      LineAfter(Step(text, i, line), line) + TopLevelNewlines(text, Step(text, i, line).next, st)
  {
    StepIgnoresLine(text, i, line);
  }

  /** Every token of `tokens` carries `line` plus the newlines the outer
      loop steps on between `i` and the token's start. */
  ghost predicate LinesCounted(text: string, i: nat, line: nat, starts: seq<nat>, tokens: seq<Token>)
    requires |starts| == |tokens|
  {
    forall k :: 0 <= k < |tokens| ==> tokens[k].line == line + TopLevelNewlines(text, i, starts[k])
  }

  /** Counting from before the first iteration instead of after it. */
  lemma LinesCountedBack(text: string, i: nat, line: nat, starts: seq<nat>, tokens: seq<Token>)
    requires i < |text| && |starts| == |tokens|
    requires forall k :: 0 <= k < |starts| ==> Step(text, i, line).next <= starts[k]
    requires LinesCounted(text, Step(text, i, line).next, LineAfter(Step(text, i, line), line), starts, tokens)
    ensures LinesCounted(text, i, line, starts, tokens)
  {
    forall k | 0 <= k < |tokens|
      ensures tokens[k].line == line + TopLevelNewlines(text, i, starts[k])
    {
      TopLevelNewlinesStep(text, i, line, starts[k]);
    }
  }

  lemma LinesCountedPrepend(text: string, i: nat, line: nat, t: Token, starts: seq<nat>, tokens: seq<Token>)
    requires |starts| == |tokens| && t.line == line
    requires LinesCounted(text, i, line, starts, tokens)
    ensures LinesCounted(text, i, line, [i] + starts, [t] + tokens)
  {
    var ss, ts := [i] + starts, [t] + tokens;
    forall k | 0 < k < |ts|
      ensures ts[k] == tokens[k - 1] && ss[k] == starts[k - 1]
    {
    }
  }

  /** A token's line number is the starting line plus the number of
      newlines the outer loop stepped on before the token. */
  lemma {:induction false} LineNumbersCountNewlines(text: string, i: nat, line: nat)
    ensures var r := LexFrom(text, i, line);
      LinesCounted(text, i, line, r.starts, r.tokens)
    decreases |text| + 1 - i
  {
    if i < |text| {
      var s := Step(text, i, line);
      var after := LineAfter(s, line);
      var rest := LexFrom(text, s.next, after);
      LexFromSplits(text, i, line);
      LineNumbersCountNewlines(text, s.next, after);
      LinesCountedBack(text, i, line, rest.starts, rest.tokens);
      if s.Emit? {
        StepSkipsOrRejects(text, i, line);
        LinesCountedPrepend(text, i, line, s.token, rest.starts, rest.tokens);
      }
    }
  }

  /** Line numbers of `tokens` are at least `line` and never go down. */
  ghost predicate LinesFrom(line: nat, tokens: seq<Token>) {
    && (forall k :: 0 <= k < |tokens| ==> line <= tokens[k].line)
    && (forall k, m :: 0 <= k < m < |tokens| ==> tokens[k].line <= tokens[m].line)
  }

  lemma LinesFromPrepend(line: nat, t: Token, tokens: seq<Token>)
    requires t.line == line && LinesFrom(line, tokens)
    ensures LinesFrom(line, [t] + tokens)
  {
    var ts := [t] + tokens;
    forall k | 0 < k < |ts|
      ensures ts[k] == tokens[k - 1]
    {
    }
  }

  /** Line numbers never go down, and none is below the starting line. */
  lemma {:induction false} LineNumbersNondecreasing(text: string, i: nat, line: nat)
    ensures LinesFrom(line, LexFrom(text, i, line).tokens)
    decreases |text| + 1 - i
  {
    if i < |text| {
      var s := Step(text, i, line);
      var rest := LexFrom(text, s.next, LineAfter(s, line));
      StepSkipsOrRejects(text, i, line);
      LexFromSplits(text, i, line);
      LineNumbersNondecreasing(text, s.next, LineAfter(s, line));
      assert LinesFrom(line, rest.tokens);
      if s.Emit? {
        LinesFromPrepend(line, s.token, rest.tokens);
      }
    }
  }

  // The same facts for a whole input, one kind of token at a time.

  /** A token starting with a letter or `_` is the maximal run of letters,
      digits and `_` there; its type is the uppercased word for one of the
      reserved words and "IDENTIFIER" otherwise. Conversely an IDENTIFIER
      token always comes from such a run and is not a reserved word. */
  lemma IdentifierAndKeywordTokens(text: string)
    ensures var r := Lex(text);
      forall k :: 0 <= k < |r.tokens| ==>
        && (IsWordStart(text[r.starts[k]]) ==>
              WordLexemeAt(text, r.starts[k], r.tokens[k].value) &&
              r.tokens[k].kind == (if IsReservedKeyword(r.tokens[k].value) then Upper(r.tokens[k].value) else "IDENTIFIER"))
        && (r.tokens[k].kind == "IDENTIFIER" ==>
              IsWordStart(text[r.starts[k]]) && !IsReservedKeyword(r.tokens[k].value))
  {
    assert Lex(text) == LexFrom(text, 0, 1);
    TokensWellFormed(text, 0, 1);
    var r := Lex(text);
    forall k | 0 <= k < |r.tokens| && r.tokens[k].kind == "IDENTIFIER"
      ensures IsWordStart(text[r.starts[k]])
    {
      var s := r.starts[k];
      if !IsWordStart(text[s]) && text[s] != '"' && !IsDigit(text[s]) && !OpensComment(text, s) {
        OperatorKindsAreDistinct(text, s, r.tokens[k]);
      }
    }
  }

  /** A NUMBER token is a non-empty run of digits and dots that starts
      with a digit and that the next character does not continue. */
  lemma NumberTokens(text: string)
    ensures var r := Lex(text);
      forall k :: 0 <= k < |r.tokens| && r.tokens[k].kind == "NUMBER" ==>
        var v := r.tokens[k].value;
        && 1 <= |v| && IsDigit(v[0])
        && (forall j :: 0 <= j < |v| ==> IsNumberChar(v[j]))
        && r.starts[k] + |v| <= |text| && text[r.starts[k]..r.starts[k] + |v|] == v
        && (r.starts[k] + |v| == |text| || !IsNumberChar(text[r.starts[k] + |v|]))
  {
    assert Lex(text) == LexFrom(text, 0, 1);
    TokensWellFormed(text, 0, 1);
    var r := Lex(text);
    forall k | 0 <= k < |r.tokens| && r.tokens[k].kind == "NUMBER"
      ensures NumberLexemeAt(text, r.starts[k], r.tokens[k].value)
    {
      NotNumberUnlessDigit(text, r.starts[k], r.tokens[k]);
    }
  }

  lemma NotNumberUnlessDigit(text: string, s: nat, t: Token)
    requires s < |text| && TokenShape(text, s, t) && t.kind == "NUMBER"
    ensures IsDigit(text[s]) && NumberLexemeAt(text, s, t.value)
  {
    var c := text[s];
    if c != '"' && !IsDigit(c) && !OpensComment(text, s) {
      if IsWordStart(c) {
        if IsReservedKeyword(t.value) {
          KeywordKindOf(t.value);
        }
      } else {
        OperatorKindsAreDistinct(text, s, t);
      }
    }
  }

  lemma StringOrCommentOrigin(text: string, s: nat, t: Token)
    requires s < |text| && TokenShape(text, s, t)
    ensures t.kind == "COMMENT" ==> text[s] != '"' && !IsDigit(text[s]) && OpensComment(text, s)
    ensures t.kind == "STRING" ==> text[s] == '"' || t.value == "string"
  {
    var c := text[s];
    if c != '"' && !IsDigit(c) && !OpensComment(text, s) {
      if IsWordStart(c) {
        if IsReservedKeyword(t.value) {
          KeywordKindOf(t.value);
        }
      } else {
        OperatorKindsAreDistinct(text, s, t);
      }
    }
  }

  /** A token that starts at a quote is a STRING token that begins and ends
      with a quote, even when the literal is never closed; a COMMENT token
      begins with the opener and ends with the closer, even when the
      comment is never closed. The only STRING token that does not start at
      a quote is the reserved word `string`. */
  lemma StringAndCommentTokens(text: string)
    ensures var r := Lex(text);
      forall k :: 0 <= k < |r.tokens| ==>
        var v := r.tokens[k].value;
        && (text[r.starts[k]] == '"' ==>
              r.tokens[k].kind == "STRING" && 2 <= |v| && v[0] == '"' && v[|v| - 1] == '"')
        && (r.tokens[k].kind == "COMMENT" ==>
              OpensComment(text, r.starts[k]) && 5 <= |v| && v[..2] == "/*" && v[|v| - 2..] == "*/")
        && (r.tokens[k].kind == "STRING" ==> text[r.starts[k]] == '"' || v == "string")
  {
    assert Lex(text) == LexFrom(text, 0, 1);
    TokensWellFormed(text, 0, 1);
    var r := Lex(text);
    forall k | 0 <= k < |r.tokens|
      ensures r.tokens[k].kind == "COMMENT" ==> text[r.starts[k]] != '"' && !IsDigit(text[r.starts[k]]) && OpensComment(text, r.starts[k])
      ensures r.tokens[k].kind == "STRING" ==> text[r.starts[k]] == '"' || r.tokens[k].value == "string"
    {
      StringOrCommentOrigin(text, r.starts[k], r.tokens[k]);
    }
  }

  /** Token line numbers start at 1 or later, never go down, and each is 1
      plus the number of newlines the outer loop stepped on before the token. */
  lemma LineNumbers(text: string)
    ensures var r := Lex(text);
      && (forall k :: 0 <= k < |r.tokens| ==> 1 <= r.tokens[k].line)
      && (forall k, m :: 0 <= k < m < |r.tokens| ==> r.tokens[k].line <= r.tokens[m].line)
      && (forall k :: 0 <= k < |r.tokens| ==> r.tokens[k].line == 1 + TopLevelNewlines(text, 0, r.starts[k]))
  {
    assert Lex(text) == LexFrom(text, 0, 1);
    LineNumbersNondecreasing(text, 0, 1);
    LineNumbersCountNewlines(text, 0, 1);
  }
}
