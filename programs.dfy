/** Whole programs of well-formed statements, one per line: what the
    serialiser recovers from their tokens, and what the checker reports
    about them. */
module Programs {
  import opened Tokens
  import opened Validator
  import opened ValidatorProperties
  import opened ParseTree

  /** `read name;` or `name := number;`. */
  datatype Statement = ReadStatement(name: string) | AssignStatement(name: string, number: string)

  /** The tokens of one statement written on `line`. */
  function StatementTokens(s: Statement, line: nat): seq<Token> {
    match s
    case ReadStatement(name) =>
      [Token("READ", "read", line), Token("IDENTIFIER", name, line), Token("SEMICOLON", ";", line)]
    case AssignStatement(name, number) =>
      [Token("IDENTIFIER", name, line), Token("COLON_EQUALS", ":=", line),
       Token("NUMBER", number, line), Token("SEMICOLON", ";", line)]
  }

  /** The tokens of a program whose k-th statement is on line `line + k`. */
  function ProgramTokens(ss: seq<Statement>, line: nat): seq<Token>
    decreases |ss|
  {
    if ss == [] then [] else StatementTokens(ss[0], line) + ProgramTokens(ss[1..], line + 1)
  }

  /** The tree node each statement is meant to produce. */
  function IntendedNode(s: Statement): Node {
    match s
    case ReadStatement(name) => Read(name)
    case AssignStatement(name, number) => Assign(name, Some(number))
  }

  function IntendedTree(ss: seq<Statement>): (nodes: seq<Node>)
    ensures |nodes| == |ss|
    ensures forall k :: 0 <= k < |ss| ==> nodes[k] == IntendedNode(ss[k])
  {
    if ss == [] then [] else [IntendedNode(ss[0])] + IntendedTree(ss[1..])
  }

  /** The diagnostics the checker gives such a program: one "Missing ';'
      after expression" for every assignment, on its line, and nothing for
      a `read`. */
  function AssignmentComplaints(ss: seq<Statement>, line: nat): (ds: seq<Diagnostic>)
    ensures |ds| <= |ss|
    ensures forall d :: d in ds ==> d.message == MissingSemicolonAfterExpression && line <= d.line < line + |ss|
    decreases |ss|
  {
    if ss == [] then []
    else
      (if ss[0].AssignStatement? then [Diagnostic(MissingSemicolonAfterExpression, line)] else [])
      + AssignmentComplaints(ss[1..], line + 1)
  }

  /** The serialiser recovers exactly the statements of the program. */
  lemma {:induction false} TreeOfProgram(ss: seq<Statement>, line: nat)
    ensures Tree(ProgramTokens(ss, line)) == IntendedTree(ss)
    decreases |ss|
  {
    if ss != [] {
      var block := StatementTokens(ss[0], line);
      var rest := ProgramTokens(ss[1..], line + 1);
      assert ProgramTokens(ss, line) == block + rest;
      TreeOfProgram(ss[1..], line + 1);
      TreeShift(block, rest, 0);
      StatementTree(ss[0], line, rest);
    }
  }

  /** One statement's tokens yield its node, whatever follows them. */
  lemma StatementTree(s: Statement, line: nat, rest: seq<Token>)
    ensures var block := StatementTokens(s, line);
      TreeFrom(block + rest, 0) == [IntendedNode(s)] + TreeFrom(block + rest, |block|)
  {
    var all := StatementTokens(s, line) + rest;
    match s
    case ReadStatement(name) =>
      assert all[0].kind == "READ" && At(all, 1).value == name;
      assert all[2].kind == "SEMICOLON";
      assert TreeFrom(all, 2) == TreeFrom(all, 3);
    case AssignStatement(name, number) =>
      assert all[0] == Token("IDENTIFIER", name, line);
      assert At(all, 1).kind == "COLON_EQUALS" && At(all, 2).value == number;
      assert all[3].kind == "SEMICOLON";
      assert TreeFrom(all, 3) == TreeFrom(all, 4);
  }

  /** The checker accepts every `read` statement of the program and rejects
      every assignment exactly once. */
  lemma {:induction false} DiagnosticsOfProgram(ss: seq<Statement>, line: nat)
    ensures Validate(ProgramTokens(ss, line)) == AssignmentComplaints(ss, line)
    decreases |ss|
  {
    if ss == [] {
      ConcatEmpty(Reports([]));
    } else {
      var block := StatementTokens(ss[0], line);
      var rest := ProgramTokens(ss[1..], line + 1);
      assert ProgramTokens(ss, line) == block + rest;
      DiagnosticsOfProgram(ss[1..], line + 1);
      ValidateSplit(block, rest);
      StatementDiagnostics(ss[0], line, rest);
    }
  }

  /** The reports of one statement's own positions, whatever follows it. */
  lemma StatementDiagnostics(s: Statement, line: nat, rest: seq<Token>)
    ensures var block := StatementTokens(s, line);
      Concat(Reports(block + rest)[..|block|]) ==
        (if s.AssignStatement? then [Diagnostic(MissingSemicolonAfterExpression, line)] else [])
  {
    match s
    case ReadStatement(name) => ReadDiagnostics(name, line, rest);
    case AssignStatement(name, number) => AssignDiagnostics(name, number, line, rest);
  }

  lemma ReadDiagnostics(name: string, line: nat, rest: seq<Token>)
    ensures Concat(Reports(StatementTokens(ReadStatement(name), line) + rest)[..3]) == []
  {
    var all := StatementTokens(ReadStatement(name), line) + rest;
    var own := Reports(all)[..3];
    assert all[0].kind == "READ" && At(all, 1).kind == "IDENTIFIER" && At(all, 2).kind == "SEMICOLON";
    assert own[0] == [];
    assert all[1].kind == "IDENTIFIER" && At(all, 2).kind == "SEMICOLON";
    assert own[1] == [];
    assert all[2].kind == "SEMICOLON";
    assert own[2] == [];
    ConcatEmpty(own);
  }

  lemma AssignDiagnostics(name: string, number: string, line: nat, rest: seq<Token>)
    ensures Concat(Reports(StatementTokens(AssignStatement(name, number), line) + rest)[..4])
      == [Diagnostic(MissingSemicolonAfterExpression, line)]
  {
    var all := StatementTokens(AssignStatement(name, number), line) + rest;
    var own := Reports(all)[..4];
    assert all[0].kind == "IDENTIFIER" && At(all, 1).kind == "COLON_EQUALS" && At(all, 2).kind == "NUMBER";
    assert own[0] == [Diagnostic(MissingSemicolonAfterExpression, line)];
    assert all[1].kind == "COLON_EQUALS";
    assert own[1] == [];
    assert all[2].kind == "NUMBER";
    assert own[2] == [];
    assert all[3].kind == "SEMICOLON";
    assert own[3] == [];
    ConcatOnlyFirst(own);
  }
}
