/** The XML parse tree: which statements the serialiser recognises in a
    token list, how each is rendered, and the imperative serialiser that
    walks the list. */
module ParseTree {
  import opened Tokens

  /** A recognised statement: `read x`, or an assignment `x := n` whose
      number is absent when the identifier is not followed by `:=`. */
  datatype Node = Read(target: string) | Assign(identifier: string, number: Option<string>)

  /** The statements recognised from position `i` on. A `read` takes the
      token after it as its target and the scan resumes two tokens later; an
      identifier followed by `:=` takes the token after the operator as its
      number and the scan resumes three tokens later, and an identifier
      without `:=` resumes two tokens later; every other token is skipped.
      Reads past the end of the list yield the sentinel, whose value is
      empty. */
  function TreeFrom(tokens: seq<Token>, i: nat): seq<Node>
    decreases |tokens| - i
  {
    if i >= |tokens| then []
    else if tokens[i].kind == "READ" then
      [Read(At(tokens, i + 1).value)] + TreeFrom(tokens, i + 2)
    else if tokens[i].kind == "IDENTIFIER" then
      if At(tokens, i + 1).kind == "COLON_EQUALS" then
        [Assign(tokens[i].value, Some(At(tokens, i + 2).value))] + TreeFrom(tokens, i + 3)
      else
        [Assign(tokens[i].value, None)] + TreeFrom(tokens, i + 2)
    else TreeFrom(tokens, i + 1)
  }

  function Tree(tokens: seq<Token>): seq<Node> {
    TreeFrom(tokens, 0)
  }

  const Indent := "    "
  const ProgramOpen := "<Program>\n"
  const ProgramClose := "</Program>"

  /** The line of a `read` statement. */
  function ReadLine(target: string): string {
    Indent + "<Read>" + target + "</Read>\n"
  }

  /** The two lines that open an assignment. */
  function AssignHeader(identifier: string): string {
    Indent + "<Assign>\n" + Indent + "<Identifier>" + identifier + "</Identifier>\n"
  }

  function NumberLine(value: string): string {
    Indent + "<Number>" + value + "</Number>\n"
  }

  const AssignFooter := Indent + "</Assign>\n"

  /** The XML lines of one statement. */
  function RenderNode(n: Node): (xml: string)
    ensures |xml| > 0 && xml[0] == ' ' && xml[|xml| - 1] == '\n'
  {
    match n
    case Read(target) => ReadLine(target)
    case Assign(identifier, None) => AssignHeader(identifier) + AssignFooter
    case Assign(identifier, Some(value)) => AssignHeader(identifier) + NumberLine(value) + AssignFooter
  }

  function RenderNodes(nodes: seq<Node>): (xml: string)
    ensures |xml| >= |nodes|
    ensures nodes != [] ==> xml[0] == ' ' && xml[|xml| - 1] == '\n'
  {
    if nodes == [] then "" else RenderNode(nodes[0]) + RenderNodes(nodes[1..])
  }

  /** The whole document: the statements between a `Program` opening line
      and the closing tag, with no line break after the closing tag. */
  function RenderProgram(nodes: seq<Node>): (xml: string)
    ensures |xml| >= |ProgramOpen| + |ProgramClose|
    ensures xml[..|ProgramOpen|] == ProgramOpen
    ensures xml[|xml| - |ProgramClose|..] == ProgramClose
    ensures xml == ProgramOpen + ProgramClose <==> nodes == []
  {
    ProgramOpen + RenderNodes(nodes) + ProgramClose
  }

  /** The serialiser: a cursor that steps over a `read` and its target, over
      an identifier and the token after it, and also over the number when
      that token is `:=`. */
  method GenerateParseTreeXML(tokens: seq<Token>) returns (xml: string)
    ensures xml == RenderProgram(Tree(tokens))
  {
    xml := ProgramOpen;
    var i := 0;
    while i < |tokens|
      invariant ProgramOpen + RenderNodes(Tree(tokens)) == xml + RenderNodes(TreeFrom(tokens, i))
      decreases |tokens| + 1 - i
    {
      ghost var start, before := i, xml;
      if tokens[i].kind == "READ" {
        i := i + 1;
        xml := xml + ReadLine(At(tokens, i).value);
      } else if tokens[i].kind == "IDENTIFIER" {
        xml := xml + AssignHeader(tokens[i].value);
        i := i + 1;
        if At(tokens, i).kind == "COLON_EQUALS" {
          i := i + 1;
          xml := xml + NumberLine(At(tokens, i).value);
        }
        xml := xml + AssignFooter;
      }
      i := i + 1;
      SerialiserAdvances(tokens, start, i, before, xml);
    }
    SerialisedAll(tokens, i, xml);
    xml := xml + ProgramClose;
  }

  /** What one iteration of the serialiser does, starting at `start` with
      output `before`: where the cursor lands and what it appends. */
  predicate SerialiserStep(tokens: seq<Token>, start: nat, next: nat, before: string, after: string)
    requires start < |tokens|
  {
    if tokens[start].kind == "READ" then
      next == start + 2 && after == before + ReadLine(At(tokens, start + 1).value)
    else if tokens[start].kind == "IDENTIFIER" then
      if At(tokens, start + 1).kind == "COLON_EQUALS" then
        next == start + 3
        && after == before + AssignHeader(tokens[start].value) + NumberLine(At(tokens, start + 2).value) + AssignFooter
      else
        next == start + 2 && after == before + AssignHeader(tokens[start].value) + AssignFooter
    else
      next == start + 1 && after == before
  }

  /** One iteration keeps the serialiser's invariant. */
  lemma SerialiserAdvances(tokens: seq<Token>, start: nat, next: nat, before: string, after: string)
    requires start < |tokens|
    requires SerialiserStep(tokens, start, next, before, after)
    ensures before + RenderNodes(TreeFrom(tokens, start)) == after + RenderNodes(TreeFrom(tokens, next))
  {
    if tokens[start].kind == "READ" {
      SerialisedRead(tokens, start, before, after);
    } else if tokens[start].kind == "IDENTIFIER" {
      if At(tokens, start + 1).kind == "COLON_EQUALS" {
        SerialisedAssignment(tokens, start, before, after);
      } else {
        SerialisedBareIdentifier(tokens, start, before, after);
      }
    }
  }

  /** Once the cursor is past the end, the closing tag completes the
      document. */
  lemma SerialisedAll(tokens: seq<Token>, i: nat, xml: string)
    requires i >= |tokens|
    requires ProgramOpen + RenderNodes(Tree(tokens)) == xml + RenderNodes(TreeFrom(tokens, i))
    ensures xml + ProgramClose == RenderProgram(Tree(tokens))
  {
    assert TreeFrom(tokens, i) == [];
    assert xml + RenderNodes([]) == xml;
  }

  /** The `read` branch of the serialiser keeps its invariant. */
  lemma SerialisedRead(tokens: seq<Token>, start: nat, before: string, after: string)
    requires start < |tokens| && tokens[start].kind == "READ"
    requires after == before + ReadLine(At(tokens, start + 1).value)
    ensures before + RenderNodes(TreeFrom(tokens, start)) == after + RenderNodes(TreeFrom(tokens, start + 2))
  {
    var n := Read(At(tokens, start + 1).value);
    var rest := TreeFrom(tokens, start + 2);
    assert TreeFrom(tokens, start) == [n] + rest;
    assert ([n] + rest)[1..] == rest;
    assert RenderNodes([n] + rest) == RenderNode(n) + RenderNodes(rest);
  }

  /** The identifier branch of the serialiser keeps its invariant when
      `:=` follows the identifier... */
  lemma SerialisedAssignment(tokens: seq<Token>, start: nat, before: string, after: string)
    requires start < |tokens| && tokens[start].kind == "IDENTIFIER"
    requires At(tokens, start + 1).kind == "COLON_EQUALS"
    requires after == before + AssignHeader(tokens[start].value) + NumberLine(At(tokens, start + 2).value) + AssignFooter
    ensures before + RenderNodes(TreeFrom(tokens, start)) == after + RenderNodes(TreeFrom(tokens, start + 3))
  {
    var n := Assign(tokens[start].value, Some(At(tokens, start + 2).value));
    var rest := TreeFrom(tokens, start + 3);
    assert TreeFrom(tokens, start) == [n] + rest;
    assert ([n] + rest)[1..] == rest;
    assert RenderNodes([n] + rest) == RenderNode(n) + RenderNodes(rest);
    Regroup(before, AssignHeader(tokens[start].value), NumberLine(At(tokens, start + 2).value), AssignFooter, RenderNodes(rest));
  }

  /** ... and when it does not. */
  lemma SerialisedBareIdentifier(tokens: seq<Token>, start: nat, before: string, after: string)
    requires start < |tokens| && tokens[start].kind == "IDENTIFIER"
    requires At(tokens, start + 1).kind != "COLON_EQUALS"
    requires after == before + AssignHeader(tokens[start].value) + AssignFooter
    ensures before + RenderNodes(TreeFrom(tokens, start)) == after + RenderNodes(TreeFrom(tokens, start + 2))
  {
    var n := Assign(tokens[start].value, None);
    var rest := TreeFrom(tokens, start + 2);
    assert TreeFrom(tokens, start) == [n] + rest;
    assert ([n] + rest)[1..] == rest;
    assert RenderNodes([n] + rest) == RenderNode(n) + RenderNodes(rest);
    RegroupPair(before, AssignHeader(tokens[start].value), AssignFooter, RenderNodes(rest));
  }

  lemma RegroupPair(a: string, b: string, c: string, r: string)
    ensures a + ((b + c) + r) == (a + b + c) + r
  {
  }

  lemma Regroup(a: string, b: string, c: string, d: string, r: string)
    ensures a + ((b + c + d) + r) == (a + b + c + d) + r
  {
  }

  /** At most one statement is recognised per token. */
  lemma {:induction false} TreeSize(tokens: seq<Token>, i: nat)
    requires i <= |tokens|
    ensures |TreeFrom(tokens, i)| <= |tokens| - i
    decreases |tokens| - i
  {
    if i < |tokens| {
      if tokens[i].kind == "READ" || tokens[i].kind == "IDENTIFIER" {
        var j := if tokens[i].kind == "IDENTIFIER" && At(tokens, i + 1).kind == "COLON_EQUALS" then i + 3 else i + 2;
        if j <= |tokens| {
          TreeSize(tokens, j);
        }
      } else {
        TreeSize(tokens, i + 1);
      }
    }
  }

  /** Every recognised statement comes from the tokens: a `read` target is
      the value of the token after a READ token (or empty past the end), an
      assignment's identifier is the value of an IDENTIFIER token, and its
      number is the value of the token after a `:=` that follows that
      identifier. */
  lemma {:induction false} NodesComeFromTokens(tokens: seq<Token>, i: nat)
    ensures forall n :: n in TreeFrom(tokens, i) ==>
      exists j :: i <= j < |tokens| && match n
        case Read(target) => tokens[j].kind == "READ" && target == At(tokens, j + 1).value
        case Assign(identifier, number) =>
          && tokens[j].kind == "IDENTIFIER" && identifier == tokens[j].value
          && (number.Some? <==> At(tokens, j + 1).kind == "COLON_EQUALS")
          && (number.Some? ==> number.value == At(tokens, j + 2).value)
    decreases |tokens| - i
  {
    if i < |tokens| {
      var next := if tokens[i].kind == "READ" then i + 2
        else if tokens[i].kind == "IDENTIFIER" then (if At(tokens, i + 1).kind == "COLON_EQUALS" then i + 3 else i + 2)
        else i + 1;
      NodesComeFromTokens(tokens, next);
      var rest := TreeFrom(tokens, next);
      assert TreeFrom(tokens, i) == rest || TreeFrom(tokens, i) == [TreeFrom(tokens, i)[0]] + rest;
    }
  }

  /** A token list without READ and IDENTIFIER tokens yields the empty
      program. */
  lemma NoStatementsEmptyProgram(tokens: seq<Token>)
    requires forall j :: 0 <= j < |tokens| ==> tokens[j].kind != "READ" && tokens[j].kind != "IDENTIFIER"
    ensures Tree(tokens) == []
    ensures RenderProgram(Tree(tokens)) == "<Program>\n</Program>"
  {
    NoStatementsFrom(tokens, 0);
    assert RenderNodes([]) == "";
  }

  lemma {:induction false} NoStatementsFrom(tokens: seq<Token>, i: nat)
    requires forall j :: i <= j < |tokens| ==> tokens[j].kind != "READ" && tokens[j].kind != "IDENTIFIER"
    ensures TreeFrom(tokens, i) == []
    decreases |tokens| - i
  {
    if i < |tokens| {
      NoStatementsFrom(tokens, i + 1);
    }
  }

  /** The scan only looks forward, so what it recognises in the tail of a
      list does not depend on what comes before. */
  lemma {:induction false} TreeShift(prefix: seq<Token>, suffix: seq<Token>, j: nat)
    ensures TreeFrom(prefix + suffix, |prefix| + j) == TreeFrom(suffix, j)
    decreases |suffix| - j
  {
    if j < |suffix| {
      var all := prefix + suffix;
      var p := |prefix| + j;
      assert all[p] == suffix[j];
      assert At(all, p + 1) == At(suffix, j + 1);
      assert At(all, p + 2) == At(suffix, j + 2);
      TreeShift(prefix, suffix, j + 1);
      TreeShift(prefix, suffix, j + 2);
      TreeShift(prefix, suffix, j + 3);
    }
  }
}
