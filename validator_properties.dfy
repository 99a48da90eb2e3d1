/** What the statement checker reports over a whole token list: exactly
    when it is silent, where its diagnostics point, their order, and how
    many a list must at least draw. The facts about joining reports are
    proved once, for any reports; the facts about tokens then follow
    position by position. */
module ValidatorProperties {
  import opened Tokens
  import opened Validator

  // Joining reports.

  /** The join is empty exactly when every report is. */
  lemma {:induction false} ConcatEmpty(parts: seq<seq<Diagnostic>>)
    ensures Concat(parts) == [] <==> forall k :: 0 <= k < |parts| ==> parts[k] == []
    decreases |parts|
  {
    if parts != [] {
      var n := |parts| - 1;
      var init := parts[..n];
      ConcatEmpty(init);
      assert Concat(parts) == Concat(init) + parts[n];
      assert forall k :: 0 <= k < n ==> init[k] == parts[k];
    }
  }

  /** A diagnostic is in the join exactly when it is in one of the reports. */
  lemma {:induction false} ConcatMembers(parts: seq<seq<Diagnostic>>)
    ensures forall d :: d in Concat(parts) <==> exists k :: 0 <= k < |parts| && d in parts[k]
    decreases |parts|
  {
    if parts != [] {
      var n := |parts| - 1;
      var init := parts[..n];
      ConcatMembers(init);
      assert Concat(parts) == Concat(init) + parts[n];
      forall d
        ensures d in Concat(parts) <==> exists k :: 0 <= k < |parts| && d in parts[k]
      {
        if d in Concat(init) {
          var k :| 0 <= k < n && d in init[k];
          assert d in parts[k];
        } else if d in parts[n] {
        } else {
          forall k | 0 <= k < |parts|
            ensures d !in parts[k]
          {
            if k < n {
              assert parts[k] == init[k];
            }
          }
        }
      }
    }
  }

  /** Joining two runs of reports joins their joins. */
  lemma {:induction false} ConcatAppend(a: seq<seq<Diagnostic>>, b: seq<seq<Diagnostic>>)
    ensures Concat(a + b) == Concat(a) + Concat(b)
    decreases |b|
  {
    if b == [] {
      assert a + b == a;
    } else {
      var n := |b| - 1;
      ConcatAppend(a, b[..n]);
      assert (a + b)[..|a + b| - 1] == a + b[..n];
      assert Concat(a + b) == Concat(a + b[..n]) + b[n];
      AppendAssociates(Concat(a), Concat(b[..n]), b[n]);
    }
  }

  function Sum(ns: seq<nat>): nat
    decreases |ns|
  {
    if ns == [] then 0 else Sum(ns[..|ns| - 1]) + ns[|ns| - 1]
  }

  /** Reports at least as long as the given lengths join to at least their
      sum. */
  lemma {:induction false} ConcatAtLeast(parts: seq<seq<Diagnostic>>, lower: seq<nat>)
    requires |lower| == |parts|
    requires forall k :: 0 <= k < |parts| ==> lower[k] <= |parts[k]|
    ensures |Concat(parts)| >= Sum(lower)
    decreases |parts|
  {
    if parts != [] {
      var n := |parts| - 1;
      ConcatAtLeast(parts[..n], lower[..n]);
      assert Concat(parts) == Concat(parts[..n]) + parts[n];
    }
  }

  predicate DiagnosticLinesNondecreasing(ds: seq<Diagnostic>) {
    forall a, b :: 0 <= a < b < |ds| ==> ds[a].line <= ds[b].line
  }

  /** When every diagnostic of the k-th report is on `lines[k]` and those
      lines never decrease, neither do the lines of the join. */
  lemma {:induction false} ConcatOrdered(parts: seq<seq<Diagnostic>>, lines: seq<nat>)
    requires |lines| == |parts|
    requires forall k, d :: 0 <= k < |parts| && d in parts[k] ==> d.line == lines[k]
    requires forall a, b :: 0 <= a < b < |lines| ==> lines[a] <= lines[b]
    ensures DiagnosticLinesNondecreasing(Concat(parts))
    decreases |parts|
  {
    if parts != [] {
      var n := |parts| - 1;
      var init, last := parts[..n], parts[n];
      ConcatOrdered(init, lines[..n]);
      ConcatMembers(init);
      var c := Concat(init);
      var ds := Concat(parts);
      assert ds == c + last;
      forall a, b | 0 <= a < b < |ds|
        ensures ds[a].line <= ds[b].line
      {
        if b < |c| {
          assert ds[a] == c[a] && ds[b] == c[b];
        } else if a < |c| {
          assert ds[a] in c;
          var k :| 0 <= k < n && ds[a] in init[k];
          assert ds[a] in parts[k];
          assert ds[b] in last;
        } else {
          assert ds[a] in last && ds[b] in last;
        }
      }
    }
  }

  // The checker over token lists.

  /** When the check at `i` stays silent, stated on the tokens alone: a
      `read` is followed by an identifier and a semicolon, an identifier is
      not followed by `:=`, and the token is not `if`, `elseif` or `until`. */
  predicate Accepted(tokens: seq<Token>, i: nat)
    requires i < |tokens|
  {
    && (tokens[i].kind == "READ" ==>
          At(tokens, i + 1).kind == "IDENTIFIER" && At(tokens, i + 2).kind == "SEMICOLON")
    && (tokens[i].kind == "IDENTIFIER" ==> At(tokens, i + 1).kind != "COLON_EQUALS")
    && tokens[i].kind !in {"IF", "ELSEIF", "UNTIL"}
  }

  lemma StatementAccepted(tokens: seq<Token>, i: nat)
    requires i < |tokens|
    ensures ParseStatement(tokens, i) == [] <==> Accepted(tokens, i)
  {
    var k := tokens[i].kind;
    if k == "IDENTIFIER" && At(tokens, i + 1).kind == "COLON_EQUALS" {
      assert |ParseStatement(tokens, i)| >= 1;
    }
  }

  /** The checker reports nothing exactly when every token position is
      accepted. */
  lemma Silent(tokens: seq<Token>)
    ensures Validate(tokens) == [] <==> forall j :: 0 <= j < |tokens| ==> Accepted(tokens, j)
  {
    var rs := Reports(tokens);
    ConcatEmpty(rs);
    forall j | 0 <= j < |tokens|
      ensures rs[j] == [] <==> Accepted(tokens, j)
    {
      StatementAccepted(tokens, j);
    }
  }

  /** Token kinds that can draw a diagnostic. */
  const CheckedKinds: set<string> := {"READ", "IDENTIFIER", "IF", "ELSEIF", "UNTIL"}

  /** Every diagnostic comes from the check of one position, and carries the
      line of a checked token. */
  lemma DiagnosticsPointAtStatements(tokens: seq<Token>)
    ensures forall d :: d in Validate(tokens) <==> exists j :: 0 <= j < |tokens| && d in ParseStatement(tokens, j)
    ensures forall d :: d in Validate(tokens) ==>
      exists j :: 0 <= j < |tokens| && tokens[j].kind in CheckedKinds && tokens[j].line == d.line
  {
    var rs := Reports(tokens);
    ConcatMembers(rs);
    assert forall j :: 0 <= j < |tokens| ==> rs[j] == ParseStatement(tokens, j);
    forall d | d in Validate(tokens)
      ensures exists j :: 0 <= j < |tokens| && tokens[j].kind in CheckedKinds && tokens[j].line == d.line
    {
      var j :| 0 <= j < |tokens| && d in ParseStatement(tokens, j);
      HeadPointsAtStatement(tokens, j);
    }
  }

  lemma HeadPointsAtStatement(tokens: seq<Token>, i: nat)
    requires i < |tokens|
    ensures forall d :: d in ParseStatement(tokens, i) ==> tokens[i].kind in CheckedKinds && d.line == tokens[i].line
  {
  }

  predicate LinesNondecreasing(tokens: seq<Token>) {
    forall a, b :: 0 <= a < b < |tokens| ==> tokens[a].line <= tokens[b].line
  }

  /** Diagnostics come out in token order: over tokens whose line numbers
      never decrease, as the lexer produces them, so do the diagnostics'
      line numbers. */
  lemma DiagnosticsInLineOrder(tokens: seq<Token>)
    requires LinesNondecreasing(tokens)
    ensures DiagnosticLinesNondecreasing(Validate(tokens))
  {
    var rs := Reports(tokens);
    var lines := seq(|tokens|, k requires 0 <= k < |tokens| => tokens[k].line);
    forall k, d: Diagnostic | 0 <= k < |rs| && d in rs[k]
      ensures d.line == lines[k]
    {
      assert rs[k] == ParseStatement(tokens, k);
    }
    ConcatOrdered(rs, lines);
  }

  /** The fewest diagnostics the statement at `i` can draw whatever follows
      it: two for `if` and `elseif`, one for `until` and for an
      assignment. */
  function Unavoidable(tokens: seq<Token>, i: nat): (n: nat)
    requires i < |tokens|
    ensures n <= |ParseStatement(tokens, i)|
  {
    match tokens[i].kind
    case "IF" => 2
    case "ELSEIF" => 2
    case "UNTIL" => 1
    case "IDENTIFIER" => if At(tokens, i + 1).kind == "COLON_EQUALS" then 1 else 0
    case _ => 0
  }

  /** No token list escapes the unavoidable diagnostics of its positions. */
  lemma AtLeastUnavoidable(tokens: seq<Token>)
    ensures |Validate(tokens)| >= Sum(seq(|tokens|, k requires 0 <= k < |tokens| => Unavoidable(tokens, k)))
  {
    var rs := Reports(tokens);
    var lower := seq(|tokens|, k requires 0 <= k < |tokens| => Unavoidable(tokens, k));
    forall k | 0 <= k < |rs|
      ensures lower[k] <= |rs[k]|
    {
      assert rs[k] == ParseStatement(tokens, k);
    }
    ConcatAtLeast(rs, lower);
  }

  /** The check at a position only looks forward, so the reports of the
      tail of a list do not depend on what comes before it. */
  lemma ReportsShift(prefix: seq<Token>, suffix: seq<Token>)
    ensures Reports(prefix + suffix)[|prefix|..] == Reports(suffix)
  {
    var tail := Reports(prefix + suffix)[|prefix|..];
    forall j | 0 <= j < |suffix|
      ensures tail[j] == Reports(suffix)[j]
    {
      SameStatement(prefix, suffix, j);
    }
  }

  /** The statement check at `j` in the tail sees the same three tokens as
      the check at the matching position of the whole list. */
  lemma SameStatement(prefix: seq<Token>, suffix: seq<Token>, j: nat)
    requires j < |suffix|
    ensures ParseStatement(prefix + suffix, |prefix| + j) == ParseStatement(suffix, j)
  {
    var all := prefix + suffix;
    var p := |prefix| + j;
    assert all[p] == suffix[j];
    assert At(all, p + 1) == At(suffix, j + 1);
    assert At(all, p + 2) == At(suffix, j + 2);
  }

  /** Everything reported about `prefix + suffix` is what the checks at the
      positions of `prefix` report, followed by what is reported about
      `suffix` alone. */
  lemma ValidateSplit(prefix: seq<Token>, suffix: seq<Token>)
    ensures Validate(prefix + suffix) == Concat(Reports(prefix + suffix)[..|prefix|]) + Validate(suffix)
  {
    var rs := Reports(prefix + suffix);
    ReportsShift(prefix, suffix);
    assert rs == rs[..|prefix|] + rs[|prefix|..];
    ConcatAppend(rs[..|prefix|], rs[|prefix|..]);
  }

  /** When only the first report is nonempty, the join is that report. */
  lemma ConcatOnlyFirst(parts: seq<seq<Diagnostic>>)
    requires |parts| > 0
    requires forall j :: 1 <= j < |parts| ==> parts[j] == []
    ensures Concat(parts) == parts[0]
  {
    assert parts == [parts[0]] + parts[1..];
    ConcatAppend([parts[0]], parts[1..]);
    ConcatEmpty(parts[1..]);
    assert Concat([parts[0]]) == Concat([]) + parts[0];
  }

  /** When only the first position draws diagnostics, they are all there
      is. */
  lemma OnlyFirstReports(tokens: seq<Token>)
    requires |tokens| > 0
    requires forall j :: 1 <= j < |tokens| ==> ParseStatement(tokens, j) == []
    ensures Validate(tokens) == ParseStatement(tokens, 0)
  {
    ConcatOnlyFirst(Reports(tokens));
  }
}
