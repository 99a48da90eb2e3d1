/** The token record shared by the lexer, the statement validator and the
    parse-tree serialiser. */
module Tokens {

  datatype Option<T> = None | Some(value: T)

  /** One token: its type name ("IDENTIFIER", "NUMBER", "READ",
      "COLON_EQUALS", ...), the text it stands for, and the line on which it
      starts. */
  datatype Token = Token(kind: string, value: string, line: nat)

  /** What every read past the end of a token list yields. The C++ code reads
      `tokens[index + 1]`, `tokens[index + 2]` and `tokens[++i]` without a
      bounds check; this sentinel makes those reads total. Its type name is
      none of the names the validator or the serialiser test for. */
  const EndOfTokens: Token := Token("EOF", "", 0)

  /** `tokens[k]`, or the sentinel when `k` is past the end. */
  function At(tokens: seq<Token>, k: nat): Token {
    if k < |tokens| then tokens[k] else EndOfTokens
  }

  /** Regrouping a concatenation, stated once so that proofs which extend
      an output list need not rediscover it. */
  lemma AppendAssociates<T>(a: seq<T>, b: seq<T>, c: seq<T>)
    ensures a + (b + c) == (a + b) + c
  {
  }
}
