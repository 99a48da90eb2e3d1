# A front end for a small teaching language, in Dafny

`Compiler.cpp` is a front end for a small teaching language, and this project models it in three stages:

- **Lexer.** `tokenize` turns the source text into `Token {type, value, lineNumber}` records and reports the characters it cannot use. It relies on `isReservedKeyword` and the table of thirteen reserved words.
- **Statement checker.** `parse` runs `parseStatement` at every token index. The checker looks at the token there and at the one or two tokens after it, and issues a syntax diagnostic for each expectation that is not met.
- **Tree serialiser.** `generateParseTreeXML` walks the tokens and writes a `<Program>` element. It holds one `<Read>` or `<Assign>` element per statement it recognises.

Each stage has two parts:

- An executable Dafny method written the way the C++ code is written: a loop with a cursor, an accumulator and a line counter.
- A ghost or pure specification.

Each method is proved to compute exactly its specification:

- `Lexer.Tokenize` computes `Lexer.Lex`. Each iteration is `Lexer.ScanAt`, which equals `Lexer.Step`.
- `Validator.Parse` computes `Validator.Validate`.
- `ParseTree.GenerateParseTreeXML` computes `RenderProgram(Tree(tokens))`.

The properties the code promises are proved about those specifications, and also for three families of inputs:

- lemmas in `LexerProperties`, `ValidatorProperties` and `ParseTree`;
- whole programs of well-formed statements, in `Programs`;
- concrete inputs, in `Scenarios`.

Modelling decisions:

- **Token types are strings**, as in the source. A reserved word's type is the word in upper case.
- **Reading past the end of the text.** `text[i + 1]` at the last index reads the terminating NUL of a `std::string`. `Lexer.Peek` returns NUL for every index past the end.
- **Reading past the end of the token list.** The source reads `tokens[index + 1]`, `tokens[index + 2]` and `tokens[++i]` past the end, which is undefined behaviour. The model makes these reads total with `Tokens.At`, which returns the sentinel `Token("EOF", "", 0)` past the end. No token is appended to the list.
- **Error output.** What the source writes to the error stream is returned instead:
  - the lexer returns `UnexpectedChar(character, index)` records;
  - the checker returns `Diagnostic(message, line)` values, where the message is the source's text without the trailing " on line N".
- **Character classes** (`isspace`, `isdigit`, `isalpha`, `isalnum`, `toupper`) are their ASCII definitions.

## Model

| member | source | states |
|---|---|---|
| Keywords.IsReservedKeyword | Compiler.cpp:15-22 | a word is reserved exactly when it is in the table of thirteen words; each reserved word is two to six lower-case letters long |
| Keywords.WordKind | Compiler.cpp:68-80 | a word's type is "IDENTIFIER" exactly when the word is not reserved, and the upper-cased word when it is |
| Keywords.Upper | Compiler.cpp:74-75 | upper-casing keeps the word's length |
| Keywords.KeywordKindOf | Compiler.cpp:15-18 | a reserved word's type is one of the thirteen keyword types; it is "STRING" exactly for the word `string` |
| Keywords.ReservedWordsAreLowerCase | Compiler.cpp:15-18 | no reserved word contains an upper-case letter |
| Keywords.CaseSensitiveKeywords | Compiler.cpp:20-22 | a word with an upper-case letter is not reserved, and its token type is "IDENTIFIER" |
| Keywords.OtherCasingIsIdentifier | Compiler.cpp:20-22 | any other casing of a reserved word is an identifier |
| Keywords.KeywordKindsDistinct | Compiler.cpp:73-77 | distinct reserved words get distinct token types |
| Lexer.QuoteStop | Compiler.cpp:43-45 | the string loop stops at the first quote after the opening quote, or at the last index of the text, whichever comes first |
| Lexer.NumberEnd | Compiler.cpp:52-54 | the number run is a maximal run of digits and dots |
| Lexer.CommentStop | Compiler.cpp:60-62 | the comment loop stops at the first closer, or at the last index of the text |
| Lexer.WordEnd | Compiler.cpp:70-72 | the word run is a maximal run of letters, digits and underscores |
| Lexer.Punctuation | Compiler.cpp:84-174 | the `switch` gives a two-character token exactly when the character and the next one form `:=`, `<=`, `>=`, `!=`, `&&` or `\|\|`; it gives a one-character token, with that character's type, exactly when they do not but the character is in the one-character table; otherwise it gives an error |
| Lexer.OperatorKindsAreDistinct | Compiler.cpp:84-171 | an operator token's type is never an identifier, number, string, comment or keyword type |
| Lexer.StringLexemeUnique | Compiler.cpp:41-46 | the string-literal shape admits one text only: the quote, the characters the loop passed over (an unclosed literal losing its last character) and the appended quote |
| Lexer.Step | Compiler.cpp:29-176 | every iteration of the outer loop moves the cursor forward by at least one, so the scan terminates |
| Lexer.StepProperties | Compiler.cpp:29-176 | one iteration skips exactly on whitespace and counts a line exactly on a newline; an emitted token has the shape its first character calls for (which fixes a string literal's text, see `StringLexemeUnique`) and the current line, and the cursor moves just past the token's text (for a comment, past the text less the appended closer); it reports a character exactly when that character starts no token, and then resumes at the next character |
| Lexer.LexFrom | Compiler.cpp:29-177 | the scan records one start index per token, and each lies inside the text at or after the start of the scan |
| Lexer.ScanString | Compiler.cpp:41-46 | the string loop stops where `QuoteStop` says, and its text is a quote, the characters it passed over, and a quote |
| Lexer.ScanNumber | Compiler.cpp:50-54 | the number loop ends on the last character of the maximal run, and its text is that run |
| Lexer.ScanComment | Compiler.cpp:58-63 | the comment loop stops where `CommentStop` says, and its text is the opener, the characters after the opening slash up to the stop index, and a closer |
| Lexer.ScanWord | Compiler.cpp:68-72 | the identifier loop ends on the last character of the maximal run, and its text is that run |
| Lexer.ScanAt | Compiler.cpp:30-175 | one iteration of the loop of `tokenize` does exactly what `Step` says |
| Lexer.Tokenize | Compiler.cpp:24-182 | the tokens and errors produced are exactly those of the scan `Lex` |
| LexerProperties.TokensWellFormed | Compiler.cpp:29-176 | every token has the shape that the character it starts at calls for, with the cases tried in the source's order; for a string literal that shape fixes the text (`StringLexemeUnique`), including the dropped last character of an unclosed literal |
| LexerProperties.StartsIncrease | Compiler.cpp:29-177 | tokens start at strictly increasing indices of the text |
| LexerProperties.ErrorsAreBadCharacters | Compiler.cpp:115-174 | every error reports, with its own index, a character that starts no token, and errors come in increasing index order |
| LexerProperties.LineNumbersCountNewlines | Compiler.cpp:27-35 | a token's line is the starting line plus the newlines that the outer loop stepped on before the token; newlines inside strings and comments do not count |
| LexerProperties.LineNumbersNondecreasing | Compiler.cpp:27-35 | line numbers are at least the starting line and never go down |
| LexerProperties.IdentifierAndKeywordTokens | Compiler.cpp:68-80 | a token that starts at a letter or `_` is the maximal word run there, typed as the upper-cased word if it is reserved and "IDENTIFIER" otherwise; every IDENTIFIER token comes from such a run and is not reserved |
| LexerProperties.NumberTokens | Compiler.cpp:50-56 | a NUMBER token is a non-empty run of digits and dots that starts with a digit, matches the text, and is not continued by the next character |
| LexerProperties.StringAndCommentTokens | Compiler.cpp:41-66 | a token starting at a quote is a STRING that begins and ends with a quote, even when unterminated; a COMMENT starts at the opener and begins with `/*` and ends with `*/`, even when unterminated; the only STRING not starting at a quote is the word `string` |
| LexerProperties.LineNumbers | Compiler.cpp:27-35 | for a whole input, lines start at 1, never go down, and are 1 plus the top-level newlines before the token |
| Validator.CheckStatement | Compiler.cpp:204-272 | per statement type: `read` is silent exactly when followed by an identifier and a semicolon; otherwise it gives exactly "Expected identifier after 'read'" (no identifier) or exactly "Missing ';' after identifier"; `x :=` always gives one or two diagnostics, "Missing number after ':='" exactly when the slot after `:=` is not a number and "Missing ';' after expression" exactly when it is not a semicolon; `if`/`elseif` give two or three, and `until` one or two, each of "Missing '('", "Missing ')'" and (for `if`/`elseif`) "Missing 'then'" exactly when the next token is not that token; an identifier without `:=` and every other token give none; every diagnostic carries the statement's line |
| Validator.ParseStatement | Compiler.cpp:204-272 | the check at an index gives at most three diagnostics, all on the line of the token there, none for a token other than `read`, an identifier, `if`, `elseif` or `until`; a `read` as the last token meets only the end-of-tokens sentinel and draws "Expected identifier after 'read'" |
| Validator.Reports | Compiler.cpp:274-280 | there is one statement report per token index |
| Validator.Parse | Compiler.cpp:274-280 | the checking loop returns exactly `Validate(tokens)`, the reports of every index in order |
| ValidatorProperties.StatementAccepted | Compiler.cpp:204-272 | the check at an index is silent if and only if the statement there is accepted |
| ValidatorProperties.Silent | Compiler.cpp:204-280 | the checker reports nothing if and only if every index is accepted |
| ValidatorProperties.HeadPointsAtStatement | Compiler.cpp:204-272 | a diagnostic from an index comes from a `read`, identifier, `if`, `elseif` or `until` token and carries that token's line |
| ValidatorProperties.DiagnosticsPointAtStatements | Compiler.cpp:204-280 | a diagnostic is in the output if and only if the check of some index issues it; each carries the line of a checked token |
| ValidatorProperties.DiagnosticsInLineOrder | Compiler.cpp:274-280 | when the token lines never decrease, the diagnostic lines never decrease either |
| ValidatorProperties.AtLeastUnavoidable | Compiler.cpp:215-265 | the output has at least the unavoidable diagnostics of every index (at least one per assignment and `until`, at least two per `if` and `elseif`) |
| ValidatorProperties.SameStatement | Compiler.cpp:204-272 | the check of a position depends only on the tokens from that position on, not on what precedes it |
| ValidatorProperties.ReportsShift | Compiler.cpp:274-280 | the reports for the tail of a token list are the reports for that tail on its own |
| ValidatorProperties.ValidateSplit | Compiler.cpp:274-280 | the output for a concatenation is the prefix's reports followed by the output for the suffix alone |
| ParseTree.RenderProgram | Compiler.cpp:185-200 | the XML starts with `<Program>` and a newline and ends with `</Program>`, and it is exactly those two when there are no statements |
| ParseTree.GenerateParseTreeXML | Compiler.cpp:184-202 | the serialiser loop returns exactly the rendering of the statements `Tree` recognises |
| ParseTree.SerialisedRead | Compiler.cpp:188-190 | a `read` emits `<Read>` with the next token's value and consumes both tokens |
| ParseTree.SerialisedAssignment | Compiler.cpp:191-197 | an identifier followed by `:=` emits `<Assign>` with the identifier and a `<Number>` holding the token after the operator, and consumes three tokens |
| ParseTree.SerialisedBareIdentifier | Compiler.cpp:191-197 | an identifier not followed by `:=` emits an `<Assign>` without a number and consumes two tokens |
| ParseTree.TreeSize | Compiler.cpp:187-198 | the serialiser recognises at most one statement per token |
| ParseTree.NodesComeFromTokens | Compiler.cpp:187-198 | every recognised statement comes from a `read` or identifier token, and its target, identifier and number are the values of the tokens the loop reads |
| ParseTree.NoStatementsEmptyProgram | Compiler.cpp:184-202 | a token list with no `read` and no identifier serialises to exactly `<Program>`, a newline and `</Program>` |
| ParseTree.TreeShift | Compiler.cpp:187-198 | the serialiser's walk from a point inside a suffix is the walk over the suffix on its own |
| Programs.TreeOfProgram | Compiler.cpp:184-202 | the tokens of a program of `read x;` and `x := n;` statements serialise to exactly those statements, in order |
| Programs.StatementDiagnostics | Compiler.cpp:204-223 | the positions of a `read x;` statement report nothing, and those of `x := n;` report only "Missing ';' after expression", whatever follows |
| Programs.DiagnosticsOfProgram | Compiler.cpp:204-280 | such a program draws exactly one "Missing ';' after expression" per assignment, on its line, and nothing else |
| Scenarios.AssignmentLine | Compiler.cpp:24-182 | `x := 5;` lexes to an identifier, `:=`, a number and a semicolon on line 1 and the checker reports "Missing ';' after expression" |
| Scenarios.ReadWithoutSemicolon | Compiler.cpp:204-209 | `read x` without a semicolon draws "Missing ';' after identifier" on line 1 |
| Scenarios.ReadWithoutSemicolonTree | Compiler.cpp:184-202 | `read x` serialises to a program with one `<Read>x</Read>` line |
| Scenarios.WellFormedIfRejected | Compiler.cpp:228-238 | `if ( x ) then` draws the missing `)` and missing `then` diagnostics |
| Scenarios.UnterminatedString | Compiler.cpp:41-47 | an unterminated literal `"abc` at the end of the text yields the STRING `"ab"` |
| Scenarios.NewlineInsideString | Compiler.cpp:32-47 | a newline inside a string literal does not advance the line counter |
| Scenarios.StringKeyword | Compiler.cpp:15-18 | the reserved word `string` lexes as a token of type STRING |
| Scenarios.CommentLexeme | Compiler.cpp:58-66 | the comment `/* a */` yields the COMMENT text `/** a **/` |
| Scenarios.LoneExclamation | Compiler.cpp:115-123 | a lone `!` yields no token and one error at its index, and scanning continues with the next character |

## Left out

- `main` (Compiler.cpp:282-307) is not modelled. It reads the input from a file and prints tokens to the console; that is input and output.
- The error stream is not modelled. The model returns messages as values instead of formatting them.
- `<cctype>` locale behaviour is not modelled. The character classes and `toupper` are their ASCII definitions.
- The `++lineNumber` after the loop of `tokenize` (Compiler.cpp:178-180) is not modelled. It changes a local that is never read again.
- Out-of-bounds token reads are not modelled. They are undefined behaviour in the source; the model replaces them with the end-of-tokens sentinel.
- The return from `parseStatement` on `END` is not modelled separately. It has the same effect as the other silent branches.
- The input is modelled as a sequence of characters, not of bytes. On non-ASCII text the source passes negative `char` values to the `<cctype>` functions, which is undefined behaviour, and rejects each byte of a multi-byte character at its byte offset. The model reports one `UnexpectedChar` per character, at its character index, so error counts and positions differ on such text.

Behaviours of the code that a reader may not expect, which the model keeps:

- An unterminated string literal loses its last character: `"abc` at the end of the text gives `"ab"`.
- A comment's text repeats the star of the opener and of the closer: `/* a */` gives `/** a **/`.
- The reserved word `string` has type STRING, the same as string literals.
- `x := 5;` draws "Missing ';' after expression". The check for a number and the check for a semicolon look at the same token, so every assignment draws at least one diagnostic.
