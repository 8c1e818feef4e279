# LOLCAT interpreter pipeline in Dafny

This project models the interpreter in `LOLCAT/basic.py`. The pipeline has three stages:

- **The lexer** (`LOLCATLexer`) is a cursor over the source text. Each call of `get_next_token`:
  - skips whitespace and `#` line comments;
  - reads a maximal run of digits as an INTEGER token, or a maximal run of letters and underscores as a VARIABLE token;
  - reads `=`, `(`, `)` and `,` as one-character tokens;
  - returns EOF at the end;
  - raises on any other character.
- **The parser** (`LOLCATParser`) is recursive descent with one token of lookahead. It pulls the first token when it is built, and one more each time `eat` consumes one. It parses one `expr` and then stops without checking for EOF.
- **The interpreter** (`LOLCATInterpreter`) walks the tree against a mutable symbol table.

Modules:

- `Tokens` (`tokens.dfy`): the token types, tokens, the errors every stage can raise (as values), and `TokenStream`. A `TokenStream` is what successive lexer calls yield: a prefix of tokens, then either the lexer's error or EOF for ever.
- `Ast` (`ast.dfy`): the tree. A child that the program leaves as Python's `None` is an `Option` here.
- `Lexing` (`lexer.dfy`):
  - `Scan` specifies one call of the lexer.
  - `Lex` and `Pull` describe the stream of successive calls.
  - The class `Lexer` (fields `code`, `pos`, `currentChar`) has a method for each of `advance`, `skip_whitespace`, `integer`, `variable` and `get_next_token`. The comment loop inside `get_next_token` is the method `SkipComment`. `Advance` states its new position and character directly. The loops are proved to stop where `RunEnd` says, and `GetNextToken` is proved to follow `Scan`. `error` is the `Err` case of the results.
- `Parsing` (`parser.dfy`):
  - `EatToken`, `ParseFactor`, `ParseTerm` (with its loop `ParseTermLoop`) and `ParseExpr` say what each procedure yields from a stream position.
  - The class `Parser` (fields `stream`, `pos`, `currentToken`) is proved to follow them.
- `Interpreting` (`interpreter.dfy`):
  - `Eval` gives the value, or the error, and the table afterwards.
  - The class `Interpreter` holds `symbolTable`. Its visitors and `Interpret` are proved to follow `Eval`.
- `Pipeline` (`pipeline.dfy`): text to value, with whole-program examples.

Two references in the source name things that do not exist (see "## Findings"). The model repairs both:

- The token type `SUB` is used by the parser and the interpreter but missing from the enum. It is added as `TokenKind.Sub` with value `"SUB"`.
- `self.visit` is called by the visitors but never defined. It is taken to be the `interpret` dispatcher.

Behaviour of the code that the model keeps:

- The two-character keyword branch at lines 95-99 is unreachable, so `HAI`, `OIC`, `NO` and `YA` lex as names (`RunWord`, `LexORly`).
- Integers are Python's unbounded integers.
- A parse error carries the expected and the actual token type.
- The lexer has no token for `+` or `-`. A `+` or `-` outside a comment makes the lexer fail when a call reaches it (`RunOnePlusTwo`). The parser is therefore modelled and proved over arbitrary well-formed token streams, where its `+`/`-` loop can run.
- The parser pulls one token of lookahead after the expression it parses. An invalid character there raises (`RunBadLookahead`). Text after that lookahead token is never lexed, so an invalid character there raises nothing (`RunIgnoresBadTail`).

## Model

| member | source | states |
|---|---|---|
| Tokens.KindOfSpelling | LOLCAT/basic.py:4-21 | Looking a token type up by its value, as `LOLCATTokenType(value)` does, finds a type whose value is that string, or nothing. |
| Tokens.SpellingRoundTrip | LOLCAT/basic.py:4-21 | The enum values are distinct: every token type is found again from its own value. |
| Lexing.RunEnd | LOLCAT/basic.py:44-46 | The end of the longest run of one character class from `p`: every character before it is in the class, and it is the end of the text or the first character outside the class. |
| Lexing.Numeral | LOLCAT/basic.py:53 | `int` of a string of k decimal digits is a natural number below 10^k. |
| Lexing.NumeralOfDecimal | LOLCAT/basic.py:53 | `int` of the decimal spelling of n is n. |
| Lexing.Scan | LOLCAT/basic.py:62-103 | One call keeps the cursor within the text. A non-EOF token moves the cursor strictly forward, EOF leaves it at the end of the text, and every token returned carries the payload of its type. |
| Lexing.ScanFailsIff | LOLCAT/basic.py:62-101 | A call fails exactly when, after whitespace and comments, the cursor is on a character that cannot begin a token. The error then names that character and its position. |
| Lexing.KeywordBranchUnreachable | LOLCAT/basic.py:95-99 | At a character that is not a letter or `_`, the two characters under the cursor are never one of the four keyword prefixes, so that branch never decides anything. |
| Lexing.ScanInteger | LOLCAT/basic.py:68-69 | At a digit, a call returns one INTEGER token holding `int` of the maximal digit run, and the cursor rests just after the run. |
| Lexing.ScanName | LOLCAT/basic.py:71-72 | At a letter or `_`, a call returns one VARIABLE token holding exactly the maximal run of letters and underscores, and the cursor rests just after it. |
| Lexing.SkipTrivia | LOLCAT/basic.py:63-66 | Skipping whitespace and comments from `p` stays within the text and stops at the end or at a character that is neither whitespace nor `#`. |
| Lexing.ScanSkipsTrivia | LOLCAT/basic.py:63-66 | Whitespace and comments yield no token: a call returns what a call after the skipped stretch returns. |
| Lexing.EofIsStable | LOLCAT/basic.py:103 | After EOF the cursor is at the end of the text, and calling again returns EOF without moving it. |
| Lexing.Lex | LOLCAT/basic.py:62-103 | The tokens of successive calls all carry the payload of their type, and EOF is never among them. |
| Lexing.Pull | LOLCAT/basic.py:62-103 | Every token that any one of successive calls returns carries the payload of its type. |
| Lexing.LexIsPull | LOLCAT/basic.py:62-103 | The k-th entry of the token stream is exactly what the k-th successive call of the lexer returns. |
| Lexing.LexDecimal | LOLCAT/basic.py:48-53 | Lexing the decimal spelling of n yields one INTEGER token of value n, then EOF. |
| Lexing.LexWord | LOLCAT/basic.py:55-60 | Lexing any word of letters and underscores, keyword-looking or not, yields one VARIABLE token with exactly that text, then EOF. |
| Lexing.LexORly | LOLCAT/basic.py:95-101 | `O RLY?` lexes as the names `O` and `RLY`, then fails on `?` at position 5. |
| Lexing.ScanRejectsSigns | LOLCAT/basic.py:101 | At `+`, `-`, `"` or `?`, a call fails naming that character and its position, and leaves the cursor where it was. |
| Lexing.Lexer.constructor | LOLCAT/basic.py:32-35 | A new lexer is at position 0, and its current character is the first character, or none for empty text. |
| Lexing.Lexer.Advance | LOLCAT/basic.py:40-42 | The position goes up by one, and the current character is the one at the new position, or none past the end. |
| Lexing.Lexer.SkipWhitespace | LOLCAT/basic.py:44-46 | The cursor moves to the end of the whitespace run. |
| Lexing.Lexer.SkipComment | LOLCAT/basic.py:90-93 | The cursor moves to the next newline, or to the end of the text. |
| Lexing.Lexer.Integer | LOLCAT/basic.py:48-53 | The cursor moves past the digit run, and the result is `int` of the digits read. An empty run fails, as `int('')` does. |
| Lexing.Lexer.Variable | LOLCAT/basic.py:55-60 | The cursor moves past the run of letters and underscores, and the result is exactly the text read. |
| Lexing.Lexer.GetNextToken | LOLCAT/basic.py:62-103 | The token or error returned and the new cursor are those of `Scan` at the old cursor. |
| Parsing.EatToken | LOLCAT/basic.py:144-148 | Eating succeeds exactly when the current token has the expected type and fetching the next token succeeds. It then advances by exactly one token. A wrong type fails naming the expected and the actual type. |
| Parsing.ParseFactor | LOLCAT/basic.py:150-162 | A factor never moves back and never reads past EOF. On a token other than INTEGER, VARIABLE or `(`, it returns no node and consumes nothing. Its tree is built from numbers, names and `+`/`-` nodes only. |
| Parsing.ParseTerm | LOLCAT/basic.py:164-176 | A term never moves back and never reads past EOF. On a token that starts neither a factor nor the loop, it returns no node and consumes nothing. Its tree is built from numbers, names and `+`/`-` nodes only. |
| Parsing.ParseTermLoop | LOLCAT/basic.py:167-176 | The loop of `term` stops on the first current token that is not `+` or `-`, without reading past EOF, and adds only `+`/`-` nodes. |
| Parsing.ParseExpr | LOLCAT/basic.py:178-179 | An expression never moves back and never reads past EOF. It builds no declaration and no conditional. |
| Parsing.ParseStream | LOLCAT/basic.py:137-182 | Building the parser and parsing fails with the lexer's error when the first token cannot be fetched. It yields no tree when the text starts with no expression, and otherwise only trees of numbers, names and `+`/`-` nodes. |
| Parsing.TermLoopExtendsLeft | LOLCAT/basic.py:167-174 | The loop only ever wraps the tree built so far as a left child: that tree sits at the bottom of the left spine of the result, under `+`/`-` nodes only. |
| Parsing.FoldLeftFirst | LOLCAT/basic.py:167-174 | Grouping to the left with the last operator at the root is the same as combining the first two operands first and then grouping the rest. |
| Parsing.TermLoopFolds | LOLCAT/basic.py:167-176 | For any number of `+`/`-` operators each followed by a factor, the loop yields the left fold of the operands and stops where the run ends. |
| Parsing.TermLoopChain | LOLCAT/basic.py:167-176 | Conversely, every successful run of the loop reads such a run of operators and factors and yields their left fold. |
| Parsing.TermAssociatesLeft | LOLCAT/basic.py:164-176 | With three factors joined by `+`/`-`, the first two are combined first. |
| Parsing.ParseAddThenSub | LOLCAT/basic.py:164-182 | `a + b - c` parses as `(a + b) - c`. |
| Parsing.ParenthesesAddNoNode | LOLCAT/basic.py:158-162 | A parenthesised factor is the inner expression's node itself, and it ends one token after the inner expression. |
| Parsing.FactorLooksNoFurther | LOLCAT/basic.py:150-162 | What `factor` yields depends only on the tokens up to where it stops. |
| Parsing.TermLoopLooksNoFurther | LOLCAT/basic.py:167-176 | What the loop of `term` yields depends only on the tokens up to where it stops. |
| Parsing.ExprLooksNoFurther | LOLCAT/basic.py:178-179 | What `expr` yields depends only on the tokens up to where it stops, so trailing tokens never matter. |
| Parsing.TrailingTokenIgnored | LOLCAT/basic.py:181-182 | `parse` does not check for EOF: the stream `1 2` parses as the number 1. |
| Parsing.ParseTermAsWritten | LOLCAT/basic.py:164-167 | As written, `term` always fails. |
| Parsing.ParseFactorAsWritten | LOLCAT/basic.py:150-162 | As written, a parenthesised factor always fails, because its inner `expr` is `term`. Where the as-written factor succeeds, it agrees with the repaired one. |
| Parsing.ParseOneAsWritten | LOLCAT/basic.py:167 | As written, even the one-token stream `1` fails on the missing `SUB`. The repaired parser yields the number 1. |
| Parsing.Parser.constructor | LOLCAT/basic.py:137-139 | A parser starts at position 0 with the first token of the stream as its current token. |
| Parsing.Parser.Create | LOLCAT/basic.py:137-139 | Building a parser succeeds exactly when fetching the first token does. Otherwise it fails with the lexer's error. |
| Parsing.Parser.Eat | LOLCAT/basic.py:144-148 | Moves as `EatToken` does. On failure the position and the current token are unchanged. |
| Parsing.Parser.Factor | LOLCAT/basic.py:150-162 | Returns the node and leaves the parser at the position that `ParseFactor` gives. |
| Parsing.Parser.Term | LOLCAT/basic.py:164-176 | Returns the node and leaves the parser at the position that `ParseTerm` gives. |
| Parsing.Parser.Expr | LOLCAT/basic.py:178-179 | Returns the node and leaves the parser at the position that `ParseExpr` gives. |
| Parsing.Parser.Parse | LOLCAT/basic.py:181-182 | Returns the node and leaves the parser at the position that `ParseExpr` gives. |
| Interpreting.Truthy | LOLCAT/basic.py:210 | The condition `if condition:` holds for every value but `None` and 0. |
| Interpreting.Arith | LOLCAT/basic.py:200-202 | `+` and `-` succeed exactly on two integers and then give an integer. Any other operands fail as unsupported. |
| Interpreting.ArithInverse | LOLCAT/basic.py:200-202 | Subtracting an integer and then adding it back gives the first operand again, and the other way round. |
| Interpreting.Eval | LOLCAT/basic.py:188-225 | Evaluation never removes a name from the symbol table, and every binding it adds or changes is a declaration. |
| Interpreting.Lookup | LOLCAT/basic.py:191-196 | A name reads successfully exactly when it is bound to something other than `None`, and yields that binding. Otherwise it fails naming the variable. |
| Interpreting.EvalWithoutDeclarationKeepsTable | LOLCAT/basic.py:204-206 | Only function declarations write the symbol table: a tree without one leaves it unchanged. |
| Interpreting.EvalKeepsDeclarations | LOLCAT/basic.py:204-206 | A table holding only declarations keeps holding only declarations after any evaluation. |
| Interpreting.NamesNeverAdd | LOLCAT/basic.py:198-202 | When only declarations are bound, adding or subtracting two names always fails. |
| Interpreting.ArithmeticEvalIff | LOLCAT/basic.py:188-202 | A tree of numbers, names and `+`/`-` evaluates to an integer exactly when every name in it is bound to an integer. Unless it is a lone name, any success is an integer. |
| Interpreting.EvalBinOp | LOLCAT/basic.py:198-202 | An operation node adds or subtracts the integer values of its left and right children. The right child is evaluated against the table the left one leaves, and the node leaves the table the right one leaves. |
| Interpreting.EvalBinOpPlain | LOLCAT/basic.py:198-202 | When the left child holds no declaration, both children are evaluated against the same table. |
| Interpreting.DeclarationBindsName | LOLCAT/basic.py:204-206 | A declaration returns `None` and binds its name to that very node. Every other name is unchanged, and redeclaring the name replaces the binding. |
| Interpreting.IfSelectsBranch | LOLCAT/basic.py:208-213 | A conditional evaluates its first branch on a truthy condition and its second otherwise, against the table the condition leaves. A missing second branch yields `None`, not an error. |
| Interpreting.IfSelectsBranchPlain | LOLCAT/basic.py:208-213 | When the condition holds no declaration, the chosen branch sees the table the conditional started from. |
| Interpreting.ExampleArithmetic | LOLCAT/basic.py:198-202 | `(a + b) - c` with a = 5, b = 3 and c = 2 evaluates to 6. |
| Interpreting.ExampleUnbound | LOLCAT/basic.py:191-196 | `x + y` with `y` unbound fails naming `y`. |
| Interpreting.EvalAsWritten | LOLCAT/basic.py:198-213 | As written, every operation node and every conditional fails. Where the as-written interpreter succeeds, it agrees with the repaired one. |
| Interpreting.EvalExpressionFresh | LOLCAT/basic.py:185-202 | A fresh interpreter evaluating a tree the parser can build keeps its table empty. A successful run reads no name, and yields an integer unless there is no tree at all. |
| Interpreting.OnePlusTwo | LOLCAT/basic.py:198-200 | As written, `1 + 2` fails on the missing `visit`. With `visit` as the dispatcher it yields 3. |
| Interpreting.Interpreter.constructor | LOLCAT/basic.py:185-186 | A new interpreter has an empty symbol table. |
| Interpreting.Interpreter.VisitNum | LOLCAT/basic.py:188-189 | A number evaluates to its value, and the table is unchanged. |
| Interpreting.Interpreter.VisitVar | LOLCAT/basic.py:191-196 | A name evaluates as `Eval` says, which is `Lookup`, and the table is unchanged. |
| Interpreting.Interpreter.VisitBinOp | LOLCAT/basic.py:198-202 | The result and the new table are those of `Eval` on the operation node. |
| Interpreting.Interpreter.VisitFunction | LOLCAT/basic.py:204-206 | Returns `None`, and the table gains exactly the binding of the name to the node. |
| Interpreting.Interpreter.VisitIf | LOLCAT/basic.py:208-213 | The result and the new table are those of `Eval` on the conditional. |
| Interpreting.Interpreter.Interpret | LOLCAT/basic.py:215-225 | For any tree, or none, the result and the new table are those of `Eval`. |
| Pipeline.Run | LOLCAT/basic.py:249-254 | Lexing, parsing and interpreting with a fresh interpreter fails with the parse error when parsing fails. A successful run yields an integer, or `None` when the parser yields no tree: the first token starts no factor, or the text is an empty group such as `()`. |
| Pipeline.RunDecimal | LOLCAT/basic.py:48-53 | Running the decimal spelling of any n yields the integer n. |
| Pipeline.RunWord | LOLCAT/basic.py:191-196 | Running any word of letters and underscores fails as an unbound name. |
| Pipeline.RunHai | LOLCAT/basic.py:71-72 | `HAI` is the name `HAI`, and running it fails as an unbound name. |
| Pipeline.RunOnePlusTwo | LOLCAT/basic.py:101 | Running `1 + 2` fails on `+` at position 2, when the parser pulls the token after `1`. |
| Pipeline.LexCommentTail | LOLCAT/basic.py:90-93 | A space and a comment after `(7)` end the token stream without error. |
| Pipeline.RunParenthesisedWithComment | LOLCAT/basic.py:158-162 | `(7) # seven` runs to 7. |
| Pipeline.RunEmptyGroup | LOLCAT/basic.py:158-162 | `()` parses to no tree, because the inner expression starts at `)`, and so runs to `None`. |
| Pipeline.RunBadLookahead | LOLCAT/basic.py:144-148 | `5 ?` fails on `?` at position 2: after eating `5`, the parser fetches the next token. |
| Pipeline.RunIgnoresBadTail | LOLCAT/basic.py:144-148 | `5 6 ?` runs to 5: the lexer is pulled only up to the lookahead token `6`, so the invalid `?` is never reached. |

## Findings

| source | as written | input that shows it | evidently intended | confidence | as-written member | corrected member |
|---|---|---|---|---|---|---|
| LOLCAT/basic.py:167 | `term` tests the current token against `LOLCATTokenType.SUB`, which the enum at lines 4-21 does not define, so every call of `term` raises once its first factor is parsed | the one-token stream `1` | a SUB token type, so that the loop folds `+` and `-` to the left | not executed | Parsing.ParseOneAsWritten | Parsing.TermLoopFolds |
| LOLCAT/basic.py:200 | `visit_BinOpNode` and `visit_IfNode` call `self.visit`, which the class does not define, so every operation node and every conditional raises | the tree of `1 + 2` | `visit` is the `interpret` dispatcher | not executed | Interpreting.OnePlusTwo | Interpreting.EvalBinOp |

## Left out

- The demo program text, its printing and its `input()` prompt under `if __name__ == '__main__'` (lines 227-248 and 255-258) are left out. They are console I/O. The pipeline it runs (lines 249-254) is `Pipeline.Run`.
- `LOLCATToken.__str__` (lines 28-29) and the text of the exception messages are left out. Errors are values of the datatype `Error`.
- Python's Unicode character classes are left out. `isspace`, `isdigit` and `isalpha` are taken on ASCII, so a non-ASCII letter, digit or space is an invalid character in this model.
- Integers are unbounded, as Python's are, so there is no wrap-around to model.
- Function calls are left out: the program has none. No production of the parser builds declarations or conditionals, so those nodes are evaluated only when given directly.
- Parsing.ParseFactor: the parser is modelled over well-formed token streams only, where INTEGER tokens carry an integer and VARIABLE tokens a text. The lexer is proved to produce only such tokens (`Lexing.Lex`).
- Parsing.Parser.Create: the source's constructor fetches the first token and can raise. Here that step is the static method `Create`, and the constructor takes the token already fetched.
- Interpreting.Interpreter.VisitBinOp: `+` and `-` on anything other than two integers fail with one error, `UnsupportedOperands`. Python's different `TypeError` messages are not distinguished.
