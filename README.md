# Convo in Dafny

This project models the interpreter pipeline of Convo, a small English-like
scripting language written in Python. It also models the helpers that sit
beside the pipeline.

The pipeline has four stages:

- **Tokenizer** (`convo/lexer.py`). It scans the text one character at a
  time. It keeps an indentation stack and synthesises INDENT/DEDENT tokens
  from it. It lower-cases words before the keyword lookup, reads quoted
  strings with escapes, and reads whole or dotted numerals.
- **Parser** (`convo/parser.py`). It is a recursive-descent parser over a
  token cursor. It handles six statement forms (Say, Let, Define, Call, If,
  While) and a six-level expression grammar.
- **Syntax tree** (`convo/ast_nodes.py`). It is a closed family of node
  classes.
- **Interpreter** (`convo/interpreter.py`). It walks the tree over a chain
  of parent-linked environments. Function values carry a copy of the frame
  they were defined in.

The helpers are:

- the collection and string builtins (`convo/builtins.py`);
- the event and command registries of the Discord module;
- the Discord configuration validator and error classifier;
- the message-condition matcher of the Discord bot.

## How the model is laid out

Each imperative source component is modelled twice:

- a **class** with the source's own fields and methods;
- a **functional specification** of the same steps.

Every method of the class ensures that its new state and result equal what
the specification function computes from the old state. The properties the
source promises are then proved as lemmas about the specification functions.

| source | class | specification | lemmas |
|---|---|---|---|
| `lexer.py` | `LexerClass.Lexer` | `Scanner` | `ScannerFacts`, `ReaderFacts` |
| `parser.py` | `ParserClass.Parser` | `Grammar` | `GrammarFacts` |
| `interpreter.py` | `InterpreterClass.Environment`, `InterpreterClass.Interpreter` | `Values`, `Semantics` | `ValuesFacts`, `SemanticsFacts` |

The other modules are these:

- `Ast` holds the syntax tree as datatypes.
- `BuiltinFunctions` and `BuiltinFacts` model the builtins. `append` and
  `remove` work on a `PyList` object that they change in place.
- `DiscordEvents` and `DiscordCommands` model the registries as classes.
  `Handlers` keeps their dictionaries' key order.
- `DiscordErrors` models the validator and the error handling.
- `DiscordBot` and `DiscordBotFacts` model the bot module.

Several modelling choices run through the interpreter:

- **Floats.** The interpreter's values are null, booleans, integers, strings
  and function objects, plus a float that carries no payload. Any result
  that depends on a float's value is an `Unmodelled` failure.
- **Identity.** Python compares function objects by identity. The model
  gives each function object a serial number instead.
- **Failures.**
  - A `ConvoRuntimeError` is a `RuntimeError` failure, and `interpret`
    captures it as one output line.
  - A Python exception that escapes is a `HostFault`. An example is the
    `TypeError` of `"a" - "b"`.
- **Fuel.** Each loop round and each function call costs one unit of fuel,
  so every run terminates. Running out is the `OutOfFuel` failure.

Where the language description and the code disagree, the model follows the
code:

- `#` is not a comment; it becomes an UNKNOWN token.
- There is no `%` operator and no Return statement.
- `and` and `or` do not short-circuit.
- Calls are statements only.
- Every function call yields null.
- The builtins module is never consulted by the interpreter.

The tokenizer's NEWLINE accounting counts line feeds with
`ScannerFacts.OutsideFeeds`: the line feeds that lie outside string literals.
A line feed inside a literal belongs to the string, and an unclosed literal
hides the rest of the text.

## Model

| member | source | states |
|---|---|---|
| Text.Lower | convo/lexer.py:220 | the lower-cased string has the same length, and each character is the ASCII lower-case of the original |
| Text.LowerIdempotent | convo/lexer.py:220 | lower-casing twice is lower-casing once |
| Text.TrimStart | convo/builtins.py:121-123 | the result is a suffix of the input; what was dropped is all white space, and the result does not start with white space |
| Text.TrimEnd | convo/builtins.py:121-123 | the result is a prefix of the input; what was dropped is all white space, and the result does not end with white space |
| Text.FindFrom | convo/modules/discord_bot.py:115 | finds the first occurrence at or after `from`, or reports that there is none |
| Text.NatToStringRoundTrip | convo/interpreter.py:267-278 | the decimal text of n reads back as n |
| Scanner.Advance | convo/lexer.py:79-89 | moves one character forward and counts a line feed as a new line; at the end of the text nothing changes; the tokens and the stack are untouched |
| Scanner.SkipWhitespace | convo/lexer.py:91-93 | only moves forward on the same line, and keeps tokens and stack |
| Scanner.ReadString | convo/lexer.py:95-121 | a string read consumes at least its two quotes and keeps tokens and stack |
| Scanner.ReadNumeral | convo/lexer.py:123-134 | the text read is a numeral with at most one dot, and the flag says whether it has the dot |
| Scanner.ReadNumber | convo/lexer.py:123-134 | reading a number moves forward on the same line and keeps tokens and stack |
| Scanner.ReadWord | convo/lexer.py:136-140 | reading a word moves forward on the same line and keeps tokens and stack |
| Scanner.PopDeeper | convo/lexer.py:157-160 | popping keeps the position and never grows the stack |
| Scanner.HandleIndentation | convo/lexer.py:142-163 | a successful indentation step moves forward and leaves a non-empty stack |
| Scanner.WordType | convo/lexer.py:166-186 | a keyword lookup never yields NEWLINE, INDENT, DEDENT or EOF |
| Scanner.ScanToken | convo/lexer.py:190-244 | each round of the tokenize loop consumes at least one character and keeps the indentation stack |
| Scanner.TokenizeFrom | convo/lexer.py:188-244 | the loop stops only at the end of the text, with a non-empty stack |
| Scanner.FinalDedents | convo/lexer.py:246-249 | the final dedents pop the stack down to its bottom level |
| Scanner.Run | convo/lexer.py:165-252 | a successful tokenization ends with an EOF token |
| Scanner.Tokenize | convo/lexer.py:165-252 | a successful tokenize gives a non-empty token list ending in EOF |
| ScannerFacts.PopDeeperStack | convo/lexer.py:157-160 | popping leaves a prefix of the stack whose top is at most the new width; every popped level was deeper than that width; the bottom level stays |
| ScannerFacts.PopDeeperDedents | convo/lexer.py:157-160 | one DEDENT is added for each level popped |
| ScannerFacts.PopDeeperOthers | convo/lexer.py:157-160 | popping adds no token other than DEDENT |
| ScannerFacts.PopDeeperShape | convo/lexer.py:152-160 | popping keeps the stack strictly increasing from 0 and the INDENT/DEDENT balance tied to the stack height |
| ScannerFacts.PushShape | convo/lexer.py:154-156 | pushing a deeper width with an INDENT keeps the same invariant |
| ScannerFacts.HandleIndentationShape | convo/lexer.py:142-163 | the indentation step preserves the invariant |
| ScannerFacts.HandleIndentationNewlines | convo/lexer.py:142-163 | the indentation step adds no NEWLINE and does not change the line |
| ScannerFacts.PopDeeperFinds | convo/lexer.py:157-163 | after popping, the top equals the width iff the width was a level on the stack |
| ScannerFacts.HandleIndentationFails | convo/lexer.py:142-163 | the step fails iff the width is below the top and is not a stack level, and the failure is the SyntaxError whose message ends in "Invalid indentation"; on success the top is the width, and a deeper width is pushed |
| ScannerFacts.ScanTokenShape | convo/lexer.py:190-244 | a loop round preserves the invariant |
| ScannerFacts.ScanTokenNewlines | convo/lexer.py:190-244 | for every text, a loop round keeps the NEWLINE tokens emitted plus the line feeds still ahead outside string literals: a line-feed round emits one NEWLINE, a string round passes a whole literal, the other rounds pass no line feed |
| ScannerFacts.TokenizeFromShape | convo/lexer.py:188-244 | the whole loop preserves the invariant |
| ScannerFacts.TokenizeFromNewlines | convo/lexer.py:188-244 | for every text, the loop emits one NEWLINE per line feed it passes outside string literals |
| ScannerFacts.FinalDedentsShape | convo/lexer.py:246-249 | after the final dedents, INDENT and DEDENT counts are equal |
| ScannerFacts.FinalDedentsNewlines | convo/lexer.py:246-249 | the final dedents add no NEWLINE |
| ScannerFacts.StartWf | convo/lexer.py:62-68 | the initial fields (stack [0], no tokens) satisfy the invariant |
| ScannerFacts.RunTokens | convo/lexer.py:246-252 | tokenize's result is the loop's tokens, then the final dedents, then one EOF at the last position |
| ScannerFacts.FinishBalanced | convo/lexer.py:246-252 | the finished token list has exactly one EOF and equal INDENT and DEDENT counts |
| ScannerFacts.RunBalanced | convo/lexer.py:165-252 | from any state satisfying the invariant, a successful run has exactly one EOF and balanced INDENT/DEDENT |
| ScannerFacts.TokenizeBalanced | convo/lexer.py:165-252 | every successful tokenize has exactly one EOF and as many INDENT as DEDENT tokens |
| ScannerFacts.RunNewlines | convo/lexer.py:165-252 | for every text, a successful run adds one NEWLINE per line feed still ahead outside string literals, and the final dedents and EOF add none |
| ScannerFacts.TokenizeNewlines | convo/lexer.py:165-252 | for every text, the NEWLINE tokens of a successful tokenize are exactly the line feeds outside string literals |
| ScannerFacts.TokenizeNewlinesQuoteFree | convo/lexer.py:199-203 | in text without quotes, the NEWLINE tokens are exactly the line feeds |
| ScannerFacts.PlainFeeds | convo/lexer.py:190-244 | characters with no quote and no line feed pass no line feed outside a literal |
| ScannerFacts.QuoteFreeFeeds | convo/lexer.py:95-121 | without quotes, every line feed lies outside a literal |
| ScannerFacts.FeedInLiteral | convo/lexer.py:95-121 | a line feed inside a literal is not counted: the text `"`, line feed, `"` has one line feed and none outside literals |
| ScannerFacts.StrayCharacter | convo/lexer.py:242-244 | an unrecognised character becomes an UNKNOWN token followed by EOF, not an error |
| ReaderFacts.MeasureIndentWidth | convo/lexer.py:143-150 | the indent width is the sum of 1 per space and 4 per tab over the leading blanks, and measuring stops at the first non-blank |
| ReaderFacts.ReadStringFromEscaped | convo/lexer.py:95-121 | reading an escaped body followed by the closing quote yields the unescaped text and stops just after that quote |
| ReaderFacts.ReadStringRoundTrip | convo/lexer.py:95-121 | reading back a string quoted with escapes for `\n`, `\t`, `\\` and the quote returns the original string |
| ReaderFacts.LiteralEnd | convo/lexer.py:95-121 | where a string body ends: just after its closing quote (a backslash skips the next character), at the end of the text, or right after a final backslash |
| ReaderFacts.ReadStringFromEnd | convo/lexer.py:95-121 | for every body, including bodies with backslashes, reading succeeds iff the body is closed, and stops just after its closing quote |
| ReaderFacts.ReadStringFromUnterminated | convo/lexer.py:97-121 | for every body: one that runs out before a closing quote raises the SyntaxError whose message ends in "Unterminated string"; one that ends in a backslash raises a host TypeError (`value += None`) |
| ReaderFacts.ReadStringUnterminated | convo/lexer.py:95-121 | a string token succeeds iff its body is closed; an unclosed one raises "Unterminated string", and a trailing backslash raises a host TypeError |
| ReaderFacts.PlainBodyRunsOut | convo/lexer.py:97-118 | a body with neither the quote nor a backslash runs out |
| ReaderFacts.UnescapeOther | convo/lexer.py:101-113 | an escaped character other than `n` and `t` is kept as it is |
| ReaderFacts.ReadNumeralSpan | convo/lexer.py:123-134 | the numeral read is exactly the characters passed over |
| ReaderFacts.ReadNumeralStops | convo/lexer.py:123-134 | reading stops at the end, at a character that is neither digit nor dot, or at a second dot |
| ReaderFacts.ReadNumberValue | convo/lexer.py:123-134 | a numeral with a dot is a dotted number with one dot; otherwise it is all digits and its integer value; a second dot is not absorbed |
| ReaderFacts.KeywordSpellings | convo/lexer.py:182-184 | `is` is EQUALS and `than` is an IDENTIFIER |
| ReaderFacts.ReadWordUpToCase | convo/lexer.py:136-140 | texts that agree up to letter case read words at the same span, with words that agree up to case |
| ReaderFacts.ReadWordSpan | convo/lexer.py:136-140 | a word is exactly the word characters passed, and reading stops at the end of the text or at a non-word character |
| ReaderFacts.LineFeedsUpToCase | convo/lexer.py:79-89 | texts that agree up to letter case have the same line feeds |
| ReaderFacts.ScanWordIgnoresCase | convo/lexer.py:219-223 | at a word, texts that agree up to letter case give the same token and state: keywords are recognised in any case |
| ReaderFacts.ScanWordToken | convo/lexer.py:219-223 | a word yields one token whose type and value come from the lower-cased word, which holds no upper-case letter |
| ReaderFacts.SayAnyCase | convo/lexer.py:166-186 | `Say` and `SAY` agree with `say` up to case, and `SAY` is the SAY keyword |
| LexerClass.Lexer.constructor | convo/lexer.py:62-68 | the fields start at position 0, line 1, column 1, no tokens and stack [0] |
| LexerClass.Lexer.Peek | convo/lexer.py:73-77 | returns the character at the offset, or None past the end |
| LexerClass.Lexer.Advance | convo/lexer.py:79-89 | returns the current character and updates the fields as Scanner.Advance |
| LexerClass.Lexer.SkipWhitespace | convo/lexer.py:91-93 | updates the fields as Scanner.SkipWhitespace |
| LexerClass.Lexer.ReadString | convo/lexer.py:95-121 | returns the value and new fields of Scanner.ReadString, or its error |
| LexerClass.Lexer.ReadNumber | convo/lexer.py:123-134 | returns the value and new fields of Scanner.ReadNumber |
| LexerClass.Lexer.ReadIdentifier | convo/lexer.py:136-140 | returns the word and new fields of Scanner.ReadWord |
| LexerClass.Lexer.HandleIndentation | convo/lexer.py:142-163 | updates the fields as Scanner.HandleIndentation, or raises its error |
| LexerClass.Lexer.ScanToken | convo/lexer.py:190-244 | one loop round, as Scanner.ScanToken |
| LexerClass.Lexer.Tokenize | convo/lexer.py:165-252 | returns Scanner.Run of the initial fields, and `tokens` holds the result |
| Grammar.Begin | convo/parser.py:11-14 | the initial cursor is valid |
| Grammar.Advance | convo/parser.py:22-28 | advancing keeps the cursor valid and moves it forward while a token is current; the index never passes the last token |
| Grammar.Consume | convo/parser.py:43-52 | succeeds iff the current token has the expected type, returns that token and moves forward |
| Grammar.SkipNewlines | convo/parser.py:54-57 | stops at the first token that is not a NEWLINE |
| Grammar.Expression | convo/parser.py:213-215 | a parsed expression consumes at least one token |
| Grammar.Binary | convo/parser.py:217-290 | each binary level consumes at least one token |
| Grammar.BinaryRest | convo/parser.py:217-290 | the operator loop of a level only moves forward |
| Grammar.Unary | convo/parser.py:292-300 | a unary expression consumes at least one token |
| Grammar.Primary | convo/parser.py:302-320 | a primary consumes at least one token |
| Grammar.Statement | convo/parser.py:72-90 | a parsed statement started with SAY, LET, DEFINE, CALL, IF, WHILE or NEWLINE, and is empty exactly for NEWLINE; any other leading token gives "Line L, Column C: Unexpected token: …" |
| Grammar.Say | convo/parser.py:92-96 | a Say statement consumes input |
| Grammar.Let | convo/parser.py:98-104 | a Let statement consumes input |
| Grammar.ParameterClause | convo/parser.py:111-122 | without WITH the parameter list is empty and nothing is consumed |
| Grammar.Parameters | convo/parser.py:111-122 | the parameter list only moves forward |
| Grammar.MoreParameters | convo/parser.py:119-122 | the comma loop only moves forward |
| Grammar.Define | convo/parser.py:106-133 | a definition consumes input |
| Grammar.MoreArguments | convo/parser.py:146-148 | the argument loop only moves forward |
| Grammar.Call | convo/parser.py:135-151 | a call statement consumes input |
| Grammar.If | convo/parser.py:153-179 | an If statement consumes input |
| Grammar.While | convo/parser.py:181-195 | a While statement consumes input |
| Grammar.Block | convo/parser.py:197-211 | a block consumes input |
| Grammar.BlockItems | convo/parser.py:202-209 | the block loop stops at DEDENT, EOF or the end of the tokens |
| Grammar.ProgramItems | convo/parser.py:63-70 | the statement loop keeps what was collected and stops at EOF or at the end of the tokens |
| Grammar.Parse | convo/parser.py:59-70 | an empty token list or one starting with EOF parses as the empty program |
| GrammarFacts.Lift | convo/parser.py:217-290 | an operand not followed by its level's operator is the whole level |
| GrammarFacts.LiftTo | convo/parser.py:213-290 | an expression with no binary operator after it parses the same at every level |
| GrammarFacts.UnaryIsBinary | convo/parser.py:280-290 | a unary expression not followed by `*` or `/` is the multiplicative level |
| GrammarFacts.ParenthesesLeaveNoNode | convo/parser.py:314-318 | parentheses yield the inner expression with no wrapper node |
| GrammarFacts.OneOperator | convo/parser.py:217-290 | `x op y` at a level builds one BinaryOp with the operator's lexeme |
| GrammarFacts.LeftAssociative | convo/parser.py:217-290 | `x op y op z` groups as `(x op y) op z` |
| GrammarFacts.ThanDropped | convo/parser.py:253-266 | the `than` after `greater`/`less` is consumed and dropped, and the operator is `greater`/`less` |
| GrammarFacts.MultiplicationBindsTighter | convo/parser.py:268-290 | `x + y * z` groups as `x + (y * z)` |
| GrammarFacts.ProductIsLeftOperand | convo/parser.py:268-290 | `x * y + z` groups as `(x * y) + z` |
| GrammarFacts.PrefixesNest | convo/parser.py:292-300 | a run of `not`/`-`/`+` nests right-recursively over the primary |
| GrammarFacts.NumberOperand | convo/parser.py:302-306 | a NUMBER token is a literal of its value |
| GrammarFacts.SumOfProductGroups | convo/parser.py:268-290 | the tokens of `5 + 3 * 2` parse as `5 + (3 * 2)` |
| GrammarFacts.SkipNewlinesTo | convo/parser.py:54-57 | skipping newlines lands on the first other token |
| GrammarFacts.NewlinesOnly | convo/parser.py:59-70 | a program of blank lines has no statements |
| GrammarFacts.ProgramItemsKeepsPrefix | convo/parser.py:59-70 | the statements already collected stay in front, in order |
| GrammarFacts.StatementThenRest | convo/parser.py:59-70 | the program is the first statement (none for a blank line) followed by the rest |
| GrammarFacts.ParametersInOrder | convo/parser.py:111-122 | `with a, b, …` yields the identifiers in source order |
| GrammarFacts.DefineBuilds | convo/parser.py:106-133 | a definition with its header and indented body builds FunctionDefinition(name, parameters, body) |
| GrammarFacts.DefineNeedsBody | convo/parser.py:128-131 | without an indented body, Define fails with "Expected indented block after function definition" |
| GrammarFacts.IfWithoutElse | convo/parser.py:153-179 | without ELSE the else-block is empty |
| GrammarFacts.IfWithElse | convo/parser.py:168-177 | with ELSE both blocks are kept |
| GrammarFacts.IfNeedsThenBlock | convo/parser.py:162-165 | without an indented then-block, If fails with "Expected indented block after 'then:'" |
| ParserClass.Parser.constructor | convo/parser.py:11-14 | the cursor starts at the first token |
| ParserClass.Parser.Advance | convo/parser.py:22-28 | moves the cursor as Grammar.Advance |
| ParserClass.Parser.Peek | convo/parser.py:30-35 | returns the token at the offset iff it exists |
| ParserClass.Parser.Matches | convo/parser.py:37-41 | true iff the current token has one of the types |
| ParserClass.Parser.Consume | convo/parser.py:43-52 | behaves as Grammar.Consume |
| ParserClass.Parser.SkipNewlines | convo/parser.py:54-57 | behaves as Grammar.SkipNewlines |
| ParserClass.Parser.Parse | convo/parser.py:59-70 | returns the program the grammar gives from the current cursor |
| ParserClass.Parser.ParseStatement | convo/parser.py:72-90 | behaves as Grammar.Statement |
| ParserClass.Parser.ParseSay | convo/parser.py:92-96 | behaves as Grammar.Say |
| ParserClass.Parser.ParseLet | convo/parser.py:98-104 | behaves as Grammar.Let |
| ParserClass.Parser.ParseParameters | convo/parser.py:111-122 | behaves as Grammar.ParameterClause |
| ParserClass.Parser.ParseDefine | convo/parser.py:106-133 | behaves as Grammar.Define |
| ParserClass.Parser.ParseCall | convo/parser.py:135-151 | behaves as Grammar.Call |
| ParserClass.Parser.ParseIf | convo/parser.py:153-179 | behaves as Grammar.If |
| ParserClass.Parser.ParseWhile | convo/parser.py:181-195 | behaves as Grammar.While |
| ParserClass.Parser.ParseBlock | convo/parser.py:197-211 | behaves as Grammar.Block |
| ParserClass.Parser.ParseExpression | convo/parser.py:213-215 | behaves as Grammar.Expression |
| ParserClass.Parser.ParseBinary | convo/parser.py:217-290 | each of the six level methods behaves as Grammar.Binary at its level |
| ParserClass.Parser.ParseUnary | convo/parser.py:292-300 | behaves as Grammar.Unary |
| ParserClass.Parser.ParsePrimary | convo/parser.py:302-320 | behaves as Grammar.Primary |
| Ast.BooleanLiteral | convo/ast_nodes.py:50-56 | a BooleanLiteral is a Literal carrying its bool |
| Ast.NumberLiteral | convo/ast_nodes.py:58-64 | a NumberLiteral is a Literal carrying its number |
| Ast.StringLiteral | convo/ast_nodes.py:66-72 | a StringLiteral is a Literal carrying its text |
| Ast.NullLiteral | convo/ast_nodes.py:74-80 | a NullLiteral is a Literal whose value is None |
| Ast.MakeMethodCall | convo/ast_nodes.py:131-137 | a string object name is kept and also stored as `object_expr = Identifier(name)`; an expression is stored as it is |
| Ast.MakeIndexAccess | convo/ast_nodes.py:170-177 | `object_expr` is the same node as `object` |
| Ast.MakePropertyAccess | convo/ast_nodes.py:180-187 | `object_expr` is the same node as `object` |
| Ast.MakePropertyAssignment | convo/ast_nodes.py:284-295 | a string name becomes `Identifier(name)`; an expression is kept, and `object_name` is its `str` form |
| Ast.MakeIf | convo/ast_nodes.py:356-361 | an absent else-block becomes the empty list |
| Ast.MakeFromImport | convo/ast_nodes.py:464-469 | absent aliases become the empty list |
| Ast.Repr | convo/ast_nodes.py:47-481 | a node's text is its class name followed by its arguments in parentheses |
| Ast.Location.constructor | convo/ast_nodes.py:16-19 | a node's location is (0, 0) until set |
| Ast.Location.Set | convo/ast_nodes.py:21-24 | after setting, the location reads back as the stored pair |
| Values.Repeat | convo/interpreter.py:179-180 | repeating a string n times has length n times its length, and is empty for n ≤ 0 |
| ValuesFacts.HostStrResult | convo/interpreter.py:172-176 | Python's `str()` fails exactly on floats and function objects, gives a string's own text, and a non-empty text otherwise |
| ValuesFacts.EqualResult | convo/interpreter.py:187-190 | `==` compares ints and bools by number and other values by kind and content, is reflexive on non-floats, and is unmodelled exactly for a float against a number |
| ValuesFacts.LessResult | convo/interpreter.py:191-194 | `<` succeeds exactly on two ints or bools (by number) or two strings; other pairs of numbers are unmodelled floats, anything else raises TypeError |
| ValuesFacts.TruthyFalsy | convo/interpreter.py:259-265 | a value is falsy iff it is None, False, 0 or ""; only a float is unmodelled |
| ValuesFacts.StringifyResult | convo/interpreter.py:267-278 | stringify agrees with Python's `str()` on every value except None and the booleans, which it writes in lower case, and fails exactly where `str()` does |
| ValuesFacts.AddResult | convo/interpreter.py:172-176 | `+` with a string on either side concatenates `str()` of both sides, in order; two numbers add; any other pair raises TypeError |
| ValuesFacts.SubtractResult | convo/interpreter.py:177-178 | `-` succeeds iff both operands are numbers, subtracting ints and bools; otherwise TypeError |
| ValuesFacts.MultiplyResult | convo/interpreter.py:179-180 | `*` succeeds iff both are numbers or a string meets an int; two ints give their product; a string and an int n, in either order, give the string repeated n times (`Repeat`), with n times its length and empty for n ≤ 0; otherwise TypeError |
| ValuesFacts.RepeatChars | convo/interpreter.py:179-180 | the repeated string starts with the characters of the string and repeats them with period equal to its length |
| ValuesFacts.DivideResult | convo/interpreter.py:181-184 | `/` by a right operand equal to 0 raises "Division by zero"; it succeeds iff both are numbers and the divisor is a non-zero int, with a float result |
| ValuesFacts.KnownBinaryErrors | convo/interpreter.py:172-200 | the only Convo runtime error a known operator raises is "Division by zero" from `/` |
| ValuesFacts.BinaryValueUnknown | convo/interpreter.py:166-203 | "Unknown binary operator: OP" is raised iff OP is none of the fourteen operators the evaluator knows |
| ValuesFacts.BinaryValueResult | convo/interpreter.py:187-200 | comparisons and logical operators give a bool, and `greater` on ints is numeric `>` |
| ValuesFacts.UnaryValueResult | convo/interpreter.py:205-217 | `not` gives the negated truthiness; `-` and `+` accept exactly numbers, `-` negating an int; any other operator raises "Unknown unary operator: OP" |
| Semantics.Eval | convo/interpreter.py:151-164 | evaluating an expression changes no frame, only appends output and never reuses an identity |
| Semantics.EvalBinary | convo/interpreter.py:166-203 | a binary operation changes no frame |
| Semantics.EvalUnary | convo/interpreter.py:205-217 | a unary operation changes no frame |
| Semantics.EvalArgs | convo/interpreter.py:226 | evaluating the arguments yields one value per argument |
| Semantics.Call | convo/interpreter.py:219-257 | a call leaves the caller's frames as they were and yields null when it completes |
| Semantics.Invoke | convo/interpreter.py:236-257 | running a function body leaves the caller's frames untouched and yields null |
| Semantics.Exec | convo/interpreter.py:74-91 | a statement changes at most the current frame and only appends output |
| Semantics.ExecSay | convo/interpreter.py:93-98 | Say changes at most the current frame and appends output |
| Semantics.ExecLet | convo/interpreter.py:100-103 | Let changes at most the current frame |
| Semantics.Define | convo/interpreter.py:105-113 | a definition changes at most the current frame |
| Semantics.ExecIf | convo/interpreter.py:119-128 | If changes at most the current frame |
| Semantics.ExecWhile | convo/interpreter.py:130-138 | While changes at most the current frame |
| Semantics.ExecBlock | convo/interpreter.py:140-149 | a Block leaves every frame as it was, because its own frame is discarded |
| Semantics.ExecStmts | convo/interpreter.py:64-72 | a statement list changes at most the current frame |
| Semantics.Lookup | convo/interpreter.py:30-37 | a failed lookup is exactly "Undefined variable: NAME" |
| Semantics.Assign | convo/interpreter.py:39-46 | a successful assignment keeps the number of frames; a failed one is exactly "Undefined variable: NAME" |
| Semantics.Restore | convo/interpreter.py:140-149 | restoring gives back the caller's frames and keeps the run's output, next identity, outcome kind and failure |
| Semantics.Interpret | convo/interpreter.py:64-72 | a completed run returns the output list, and a ConvoRuntimeError never escapes |
| SemanticsFacts.LookupFirst | convo/interpreter.py:30-37 | lookup returns the binding of the innermost frame that has the name |
| SemanticsFacts.LookupUnbound | convo/interpreter.py:30-37 | a name bound nowhere raises "Undefined variable: NAME" |
| SemanticsFacts.AssignFirst | convo/interpreter.py:39-46 | assignment updates only the innermost frame that has the name |
| SemanticsFacts.AssignUnbound | convo/interpreter.py:39-46 | assigning a name bound nowhere raises "Undefined variable: NAME" |
| SemanticsFacts.AssignKeepsNames | convo/interpreter.py:39-46 | assignment never adds or removes a name in any frame |
| SemanticsFacts.LookupAfterDefine | convo/interpreter.py:26-28 | after `define`, the name reads back as the new value and every other name is unchanged |
| SemanticsFacts.LetBindsLocally | convo/interpreter.py:100-103 | Let binds in the current frame, never touches the parents, and shadows outer bindings |
| SemanticsFacts.IfLetVisible | convo/interpreter.py:119-128 | a Let in a taken then-branch is visible after the If |
| SemanticsFacts.WhileKeepsBodyFrames | convo/interpreter.py:130-138 | a While runs its body in the enclosing frame, so the body's bindings stay visible after the loop |
| SemanticsFacts.BlockLetHidden | convo/interpreter.py:140-149 | a Let inside a Block is not visible after it |
| SemanticsFacts.CallNotFunction | convo/interpreter.py:223-224 | calling a non-function raises "'NAME' is not a function" |
| SemanticsFacts.CallArity | convo/interpreter.py:226-234 | a wrong argument count raises "Function 'F' expects N arguments, got M", after the arguments are evaluated |
| SemanticsFacts.BindBinds | convo/interpreter.py:240-248 | the call frame binds each parameter to its argument, with parameters shadowing closure names and the last duplicate winning |
| SemanticsFacts.CallSeesGlobals | convo/interpreter.py:237-248 | names neither captured nor parameters are found in the global frame |
| SemanticsFacts.InvokeIgnoresCallerFrames | convo/interpreter.py:237-255 | a call's outcome does not depend on the caller's frames, only on the global frame |
| SemanticsFacts.ClosureSnapshot | convo/interpreter.py:105-113 | the closure is a copy of the defining frame, so a later re-Let of a captured name is not seen by the call frame |
| SemanticsFacts.DefineFresh | convo/interpreter.py:105-113 | a definition binds a new function object with the parameters, the body and a copy of the current frame |
| SemanticsFacts.InterpretCapture | convo/interpreter.py:64-72 | interpret keeps earlier output; a ConvoRuntimeError appends exactly one "Runtime Error: MSG" line and stops; any other failure escapes |
| SemanticsFacts.StopsAtFailure | convo/interpreter.py:64-72 | a statement list stops at the first failing statement |
| SemanticsFacts.TruthyCases | convo/interpreter.py:259-265 | null, false, 0 and "" are falsy; every other non-float value is truthy |
| SemanticsFacts.ConcatVersusSay | convo/interpreter.py:172-176 | for every value whose `str()` succeeds, `+` with a string on either side concatenates that `str()` form, while Say's stringify equals it except for "null" and the lower-cased booleans |
| SemanticsFacts.ConcatVersusSayExample | convo/interpreter.py:172-176 | `"" + true` is "True" and `"n=" + null` is "n=None", while stringify gives "true" and "null" |
| SemanticsFacts.SayAppendsLine | convo/interpreter.py:93-98 | Say appends exactly one line, the stringified value, to the output left by evaluating the expression, and changes nothing else; a failure leaves that state |
| SemanticsFacts.DivisionByZero | convo/interpreter.py:181-184 | dividing by 0 or false raises "Division by zero" |
| SemanticsFacts.LogicalGivesBool | convo/interpreter.py:197-200 | `and` and `or` return the bool of the operands' truthiness |
| SemanticsFacts.NoShortCircuit | convo/interpreter.py:168-169 | the right operand of `and`/`or` is always evaluated, and its failure propagates |
| InterpreterClass.Environment.constructor | convo/interpreter.py:21-24 | a new environment has no variables, and its chain is its parent's chain behind a new empty frame |
| InterpreterClass.Environment.Define | convo/interpreter.py:26-28 | binds in this frame only |
| InterpreterClass.Environment.Get | convo/interpreter.py:30-37 | returns the lookup along the parent chain |
| InterpreterClass.Environment.Set | convo/interpreter.py:39-46 | updates the chain as the specification's assignment, or raises its error |
| InterpreterClass.Interpreter.constructor | convo/interpreter.py:49-62 | starts with the global frame holding true, false and null, and no output |
| InterpreterClass.Interpreter.Interpret | convo/interpreter.py:64-72 | returns what Semantics.Interpret gives |
| InterpreterClass.Interpreter.ExecuteStatement | convo/interpreter.py:74-83 | behaves as Semantics.Exec |
| InterpreterClass.Interpreter.ExecuteControl | convo/interpreter.py:84-91 | behaves as Semantics.Exec on If, While, Block and the classes with no case |
| InterpreterClass.Interpreter.ExecuteUnknown | convo/interpreter.py:90-91 | a statement class with no case raises a runtime error and changes nothing, as Semantics.Exec says |
| InterpreterClass.Interpreter.ExecuteSay | convo/interpreter.py:93-98 | behaves as Semantics.Exec on a Say |
| InterpreterClass.Interpreter.ExecuteLet | convo/interpreter.py:100-103 | behaves as Semantics.Exec on a Let |
| InterpreterClass.Interpreter.ExecuteFunctionDefinition | convo/interpreter.py:105-113 | succeeds and behaves as Semantics.Define, which is what Semantics.Exec does on a definition |
| InterpreterClass.Interpreter.ExecuteCall | convo/interpreter.py:115-117 | behaves as Semantics.Exec on a call statement |
| InterpreterClass.Interpreter.ExecuteIf | convo/interpreter.py:119-128 | behaves as Semantics.Exec on an If |
| InterpreterClass.Interpreter.ExecuteWhile | convo/interpreter.py:130-138 | the loop behaves as Semantics.ExecWhile |
| InterpreterClass.Interpreter.WhileRound | convo/interpreter.py:130-138 | one round either finishes the loop as ExecWhile or leaves a state from which ExecWhile with one less fuel gives the same outcome |
| InterpreterClass.Interpreter.ExecuteBlock | convo/interpreter.py:140-149 | behaves as Semantics.Exec on a Block (Semantics.ExecBlock) and restores `current_env` |
| InterpreterClass.Interpreter.RunScoped | convo/interpreter.py:140-149 | runs statements in another environment and restores the caller's, also on failure |
| InterpreterClass.Interpreter.ExecuteStatements | convo/interpreter.py:64-72 | the statement loop behaves as Semantics.ExecStmts |
| InterpreterClass.Interpreter.Evaluate | convo/interpreter.py:151-164 | behaves as Semantics.Eval |
| InterpreterClass.Interpreter.EvaluateBinary | convo/interpreter.py:166-203 | behaves as Semantics.Eval on a BinaryOp |
| InterpreterClass.Interpreter.EvaluateUnary | convo/interpreter.py:205-217 | behaves as Semantics.Eval on a UnaryOp |
| InterpreterClass.Interpreter.EvaluateCall | convo/interpreter.py:219-257 | behaves as Semantics.Call |
| InterpreterClass.Interpreter.EvaluateArguments | convo/interpreter.py:226 | behaves as Semantics.EvalArgs |
| InterpreterClass.Interpreter.Apply | convo/interpreter.py:236-257 | behaves as Semantics.Invoke and restores `current_env` even when the body fails |
| InterpreterClass.Interpreter.CallEnvironment | convo/interpreter.py:237-248 | builds a fresh environment whose parent is the global one, holding the closure and then the parameters |
| BuiltinFunctions.Length | convo/builtins.py:21-26 | fails with "Object of type T has no length" exactly for values other than strings, lists and dicts |
| BuiltinFunctions.FirstIndex | convo/builtins.py:38-45 | the index of the first element equal to the item |
| BuiltinFunctions.Append | convo/builtins.py:29-35 | appends the item to the same list in place and returns it; a non-list raises "Can only append to lists" |
| BuiltinFunctions.Remove | convo/builtins.py:38-45 | removes the first occurrence in place and returns the list; a non-list raises "Can only remove from lists" |
| BuiltinFunctions.ContainsItem | convo/builtins.py:48-50 | list membership, or dict key membership |
| BuiltinFunctions.ReplaceEmpty | convo/builtins.py:136-138 | replacing the empty string inserts the replacement at each of the n+1 positions |
| BuiltinFunctions.KeysOf | convo/builtins.py:53-58 | the keys of a dictionary's entries, one per entry, in insertion order |
| BuiltinFunctions.ValuesOf | convo/builtins.py:61-66 | the values of a dictionary's entries, one per entry, in insertion order |
| BuiltinFunctions.Keys | convo/builtins.py:53-58 | succeeds iff the argument is a dictionary, giving its keys in insertion order; otherwise "Can only get keys from dictionaries" |
| BuiltinFunctions.Values | convo/builtins.py:61-66 | succeeds iff the argument is a dictionary, giving its values in insertion order; otherwise "Can only get values from dictionaries" |
| BuiltinFunctions.Trim | convo/builtins.py:121-123 | succeeds iff `PyStr(text)` (the modelled `str()`) does; the result is no longer than the text and uses only its characters |
| BuiltinFunctions.Split | convo/builtins.py:126-128 | the separator defaults to a single space; succeeds iff `PyStr(text)` (the modelled `str()`) does and the separator is a non-empty string, with at least one piece; an empty separator raises ValueError "empty separator" |
| BuiltinFunctions.Join | convo/builtins.py:131-133 | the separator defaults to the empty string; a separator that is not a string raises AttributeError "'T' object has no attribute 'join'"; with a string separator it succeeds iff the argument is iterable and every element has a modelled `str()` (`ItemText`); a non-string scalar raises TypeError |
| BuiltinFunctions.Replace | convo/builtins.py:136-138 | succeeds iff `PyStr(text)` (the modelled `str()`) does and both arguments are strings; a non-string target raises TypeError; an empty target inserts the replacement at all n+1 positions |
| BuiltinFunctions.StartsWith | convo/builtins.py:141-143 | succeeds iff `PyStr(text)` (the modelled `str()`) does and the prefix is a string; true needs the prefix to be no longer than the text, and the empty prefix always holds |
| BuiltinFunctions.EndsWith | convo/builtins.py:146-148 | succeeds iff `PyStr(text)` (the modelled `str()`) does and the suffix is a string; true needs the suffix to be no longer than the text, and the empty suffix always holds |
| BuiltinFunctions.ToText | convo/builtins.py:211-213 | succeeds exactly for None, booleans, integers and strings (where the modelled `str()` is defined), and a string is its own text |
| BuiltinFacts.AppendedIsMember | convo/builtins.py:29-35 | the appended item is a member |
| BuiltinFacts.RemoveFirstDeletesOne | convo/builtins.py:38-45 | remove deletes exactly the first occurrence (one element shorter, same multiset less that element, same prefix), and changes nothing when absent |
| BuiltinFacts.AppendThenRemove | convo/builtins.py:29-45 | removing a freshly appended absent item restores the list |
| BuiltinFacts.RemoveKeepsLaterOccurrence | convo/builtins.py:38-45 | a second occurrence survives a removal |
| BuiltinFacts.KeysValuesAligned | convo/builtins.py:53-66 | keys and values succeed only on dicts, have equal length and pair up with the entries in insertion order |
| BuiltinFacts.SplitPiecesFree | convo/builtins.py:126-128 | no piece of a split contains the separator |
| BuiltinFacts.SplitJoinFrom | convo/builtins.py:126-133 | joining the pieces with the separator gives back the text |
| BuiltinFacts.SplitJoinRoundTrip | convo/builtins.py:126-133 | `join(split(t, s), s) == t` for every non-empty separator |
| BuiltinFacts.ReplaceIsSplitJoin | convo/builtins.py:136-138 | replace substitutes every non-overlapping occurrence from left to right, as split then join with the replacement |
| BuiltinFacts.ReplaceAbsent | convo/builtins.py:136-138 | replacing a target that does not occur changes nothing |
| BuiltinFacts.ReplaceSame | convo/builtins.py:136-138 | replacing a target by itself changes nothing |
| BuiltinFacts.StartsWithIff | convo/builtins.py:141-143 | starts_with holds iff the text is the prefix followed by something |
| BuiltinFacts.EndsWithIff | convo/builtins.py:146-148 | ends_with holds iff the text is something followed by the suffix |
| BuiltinFacts.StartsWithNeedsText | convo/builtins.py:141-143 | a non-string prefix raises TypeError |
| BuiltinFacts.TrimSpec | convo/builtins.py:121-123 | the trimmed text is the original with white space removed at both ends only |
| BuiltinFacts.StripSplits | convo/builtins.py:121-123 | the text is white space, then the stripped text, then white space |
| BuiltinFacts.TrimEdges | convo/builtins.py:121-123 | trimmed text neither starts nor ends with white space |
| BuiltinFacts.TrimIdempotent | convo/builtins.py:121-123 | trimming twice is trimming once |
| BuiltinFacts.LengthCounts | convo/builtins.py:21-26 | length counts characters, list elements and dict entries |
| BuiltinFacts.ContainsOnText | convo/builtins.py:48-50 | on a string, contains needs a string item and is substring membership |
| BuiltinFacts.JoinStrings | convo/builtins.py:131-133 | joining a list of strings puts the separator between them |
| BuiltinFacts.ToTextInt | convo/builtins.py:211-213 | the text of an integer is its decimal digits, with a leading minus when negative |
| BuiltinFacts.ToTextConstants | convo/builtins.py:211-213 | None, True and False become "None", "True" and "False" |
| Handlers.Insert | convo/modules/discord/events.py:56-58 | the list of keys keeps insertion order: a new key goes last, an existing one keeps its place |
| DiscordEvents.EventRegistry.constructor | convo/modules/discord/events.py:30-31 | starts with no events |
| DiscordEvents.EventRegistry.AddEventHandler | convo/modules/discord/events.py:38-42 | creates the list if absent and appends the handler; the name joins the key order |
| DiscordEvents.EventRegistry.RemoveEventHandler | convo/modules/discord/events.py:44-50 | returns True iff the handler is registered for the event, then removes its first occurrence; otherwise changes nothing |
| DiscordEvents.EventRegistry.GetHandlers | convo/modules/discord/events.py:52-54 | an unknown event has no handlers |
| DiscordEvents.EventRegistry.ListEvents | convo/modules/discord/events.py:56-58 | lists each registered event name once |
| DiscordEvents.EventRegistry.ClearEventHandlers | convo/modules/discord/events.py:60-63 | empties the event's list and keeps the name |
| DiscordEvents.EventRegistry.ClearAll | convo/modules/discord/events.py:65-67 | afterwards there are no events |
| DiscordEvents.RemoveFirstSpec | convo/modules/discord/events.py:44-50 | removal deletes exactly one copy of the handler, the first one |
| DiscordEvents.AddAppends | convo/modules/discord/events.py:38-42 | the event's list grows by the handler at the end; duplicates are kept |
| DiscordEvents.OtherEventsUntouched | convo/modules/discord/events.py:38-63 | add, remove and clear leave every other event's list as it was |
| DiscordEvents.AddThenRemove | convo/modules/discord/events.py:38-50 | removing a freshly added handler restores the list |
| DiscordEvents.RemoveKeepsDuplicate | convo/modules/discord/events.py:38-50 | with a duplicate, one copy stays after removal |
| DiscordEvents.ClearKeepsName | convo/modules/discord/events.py:60-63 | clearing empties the list, keeps the name, and is a no-op for unknown events |
| DiscordEvents.HandlersOf | convo/modules/discord/events.py:52-54 | a registered event's list, and the empty list for an unknown event |
| DiscordEvents.RemoveFirst | convo/modules/discord/events.py:47-48 | removing a present handler drops exactly one copy of it: one element fewer, same multiset less that handler |
| DiscordEvents.WithHandler | convo/modules/discord/events.py:38-42 | adding registers the event, appends the handler to its list and leaves every other event's list as it was |
| DiscordCommands.CommandRegistry.constructor | convo/modules/discord/commands.py:8-9 | starts with no commands |
| DiscordCommands.CommandRegistry.AddCommand | convo/modules/discord/commands.py:11-12 | binds the name to the handler, overwriting |
| DiscordCommands.CommandRegistry.GetCommand | convo/modules/discord/commands.py:14-15 | returns the handler iff the name was added, None otherwise |
| DiscordCommands.CommandRegistry.AllCommands | convo/modules/discord/commands.py:17-18 | lists exactly the distinct names added |
| DiscordCommands.ReplayKeepsOrder | convo/modules/discord/commands.py:11-18 | after any sequence of adds, the name list is in first-insertion order |
| DiscordCommands.ReplayKeys | convo/modules/discord/commands.py:11-18 | the names are the earlier names plus every name added |
| DiscordCommands.ReplayKeepsOthers | convo/modules/discord/commands.py:11-12 | adds of other names leave a name's handler unchanged |
| DiscordCommands.LastAddWins | convo/modules/discord/commands.py:11-15 | the handler of the last add of a name wins |
| DiscordCommands.Replay | convo/modules/discord/commands.py:11-12 | after a sequence of adds the last add's handler is bound to its name, and a name never added keeps its handler |
| DiscordErrors.TokenWarnings | convo/modules/discord_error_handling.py:155-158 | at most one token warning |
| DiscordErrors.IntentWarnings | convo/modules/discord_error_handling.py:161-165 | at most one intents warning |
| DiscordErrors.ValidateDiscordConfig | convo/modules/discord_error_handling.py:139-171 | `valid` iff no errors iff the token is truthy; a missing token gives exactly "Discord bot token is required"; the warnings are the token's then the intents' |
| DiscordErrors.Classify | convo/modules/discord_error_handling.py:95-133 | the code is one of the five the wrapper can choose |
| DiscordErrors.ReportFor | convo/modules/discord_error_handling.py:88-133 | an ImportError gives DISCORD_LIB_MISSING; any other exception the classified code |
| DiscordErrors.Guard | convo/modules/discord_error_handling.py:83-137 | the wrapper passes a result through and turns every `Exception` it catches into a report instead of raising |
| DiscordErrors.SafeCreateDiscordBot | convo/modules/discord_error_handling.py:300-316 | a missing token gives DISCORD_CONFIG_INVALID with the token help and no creation attempt; otherwise the first result, or the wrapped retry |
| DiscordErrors.TokenWarningCases | convo/modules/discord_error_handling.py:155-158 | short tokens get only "too short"; long tokens without "Bot " or "Bearer " get only the prefix warning; others none |
| DiscordErrors.IntentOnlyWarns | convo/modules/discord_error_handling.py:161-165 | the intents warning appears iff an intents dict has a truthy message_content |
| DiscordErrors.ClassifyFirstFamily | convo/modules/discord_error_handling.py:95-133 | the first matching family, in the order token, permission, rate limit, connection, decides the code; with none, DISCORD_UNKNOWN_ERROR |
| DiscordErrors.CodesDistinct | convo/modules/discord_error_handling.py:88-309 | the seven error codes are pairwise distinct |
| DiscordErrors.HelpIsSpecific | convo/modules/discord_error_handling.py:180-265 | the help is code-specific iff the code is one of the five known codes |
| DiscordErrors.ReportedCodesHaveHelp | convo/modules/discord_error_handling.py:88-265 | every code the wrapper reports has specific help except DISCORD_UNKNOWN_ERROR |
| DiscordErrors.UnknownKeepsMessage | convo/modules/discord_error_handling.py:127-133 | an unclassified exception's report is "Discord operation failed: " and its message |
| DiscordErrors.Explain | convo/modules/discord_error_handling.py:100-131 | a code outside the four classified families gets "Discord operation failed: " followed by the exception's text |
| DiscordErrors.ExplainIgnoresMessage | convo/modules/discord_error_handling.py:100-125 | the four classified families get a fixed message that does not depend on the exception's text |
| DiscordErrors.DiscordHelp | convo/modules/discord_error_handling.py:180-265 | the general help is returned iff there is no code or the code is not one of the five with their own help |
| DiscordBot.SpaceRun | convo/modules/discord_bot.py:115 | the longest run of white space at a position, as `\s+` matches it |
| DiscordBot.Bot.constructor | convo/modules/discord_bot.py:57-66 | a bot starts with its token and prefix (default "!") and no listeners or commands |
| DiscordBot.Bot.AddMessageListener | convo/modules/discord_bot.py:136-144 | appends one "message" listener with the condition; commands unchanged |
| DiscordBot.Bot.AddCommand | convo/modules/discord_bot.py:146-154 | appends one command; listeners unchanged |
| DiscordBot.Bot.Start | convo/modules/discord_bot.py:166-169 | fails with "Bot token is required" iff the token is empty |
| DiscordBot.DiscordModule.constructor | convo/modules/discord_bot.py:182-185 | starts with no current bot |
| DiscordBot.DiscordModule.CreateBot | convo/modules/discord_bot.py:187-190 | without the library it fails and keeps the old bot; otherwise a fresh bot with the token and prefix (default "!") becomes the current one; `create_discord_bot` (discord_bot.py:239-241) only delegates to it |
| DiscordBot.DiscordModule.ListenForMessages | convo/modules/discord_bot.py:192-197 | raises "No bot created…" iff there is no bot; otherwise adds the listener |
| DiscordBot.DiscordModule.AddCommand | convo/modules/discord_bot.py:199-204 | raises "No bot created…" iff there is no bot; otherwise adds the command |
| DiscordBot.DiscordModule.StartBot | convo/modules/discord_bot.py:206-211 | raises "No bot created…" without a bot; otherwise starts it |
| DiscordBot.ReplyWith | convo/modules/discord_bot.py:213-215 | the reply ignores its arguments and returns the text |
| DiscordBot.UserName | convo/modules/discord_bot.py:259-263 | the author's display name, or "User" when it is missing |
| DiscordBot.MessageContent | convo/modules/discord_bot.py:265-269 | the content, or "" when it is missing |
| DiscordBot.MatchAt | convo/modules/discord_bot.py:115 | a match at p starts with the keyword there and leaves room for white space and two quotes around the group |
| DiscordBot.SearchFrom | convo/modules/discord_bot.py:115 | a result comes from a match at some position from p on; no result means no position from p on matches |
| DiscordBot.Search | convo/modules/discord_bot.py:115 | a match implies the keyword occurs; no result iff the pattern matches at no position |
| DiscordBot.Decide | convo/modules/discord_bot.py:113-134 | the condition holds only if one of the four keywords occurs in it and one of the four patterns matches |
| DiscordBot.CheckMessageCondition | convo/modules/discord_bot.py:108-134 | as written: the condition, lower-cased and stripped, holds only if one of the four patterns matches it |
| DiscordBot.DecideByPattern | convo/modules/discord_bot.py:113-134 | corrected: holds only if a pattern matches; when the contains pattern matches, holds iff its text occurs in the content |
| DiscordBot.CheckConditionByPattern | convo/modules/discord_bot.py:108-134 | corrected matcher: the lower-cased, stripped condition holds only if one of the four patterns matches it |
| DiscordBotFacts.MatchAtIff | convo/modules/discord_bot.py:115 | the regex matches at a position with group x iff keyword, white space, a quote, x without quotes and a quote follow there |
| DiscordBotFacts.SearchFromLeftmost | convo/modules/discord_bot.py:115 | `re.search` returns the group of the leftmost position where the pattern matches |
| DiscordBotFacts.ConditionMatches | convo/modules/discord_bot.py:115 | `kw "x"` contains the keyword and its search yields x |
| DiscordBotFacts.ContainsCondition | convo/modules/discord_bot.py:113-117 | `contains "x"` holds iff x occurs in the lower-cased content |
| DiscordBotFacts.StartsWithCondition | convo/modules/discord_bot.py:119-122 | `starts with "x"` holds iff the lower-cased content starts with x, when x does not contain "contains" |
| DiscordBotFacts.EndsWithCondition | convo/modules/discord_bot.py:124-127 | `ends with "x"` holds iff the lower-cased content ends with x, when x contains no earlier keyword |
| DiscordBotFacts.EqualsCondition | convo/modules/discord_bot.py:129-132 | `equals "x"` holds iff the lower-cased content is x, when x contains no earlier keyword |
| DiscordBotFacts.CaseInsensitive | convo/modules/discord_bot.py:110-111 | condition and content are compared without regard to case |
| DiscordBotFacts.NoKeywordNeverHolds | convo/modules/discord_bot.py:113-134 | a condition with none of the four keywords is False |
| DiscordBotFacts.ContainsExamples | convo/modules/discord_bot.py:113-117 | `contains "hello"` holds for "hello world" and `contains "goodbye"` does not |
| DiscordBotFacts.StartsWithExamples | convo/modules/discord_bot.py:119-122 | `starts with "hello"` holds for "hello everyone" and `starts with "hi"` does not |
| DiscordBotFacts.NoMatchOutsideKeyword | convo/modules/discord_bot.py:115-130 | in `kw "x"`, a pattern for a word that is not in `kw ` finds nothing |
| DiscordBotFacts.KeywordInQuoteHidesBranch | convo/modules/discord_bot.py:113-122 | as written: `starts with "x"` with "contains" inside x is always False |
| DiscordBotFacts.StartsWithContainsExample | convo/modules/discord_bot.py:113-122 | as written: `starts with "contains"` is False for the message "contains", which starts with "contains" |
| DiscordBotFacts.ContainsByPattern | convo/modules/discord_bot.py:113-117 | corrected matcher: `contains "x"` holds iff x occurs in the lower-cased content, for every quote-free lower-case x |
| DiscordBotFacts.StartsWithByPattern | convo/modules/discord_bot.py:119-122 | corrected matcher: `starts with "x"` holds iff the lower-cased content starts with x, for every quote-free lower-case x |
| DiscordBotFacts.EndsWithByPattern | convo/modules/discord_bot.py:124-127 | corrected matcher: `ends with "x"` holds iff the lower-cased content ends with x, for every quote-free lower-case x |
| DiscordBotFacts.EqualsByPattern | convo/modules/discord_bot.py:129-132 | corrected matcher: `equals "x"` holds iff the lower-cased content is x, for every quote-free lower-case x |

## Left out

- Output: the `print` in Say and the console output of the bot are not modelled; only the interpreter's `output` list is.
- Termination: the interpreter runs on a fuel budget (one unit per loop round and per call). A program that needs more ends in `OutOfFuel`, which the Python interpreter has no counterpart for: there a divergent While runs forever, and that has no model beyond running out of fuel.
- Recursion depth: the Python parser and interpreter are recursive, so deep nesting or deep Convo recursion raises Python's `RecursionError`. `interpret` catches only `ConvoRuntimeError` (convo/interpreter.py:67-71), so that error escapes. The model has no depth limit; where Python would stop with `RecursionError`, the model goes on until it runs out of fuel.
- Floats: dotted numerals keep their text, and the float that `/` and dotted literals produce carries no value. Arithmetic, comparison, truthiness and display of a float give an `Unmodelled` failure. The text of a dotted NUMBER token in token and node texts (`Tokens.FloatText`) is Python's fixed notation; Python's exponent form (`1e-05` for `0.00001`, `1e+16` for `10000000000000000.0`) and the rounding to 17 significant digits are not modelled.
- Text: character classes, `lower` and `strip` are restricted to ASCII. Python's Unicode behaviour is not modelled.
- Builtins not in the modelled set: the math, random, file, JSON, `to_number`, `to_list`, `upper`, `lower`, `abs` and `power` functions of `convo/builtins.py`.
- Length: `Other` stands only for objects without `__len__`. Tuples, sets, ranges and other sized objects are not modelled, so the model does not say that `length` counts them.
- `str()` of a list, a dictionary or an `Other` object is not modelled (Python's text for them is built from `repr` and, for plain objects, a memory address). `PyStr` and `ItemText` give an `Unmodelled` failure there, where Python succeeds; the seven builtins that call `str()` inherit this, one line each below.
- Trim: gives `Unmodelled` for a list, dictionary or `Other` text, where Python strips their `str()` text.
- Split: gives `Unmodelled` for a list, dictionary or `Other` text, and for a `None` separator, where Python splits their `str()` text or splits at white space runs.
- Join: gives `Unmodelled` for an `Other` element, where Python joins its `str()` text.
- Replace: gives `Unmodelled` for a list, dictionary or `Other` text, where Python replaces in their `str()` text.
- StartsWith: gives `Unmodelled` for a list, dictionary or `Other` text, where Python tests their `str()` text.
- EndsWith: gives `Unmodelled` for a list, dictionary or `Other` text, where Python tests their `str()` text.
- ToText: gives `Unmodelled` for a list, dictionary or `Other` value, where Python returns its `str()` text.
- Objects other than None, booleans, integers and strings are compared by identity.
- DiscordErrors.Guard: `Raised` stands only for `Exception` subclasses. A `BaseException` that is not an `Exception` (KeyboardInterrupt, SystemExit) passes through the Python wrapper, which catches only `ImportError` and `Exception` (convo/modules/discord_error_handling.py:88, 95); the model has no such exception.
- Python lists that alias each other are modelled for `append` and `remove` (a `PyList` object); dictionaries are values.
- DiscordEvents.EventRegistry.GetHandlers: returns the handler list as a value. Python returns the registry's own list, so a caller could change it in place; that aliasing is not modelled.
- DiscordCommands.CommandRegistry.AllCommands: returns the names as a sequence taken when it is called. Python returns a live `dict_keys` view, which later `add_command` calls change; that view is not modelled.
- Help texts of `get_discord_help` are represented by a topic value, not by their wording.
- DiscordErrors.ReportFor: the report's `"error": True` entry is implicit in the report type; logging, timestamps, tracebacks and the `details` field of `DiscordError` are not modelled.
- DiscordErrors.SafeCreateDiscordBot: the bot creation is not performed. Its outcome on the first attempt and on the retry through the wrapper are parameters.
- The discord.py client, its event loop, async handlers, the network, and `get_user_mention`, `get_channel_name` and `get_server_name` are not modelled. DiscordBot.DiscordModule.CreateBot takes the availability of the library as a parameter.
- Expression and Statement are disjoint Dafny types, so their disjointness holds by construction and is not stated as a lemma.
- `convo/__main__.py`, `main.py`, `setup.py`, `release.py`, `convo/modules/discord_ui.py`, `convo/modules/discord_advanced.py`, `convo/modules/discord/client.py`, `convo/modules/discord/models.py`, `setup_discord_logging` and `debug_discord_environment` are not part of this model.

## Findings

| source | as written | input that shows it | evidently intended | confidence | as-written member | corrected member |
|---|---|---|---|---|---|---|
| convo/modules/discord_bot.py:113-134 | the branch is chosen by whether the bare word `contains` (then `starts with`, `ends with`, `equals`) occurs anywhere in the condition, including inside the quoted text; the contains pattern then fails and the result is False | condition `starts with "contains"`, message `contains` | the condition holds when the lower-cased message starts with the quoted text | not executed; medium | DiscordBotFacts.StartsWithContainsExample | DiscordBotFacts.StartsWithByPattern |

The as-written matcher is `DiscordBot.CheckMessageCondition`.
`DiscordBotFacts.KeywordInQuoteHidesBranch` generalises the example: no
`starts with` condition whose quoted text contains "contains" can ever hold.
The corrected matcher is `DiscordBot.CheckConditionByPattern`. It chooses the
first keyword whose whole pattern (keyword, white space, quoted text) matches.
`DiscordBotFacts.ContainsByPattern`, `StartsWithByPattern`, `EndsWithByPattern`
and `EqualsByPattern` prove the intended meaning of each of the four condition
forms for every quote-free lower-case text (the condition is lower-cased before matching, so an upper-case quoted text is compared in lower case).
