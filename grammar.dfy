/**
 * The recursive-descent parser of convo/parser.py as functions over a cursor
 * (the parser's `pos` and `current_token` fields). Each function takes the
 * cursor before a parse step and returns the node and the cursor after it;
 * the class in parser.dfy is proved to follow them.
 */
module Grammar {

  import opened Wrappers
  import opened Text
  import opened Tokens
  import opened Ast

  /** A raised exception: the parser's SyntaxError, or an AttributeError on a missing token. */
  datatype ParseError = SyntaxError(message: string) | HostFault(reason: string)

  const NoneValue := "AttributeError: 'NoneType' object has no attribute 'value'"

  /** The fields `pos` and `current_token`. */
  datatype Cursor = Cursor(pos: nat, current: Option<Token>)

  /**
   * What `advance` maintains: the current token is the one at pos; once it
   * is None, pos rests on the last index (or 0 for an empty list).
   */
  predicate Valid(ts: seq<Token>, c: Cursor)
  {
    match c.current
    case Some(t) => c.pos < |ts| && t == ts[c.pos]
    case None => c.pos + 1 == |ts| || (|ts| == 0 && c.pos == 0)
  }

  /** The cursor as `Parser.__init__` sets it. */
  function Begin(ts: seq<Token>): (c: Cursor)
    ensures Valid(ts, c)
  {
    Cursor(0, if |ts| > 0 then Some(ts[0]) else None)
  }

  /** Tokens still to be read; the termination measure of every parse function. */
  function Measure(ts: seq<Token>, c: Cursor): nat
    requires Valid(ts, c)
  {
    if c.current.None? then 0 else |ts| - c.pos
  }

  /** `Parser.advance`. */
  function Advance(ts: seq<Token>, c: Cursor): (r: Cursor)
    requires Valid(ts, c)
    ensures Valid(ts, r) && Measure(ts, r) <= Measure(ts, c)
    ensures c.current.Some? ==> Measure(ts, r) < Measure(ts, c)
  {
    if c.pos + 1 < |ts| then Cursor(c.pos + 1, Some(ts[c.pos + 1])) else Cursor(c.pos, None)
  }

  /** `Parser.match`: the current token has one of the types. */
  predicate Match(c: Cursor, types: set<TokenType>)
  {
    c.current.Some? && c.current.value.tokenType in types
  }

  /** `Parser.error`: the SyntaxError, located at the current token when there is one. */
  function Error(c: Cursor, message: string): ParseError
  {
    match c.current
    case Some(t) =>
      SyntaxError("Line " + IntToString(t.line) + ", Column " + IntToString(t.column) + ": " + message)
    case None => SyntaxError("Unexpected end of input: " + message)
  }

  /** `Parser.consume`, with the default message when none is given. */
  function Consume(ts: seq<Token>, c: Cursor, t: TokenType, message: Option<string>): (r: Result<(Token, Cursor), ParseError>)
    requires Valid(ts, c)
    ensures r.Ok? ==> Valid(ts, r.value.1) && Measure(ts, r.value.1) < Measure(ts, c)
    ensures r.Ok? <==> Match(c, {t})
    ensures r.Ok? ==> r.value.0 == c.current.value
  {
    if Match(c, {t}) then Ok((c.current.value, Advance(ts, c)))
    else Err(Error(c, match message case Some(m) => m case None => "Expected " + TypeName(t)))
  }

  /** `Parser.skip_newlines`. */
  function SkipNewlines(ts: seq<Token>, c: Cursor): (r: Cursor)
    requires Valid(ts, c)
    ensures Valid(ts, r) && Measure(ts, r) <= Measure(ts, c) && !Match(r, {NEWLINE})
    decreases Measure(ts, c)
  {
    if Match(c, {NEWLINE}) then SkipNewlines(ts, Advance(ts, c)) else c
  }

  /** The text a token contributes as a name or an operator (its str()). */
  function Lexeme(t: Token): string
  {
    ValueText(t.value)
  }

  /** A token payload as the value of a Literal node. */
  function ConstantOf(v: TokenValue): Constant
  {
    match v
    case NoValue => NoneConst
    case Text(s) => StrConst(s)
    case Whole(i) => IntConst(i)
    case Dotted(n) => FloatConst(n)
  }

  /*
   * Expressions. A binary level is numbered from 1 (multiplicative) to 6
   * (or); `parse_expression` is level 6.
   */

  /** The operator tokens of each binary level. */
  function LevelOps(level: nat): set<TokenType>
  {
    match level
    case 1 => {MULTIPLY, DIVIDE}
    case 2 => {PLUS, MINUS}
    case 3 => {GREATER, LESS}
    case 4 => {EQUALS, NOT_EQUALS}
    case 5 => {AND}
    case _ => {OR}
  }

  type Parsed<T> = Result<(T, Cursor), ParseError>

  /** `parse_expression`. */
  function Expression(ts: seq<Token>, c: Cursor): (r: Parsed<Expr>)
    requires Valid(ts, c)
    ensures r.Ok? ==> Valid(ts, r.value.1) && Measure(ts, r.value.1) < Measure(ts, c)
    decreases Measure(ts, c), 9
  {
    Binary(ts, c, 6)
  }

  /**
   * A binary level: an operand of the level below, then the level's
   * operators, folded to the left.
   */
  function Binary(ts: seq<Token>, c: Cursor, level: nat): (r: Parsed<Expr>)
    requires Valid(ts, c) && 1 <= level <= 6
    ensures r.Ok? ==> Valid(ts, r.value.1) && Measure(ts, r.value.1) < Measure(ts, c)
    decreases Measure(ts, c), level + 2
  {
    var (left, c1) :- if level == 1 then Unary(ts, c) else Binary(ts, c, level - 1);
    BinaryRest(ts, c1, level, left)
  }

  /** The `while self.match(...)` loop of a binary level, with the tree built so far. */
  function BinaryRest(ts: seq<Token>, c: Cursor, level: nat, left: Expr): (r: Parsed<Expr>)
    requires Valid(ts, c) && 1 <= level <= 6
    ensures r.Ok? ==> Valid(ts, r.value.1) && Measure(ts, r.value.1) <= Measure(ts, c)
    decreases Measure(ts, c), 0
  {
    if Match(c, LevelOps(level)) then
      var op := Lexeme(c.current.value);
      var c1 := Advance(ts, c);
      var c2 := if level == 3 && Match(c1, {IDENTIFIER}) && c1.current.value.value == Text("than")
        then Advance(ts, c1) else c1;
      var (right, c3) :- if level == 1 then Unary(ts, c2) else Binary(ts, c2, level - 1);
      BinaryRest(ts, c3, level, BinaryOp(left, op, right))
    else Ok((left, c))
  }

  /** `parse_unary_expression`: prefix `not`, `-` and `+` nest to the right. */
  function Unary(ts: seq<Token>, c: Cursor): (r: Parsed<Expr>)
    requires Valid(ts, c)
    ensures r.Ok? ==> Valid(ts, r.value.1) && Measure(ts, r.value.1) < Measure(ts, c)
    decreases Measure(ts, c), 2
  {
    if Match(c, {NOT, MINUS, PLUS}) then
      var op := Lexeme(c.current.value);
      var (operand, c1) :- Unary(ts, Advance(ts, c));
      Ok((UnaryOp(op, operand), c1))
    else Primary(ts, c)
  }

  /** `parse_primary_expression`: a literal, a name, or a parenthesised expression. */
  function Primary(ts: seq<Token>, c: Cursor): (r: Parsed<Expr>)
    requires Valid(ts, c)
    ensures r.Ok? ==> Valid(ts, r.value.1) && Measure(ts, r.value.1) < Measure(ts, c)
    decreases Measure(ts, c), 1
  {
    if Match(c, {STRING, NUMBER}) then
      Ok((Literal(PlainLiteral, ConstantOf(c.current.value.value)), Advance(ts, c)))
    else if Match(c, {IDENTIFIER}) then
      Ok((Identifier(Lexeme(c.current.value)), Advance(ts, c)))
    else if Match(c, {LPAREN}) then
      var (e, c1) :- Expression(ts, Advance(ts, c));
      var (_, c2) :- Consume(ts, c1, RPAREN, Some("Expected ')' after expression"));
      Ok((e, c2))
    else if c.current.None? then Err(HostFault(NoneValue))
    else Err(Error(c, "Unexpected token in expression: " + Lexeme(c.current.value)))
  }

  /* Statements. */

  /** The token types a statement may start with. */
  const StatementStarts := {SAY, LET, DEFINE, CALL, IF, WHILE, NEWLINE}

  /**
   * `parse_statement`: None for an empty line. Only the six statement
   * keywords and NEWLINE may start a statement.
   */
  function Statement(ts: seq<Token>, c: Cursor): (r: Parsed<Option<Stmt>>)
    requires Valid(ts, c)
    ensures r.Ok? ==> Valid(ts, r.value.1) && Measure(ts, r.value.1) < Measure(ts, c)
    ensures r.Ok? ==> Match(c, StatementStarts) && (r.value.0.None? <==> Match(c, {NEWLINE}))
    ensures c.current.Some? && !Match(c, StatementStarts) ==>
      r == Err(Error(c, "Unexpected token: " + Lexeme(c.current.value)))
    decreases Measure(ts, c), 12
  {
    if Match(c, {SAY}) then
      var (s, c1) :- Say(ts, c);
      Ok((Some(s), c1))
    else if Match(c, {LET}) then
      var (s, c1) :- Let(ts, c);
      Ok((Some(s), c1))
    else if Match(c, {DEFINE}) then
      var (s, c1) :- Define(ts, c);
      Ok((Some(s), c1))
    else if Match(c, {CALL}) then
      var (s, c1) :- Call(ts, c);
      Ok((Some(s), c1))
    else if Match(c, {IF}) then
      var (s, c1) :- If(ts, c);
      Ok((Some(s), c1))
    else if Match(c, {WHILE}) then
      var (s, c1) :- While(ts, c);
      Ok((Some(s), c1))
    else if Match(c, {NEWLINE}) then
      Ok((None, Advance(ts, c)))
    else if c.current.None? then Err(HostFault(NoneValue))
    else Err(Error(c, "Unexpected token: " + Lexeme(c.current.value)))
  }

  /** `parse_say_statement`. */
  function Say(ts: seq<Token>, c: Cursor): (r: Parsed<Stmt>)
    requires Valid(ts, c)
    ensures r.Ok? ==> Valid(ts, r.value.1) && Measure(ts, r.value.1) < Measure(ts, c)
    decreases Measure(ts, c), 10
  {
    var (_, c1) :- Consume(ts, c, SAY, None);
    var (e, c2) :- Expression(ts, c1);
    Ok((SayStatement(e), c2))
  }

  /** `parse_let_statement`. */
  function Let(ts: seq<Token>, c: Cursor): (r: Parsed<Stmt>)
    requires Valid(ts, c)
    ensures r.Ok? ==> Valid(ts, r.value.1) && Measure(ts, r.value.1) < Measure(ts, c)
    decreases Measure(ts, c), 10
  {
    var (_, c1) :- Consume(ts, c, LET, None);
    var (name, c2) :- Consume(ts, c1, IDENTIFIER, None);
    var (_, c3) :- Consume(ts, c2, BE, None);
    var (e, c4) :- Expression(ts, c3);
    Ok((LetStatement(Lexeme(name), e), c4))
  }

  /** The optional `with` clause of a definition: no parameters without it. */
  function ParameterClause(ts: seq<Token>, c: Cursor): (r: Parsed<seq<string>>)
    requires Valid(ts, c)
    ensures r.Ok? ==> Valid(ts, r.value.1) && Measure(ts, r.value.1) <= Measure(ts, c)
    ensures !Match(c, {WITH}) ==> r == Ok(([], c))
  {
    if Match(c, {WITH}) then Parameters(ts, Advance(ts, c)) else Ok(([], c))
  }

  /** The parameter list after `with`: identifiers separated by commas. */
  function Parameters(ts: seq<Token>, c: Cursor): (r: Parsed<seq<string>>)
    requires Valid(ts, c)
    ensures r.Ok? ==> Valid(ts, r.value.1) && Measure(ts, r.value.1) <= Measure(ts, c)
  {
    if Match(c, {IDENTIFIER}) then
      MoreParameters(ts, Advance(ts, c), [Lexeme(c.current.value)])
    else Ok(([], c))
  }

  /** The `while self.match(TokenType.COMMA)` loop of the parameter list. */
  function MoreParameters(ts: seq<Token>, c: Cursor, acc: seq<string>): (r: Parsed<seq<string>>)
    requires Valid(ts, c)
    ensures r.Ok? ==> Valid(ts, r.value.1) && Measure(ts, r.value.1) <= Measure(ts, c)
    decreases Measure(ts, c)
  {
    if Match(c, {COMMA}) then
      var (p, c1) :- Consume(ts, Advance(ts, c), IDENTIFIER, None);
      MoreParameters(ts, c1, acc + [Lexeme(p)])
    else Ok((acc, c))
  }

  /** `parse_function_definition`. */
  function Define(ts: seq<Token>, c: Cursor): (r: Parsed<Stmt>)
    requires Valid(ts, c)
    ensures r.Ok? ==> Valid(ts, r.value.1) && Measure(ts, r.value.1) < Measure(ts, c)
    decreases Measure(ts, c), 10
  {
    var (_, c1) :- Consume(ts, c, DEFINE, None);
    var (name, c2) :- Consume(ts, c1, IDENTIFIER, None);
    var (params, c3) :- ParameterClause(ts, c2);
    var (_, c4) :- Consume(ts, c3, COLON, None);
    var c5 := SkipNewlines(ts, c4);
    if Match(c5, {INDENT}) then
      var (body, c6) :- Block(ts, c5);
      Ok((FunctionDefinition(Lexeme(name), params, body), c6))
    else Err(Error(c5, "Expected indented block after function definition"))
  }

  /** The argument list after `with`: expressions separated by commas. */
  function MoreArguments(ts: seq<Token>, c: Cursor, acc: seq<Expr>): (r: Parsed<seq<Expr>>)
    requires Valid(ts, c)
    ensures r.Ok? ==> Valid(ts, r.value.1) && Measure(ts, r.value.1) <= Measure(ts, c)
    decreases Measure(ts, c)
  {
    if Match(c, {COMMA}) then
      var (e, c1) :- Expression(ts, Advance(ts, c));
      MoreArguments(ts, c1, acc + [e])
    else Ok((acc, c))
  }

  /** `parse_call_statement`. */
  function Call(ts: seq<Token>, c: Cursor): (r: Parsed<Stmt>)
    requires Valid(ts, c)
    ensures r.Ok? ==> Valid(ts, r.value.1) && Measure(ts, r.value.1) < Measure(ts, c)
    decreases Measure(ts, c), 10
  {
    var (_, c1) :- Consume(ts, c, CALL, None);
    var (name, c2) :- Consume(ts, c1, IDENTIFIER, None);
    if Match(c2, {WITH}) then
      var (first, c3) :- Expression(ts, Advance(ts, c2));
      var (args, c4) :- MoreArguments(ts, c3, [first]);
      Ok((CallStatement(Lexeme(name), args), c4))
    else Ok((CallStatement(Lexeme(name), []), c2))
  }

  /** `parse_if_statement`. */
  function If(ts: seq<Token>, c: Cursor): (r: Parsed<Stmt>)
    requires Valid(ts, c)
    ensures r.Ok? ==> Valid(ts, r.value.1) && Measure(ts, r.value.1) < Measure(ts, c)
    decreases Measure(ts, c), 10
  {
    var (_, c1) :- Consume(ts, c, IF, None);
    var (cond, c2) :- Expression(ts, c1);
    var (_, c3) :- Consume(ts, c2, THEN, None);
    var (_, c4) :- Consume(ts, c3, COLON, None);
    var c5 := SkipNewlines(ts, c4);
    if !Match(c5, {INDENT}) then Err(Error(c5, "Expected indented block after 'then:'"))
    else
      var (thenBlock, c6) :- Block(ts, c5);
      if Match(c6, {ELSE}) then
        var (_, c7) :- Consume(ts, Advance(ts, c6), COLON, None);
        var c8 := SkipNewlines(ts, c7);
        if Match(c8, {INDENT}) then
          var (elseBlock, c9) :- Block(ts, c8);
          Ok((MakeIf(cond, thenBlock, Some(elseBlock)), c9))
        else Err(Error(c8, "Expected indented block after 'else:'"))
      else Ok((MakeIf(cond, thenBlock, Some([])), c6))
  }

  /** `parse_while_statement`. */
  function While(ts: seq<Token>, c: Cursor): (r: Parsed<Stmt>)
    requires Valid(ts, c)
    ensures r.Ok? ==> Valid(ts, r.value.1) && Measure(ts, r.value.1) < Measure(ts, c)
    decreases Measure(ts, c), 10
  {
    var (_, c1) :- Consume(ts, c, WHILE, None);
    var (cond, c2) :- Expression(ts, c1);
    var (_, c3) :- Consume(ts, c2, DO, None);
    var (_, c4) :- Consume(ts, c3, COLON, None);
    var c5 := SkipNewlines(ts, c4);
    if Match(c5, {INDENT}) then
      var (body, c6) :- Block(ts, c5);
      Ok((WhileStatement(cond, body), c6))
    else Err(Error(c5, "Expected indented block after 'do:'"))
  }

  /** `parse_block`: INDENT, statements up to DEDENT or EOF, and the DEDENT if present. */
  function Block(ts: seq<Token>, c: Cursor): (r: Parsed<seq<Stmt>>)
    requires Valid(ts, c)
    ensures r.Ok? ==> Valid(ts, r.value.1) && Measure(ts, r.value.1) < Measure(ts, c)
    decreases Measure(ts, c), 14
  {
    var (_, c1) :- Consume(ts, c, INDENT, None);
    var (body, c2) :- BlockItems(ts, c1, []);
    Ok((body, if Match(c2, {DEDENT}) then Advance(ts, c2) else c2))
  }

  /** The statement loop of `parse_block`, with the statements read so far. */
  function BlockItems(ts: seq<Token>, c: Cursor, acc: seq<Stmt>): (r: Parsed<seq<Stmt>>)
    requires Valid(ts, c)
    ensures r.Ok? ==> Valid(ts, r.value.1) && Measure(ts, r.value.1) <= Measure(ts, c)
    ensures r.Ok? ==> r.value.1.current.None? || Match(r.value.1, {DEDENT, EOF})
    decreases Measure(ts, c), 13
  {
    if c.current.Some? && !Match(c, {DEDENT, EOF}) then
      var (s, c1) :- Statement(ts, c);
      BlockItems(ts, SkipNewlines(ts, c1), if s.Some? then acc + [s.value] else acc)
    else Ok((acc, c))
  }

  /** The statement loop of `parse`, with the statements read so far. */
  function ProgramItems(ts: seq<Token>, c: Cursor, acc: seq<Stmt>): (r: Result<seq<Stmt>, ParseError>)
    requires Valid(ts, c)
    ensures r.Ok? ==> |acc| <= |r.value|
    ensures c.current.None? || Match(c, {EOF}) ==> r == Ok(acc)
    decreases Measure(ts, c)
  {
    if c.current.Some? && !Match(c, {EOF}) then
      var (s, c1) :- Statement(ts, c);
      ProgramItems(ts, SkipNewlines(ts, c1), if s.Some? then acc + [s.value] else acc)
    else Ok(acc)
  }

  /** `parse` from the cursor c. */
  function ParseFrom(ts: seq<Token>, c: Cursor): Result<Program, ParseError>
    requires Valid(ts, c)
  {
    var statements :- ProgramItems(ts, SkipNewlines(ts, c), []);
    Ok(Program(statements))
  }

  /** `Parser(tokens).parse()`. */
  function Parse(ts: seq<Token>): (r: Result<Program, ParseError>)
    ensures |ts| == 0 ==> r == Ok(Program([]))
    ensures |ts| > 0 && ts[0].tokenType == EOF ==> r == Ok(Program([]))
  {
    ParseFrom(ts, Begin(ts))
  }
}
