/**
 * The `Parser` class of convo/parser.py. Its fields `pos` and
 * `current_token` move as tokens are consumed; every method is proved to
 * move them exactly as the matching function of module Grammar says and to
 * return the same node or raise the same error, so the properties proved in
 * GrammarFacts hold of the class.
 *
 * A raised exception becomes an `Err` result; the cursor is not specified
 * after one, since the parser is abandoned then.
 */
module ParserClass {

  import opened Wrappers
  import opened Tokens
  import opened Ast
  import opened Grammar

  class Parser {
    const tokens: seq<Token>
    var pos: nat
    var current: Option<Token>

    /** The fields as one value. */
    function Cur(): Cursor
      reads this
    {
      Cursor(pos, current)
    }

    predicate Ready()
      reads this
    {
      Valid(tokens, Cur())
    }

    /** A method outcome as the matching Grammar result: the value with the cursor after it. */
    function Outcome<T>(r: Result<T, ParseError>): Parsed<T>
      reads this
    {
      match r
      case Ok(v) => Ok((v, Cur()))
      case Err(e) => Err(e)
    }

    constructor (tokens: seq<Token>)
      ensures this.tokens == tokens && Cur() == Begin(tokens) && Ready()
    {
      this.tokens := tokens;
      pos := 0;
      current := if |tokens| > 0 then Some(tokens[0]) else None;
    }

    method Advance()
      requires Ready()
      modifies this
      ensures Cur() == Grammar.Advance(tokens, old(Cur())) && Ready()
    {
      if pos + 1 < |tokens| {
        pos := pos + 1;
        current := Some(tokens[pos]);
      } else {
        current := None;
      }
    }

    /** `peek`: the token `offset` places ahead, if there is one; the parser never calls it. */
    method Peek(offset: nat) returns (t: Option<Token>)
      ensures t.Some? <==> pos + offset < |tokens|
      ensures t.Some? ==> t.value == tokens[pos + offset]
    {
      if pos + offset < |tokens| {
        t := Some(tokens[pos + offset]);
      } else {
        t := None;
      }
    }

    method Matches(types: set<TokenType>) returns (b: bool)
      ensures b == Match(Cur(), types)
    {
      b := current.Some? && current.value.tokenType in types;
    }

    method Consume(t: TokenType, message: Option<string>) returns (r: Result<Token, ParseError>)
      requires Ready()
      modifies this
      ensures Outcome(r) == Grammar.Consume(tokens, old(Cur()), t, message)
      ensures r.Ok? ==> Ready()
    {
      if current.Some? && current.value.tokenType == t {
        var token := current.value;
        Advance();
        return Ok(token);
      }
      return Err(Error(Cur(), match message case Some(m) => m case None => "Expected " + TypeName(t)));
    }

    method SkipNewlines()
      requires Ready()
      modifies this
      ensures Cur() == Grammar.SkipNewlines(tokens, old(Cur())) && Ready()
    {
      while current.Some? && current.value.tokenType == NEWLINE
        invariant Ready()
        invariant Grammar.SkipNewlines(tokens, Cur()) == Grammar.SkipNewlines(tokens, old(Cur()))
        decreases Measure(tokens, Cur())
      {
        Advance();
      }
    }

    /** `parse`. */
    method Parse() returns (r: Result<Program, ParseError>)
      requires Ready()
      modifies this
      ensures r == ParseFrom(tokens, old(Cur()))
    {
      ghost var start := Cur();
      SkipNewlines();
      var statements: seq<Stmt> := [];
      while current.Some? && current.value.tokenType != EOF
        invariant Ready()
        invariant ProgramItems(tokens, Cur(), statements) == ProgramItems(tokens, Grammar.SkipNewlines(tokens, start), [])
        decreases Measure(tokens, Cur())
      {
        var s := ParseStatement();
        if s.Err? {
          return Err(s.error);
        }
        if s.value.Some? {
          statements := statements + [s.value.value];
        }
        SkipNewlines();
      }
      return Ok(Program(statements));
    }

    /** `parse_statement`: None for an empty line. */
    method ParseStatement() returns (r: Result<Option<Stmt>, ParseError>)
      requires Ready()
      modifies this
      ensures Outcome(r) == Statement(tokens, old(Cur()))
      ensures r.Ok? ==> Ready()
      decreases Measure(tokens, Cur()), 12
    {
      var b := Matches({SAY});
      if b {
        var s := ParseSay();
        return if s.Ok? then Ok(Some(s.value)) else Err(s.error);
      }
      b := Matches({LET});
      if b {
        var s := ParseLet();
        return if s.Ok? then Ok(Some(s.value)) else Err(s.error);
      }
      b := Matches({DEFINE});
      if b {
        var s := ParseDefine();
        return if s.Ok? then Ok(Some(s.value)) else Err(s.error);
      }
      b := Matches({CALL});
      if b {
        var s := ParseCall();
        return if s.Ok? then Ok(Some(s.value)) else Err(s.error);
      }
      b := Matches({IF});
      if b {
        var s := ParseIf();
        return if s.Ok? then Ok(Some(s.value)) else Err(s.error);
      }
      b := Matches({WHILE});
      if b {
        var s := ParseWhile();
        return if s.Ok? then Ok(Some(s.value)) else Err(s.error);
      }
      b := Matches({NEWLINE});
      if b {
        Advance();
        return Ok(None);
      }
      if current.None? {
        return Err(HostFault(NoneValue));
      }
      return Err(Error(Cur(), "Unexpected token: " + Lexeme(current.value)));
    }

    method ParseSay() returns (r: Result<Stmt, ParseError>)
      requires Ready()
      modifies this
      ensures Outcome(r) == Say(tokens, old(Cur()))
      ensures r.Ok? ==> Ready()
      decreases Measure(tokens, Cur()), 10
    {
      var t := Consume(SAY, None);
      if t.Err? {
        return Err(t.error);
      }
      var e := ParseExpression();
      if e.Err? {
        return Err(e.error);
      }
      return Ok(SayStatement(e.value));
    }

    method ParseLet() returns (r: Result<Stmt, ParseError>)
      requires Ready()
      modifies this
      ensures Outcome(r) == Let(tokens, old(Cur()))
      ensures r.Ok? ==> Ready()
      decreases Measure(tokens, Cur()), 10
    {
      var t := Consume(LET, None);
      if t.Err? {
        return Err(t.error);
      }
      var name := Consume(IDENTIFIER, None);
      if name.Err? {
        return Err(name.error);
      }
      t := Consume(BE, None);
      if t.Err? {
        return Err(t.error);
      }
      var e := ParseExpression();
      if e.Err? {
        return Err(e.error);
      }
      return Ok(LetStatement(Lexeme(name.value), e.value));
    }

    /** The optional `with` clause of `parse_function_definition`. */
    method ParseParameters() returns (r: Result<seq<string>, ParseError>)
      requires Ready()
      modifies this
      ensures Outcome(r) == ParameterClause(tokens, old(Cur()))
      ensures r.Ok? ==> Ready()
    {
      var b := Matches({WITH});
      if !b {
        return Ok([]);
      }
      Advance();
      b := Matches({IDENTIFIER});
      if !b {
        return Ok([]);
      }
      var parameters := [Lexeme(current.value)];
      Advance();
      while current.Some? && current.value.tokenType == COMMA
        invariant Ready()
        invariant MoreParameters(tokens, Cur(), parameters) == ParameterClause(tokens, old(Cur()))
        decreases Measure(tokens, Cur())
      {
        Advance();
        var p := Consume(IDENTIFIER, None);
        if p.Err? {
          return Err(p.error);
        }
        parameters := parameters + [Lexeme(p.value)];
      }
      return Ok(parameters);
    }

    /** `parse_function_definition`. */
    method ParseDefine() returns (r: Result<Stmt, ParseError>)
      requires Ready()
      modifies this
      ensures Outcome(r) == Define(tokens, old(Cur()))
      ensures r.Ok? ==> Ready()
      decreases Measure(tokens, Cur()), 10
    {
      var t := Consume(DEFINE, None);
      if t.Err? {
        return Err(t.error);
      }
      var name := Consume(IDENTIFIER, None);
      if name.Err? {
        return Err(name.error);
      }
      var params := ParseParameters();
      if params.Err? {
        return Err(params.error);
      }
      t := Consume(COLON, None);
      if t.Err? {
        return Err(t.error);
      }
      SkipNewlines();
      var b := Matches({INDENT});
      if !b {
        return Err(Error(Cur(), "Expected indented block after function definition"));
      }
      var body := ParseBlock();
      if body.Err? {
        return Err(body.error);
      }
      return Ok(FunctionDefinition(Lexeme(name.value), params.value, body.value));
    }

    /** `parse_call_statement`. */
    method ParseCall() returns (r: Result<Stmt, ParseError>)
      requires Ready()
      modifies this
      ensures Outcome(r) == Call(tokens, old(Cur()))
      ensures r.Ok? ==> Ready()
      decreases Measure(tokens, Cur()), 10
    {
      var t := Consume(CALL, None);
      if t.Err? {
        return Err(t.error);
      }
      var name := Consume(IDENTIFIER, None);
      if name.Err? {
        return Err(name.error);
      }
      var b := Matches({WITH});
      if !b {
        return Ok(CallStatement(Lexeme(name.value), []));
      }
      Advance();
      var first := ParseExpression();
      if first.Err? {
        return Err(first.error);
      }
      var arguments := [first.value];
      ghost var afterFirst := Cur();
      while current.Some? && current.value.tokenType == COMMA
        invariant Ready()
        invariant MoreArguments(tokens, Cur(), arguments) == MoreArguments(tokens, afterFirst, [first.value])
        decreases Measure(tokens, Cur())
      {
        Advance();
        var e := ParseExpression();
        if e.Err? {
          return Err(e.error);
        }
        arguments := arguments + [e.value];
      }
      return Ok(CallStatement(Lexeme(name.value), arguments));
    }

    /** `parse_if_statement`. */
    method ParseIf() returns (r: Result<Stmt, ParseError>)
      requires Ready()
      modifies this
      ensures Outcome(r) == If(tokens, old(Cur()))
      ensures r.Ok? ==> Ready()
      decreases Measure(tokens, Cur()), 10
    {
      var t := Consume(IF, None);
      if t.Err? {
        return Err(t.error);
      }
      var condition := ParseExpression();
      if condition.Err? {
        return Err(condition.error);
      }
      t := Consume(THEN, None);
      if t.Err? {
        return Err(t.error);
      }
      t := Consume(COLON, None);
      if t.Err? {
        return Err(t.error);
      }
      SkipNewlines();
      var b := Matches({INDENT});
      if !b {
        return Err(Error(Cur(), "Expected indented block after 'then:'"));
      }
      var thenBlock := ParseBlock();
      if thenBlock.Err? {
        return Err(thenBlock.error);
      }
      var elseBlock: Option<seq<Stmt>> := Some([]);
      b := Matches({ELSE});
      if b {
        Advance();
        t := Consume(COLON, None);
        if t.Err? {
          return Err(t.error);
        }
        SkipNewlines();
        b := Matches({INDENT});
        if !b {
          return Err(Error(Cur(), "Expected indented block after 'else:'"));
        }
        var block := ParseBlock();
        if block.Err? {
          return Err(block.error);
        }
        elseBlock := Some(block.value);
      }
      return Ok(MakeIf(condition.value, thenBlock.value, elseBlock));
    }

    /** `parse_while_statement`. */
    method ParseWhile() returns (r: Result<Stmt, ParseError>)
      requires Ready()
      modifies this
      ensures Outcome(r) == While(tokens, old(Cur()))
      ensures r.Ok? ==> Ready()
      decreases Measure(tokens, Cur()), 10
    {
      var t := Consume(WHILE, None);
      if t.Err? {
        return Err(t.error);
      }
      var condition := ParseExpression();
      if condition.Err? {
        return Err(condition.error);
      }
      t := Consume(DO, None);
      if t.Err? {
        return Err(t.error);
      }
      t := Consume(COLON, None);
      if t.Err? {
        return Err(t.error);
      }
      SkipNewlines();
      var b := Matches({INDENT});
      if !b {
        return Err(Error(Cur(), "Expected indented block after 'do:'"));
      }
      var body := ParseBlock();
      if body.Err? {
        return Err(body.error);
      }
      return Ok(WhileStatement(condition.value, body.value));
    }

    /** `parse_block`. */
    method ParseBlock() returns (r: Result<seq<Stmt>, ParseError>)
      requires Ready()
      modifies this
      ensures Outcome(r) == Grammar.Block(tokens, old(Cur()))
      ensures r.Ok? ==> Ready()
      decreases Measure(tokens, Cur()), 14
    {
      var t := Consume(INDENT, None);
      if t.Err? {
        return Err(t.error);
      }
      ghost var first := Cur();
      var statements: seq<Stmt> := [];
      while current.Some? && current.value.tokenType != DEDENT && current.value.tokenType != EOF
        invariant Ready() && Measure(tokens, Cur()) <= Measure(tokens, first)
        invariant BlockItems(tokens, Cur(), statements) == BlockItems(tokens, first, [])
        decreases Measure(tokens, Cur())
      {
        var s := ParseStatement();
        if s.Err? {
          return Err(s.error);
        }
        if s.value.Some? {
          statements := statements + [s.value.value];
        }
        SkipNewlines();
      }
      var b := Matches({DEDENT});
      if b {
        Advance();
      }
      return Ok(statements);
    }

    /** `parse_expression`. */
    method ParseExpression() returns (r: Result<Expr, ParseError>)
      requires Ready()
      modifies this
      ensures Outcome(r) == Expression(tokens, old(Cur()))
      ensures r.Ok? ==> Ready()
      decreases Measure(tokens, Cur()), 9
    {
      r := ParseBinary(6);
    }

    /**
     * The six binary levels `parse_or_expression` (6), `parse_and_expression`
     * (5), `parse_equality_expression` (4), `parse_comparison_expression`
     * (3), `parse_additive_expression` (2) and
     * `parse_multiplicative_expression` (1), which differ only in their
     * operators and the operand parser they call.
     */
    method ParseBinary(level: nat) returns (r: Result<Expr, ParseError>)
      requires Ready() && 1 <= level <= 6
      modifies this
      ensures Outcome(r) == Binary(tokens, old(Cur()), level)
      ensures r.Ok? ==> Ready()
      decreases Measure(tokens, Cur()), level + 2
    {
      ghost var start := Cur();
      var first;
      if level == 1 {
        first := ParseUnary();
      } else {
        first := ParseBinary(level - 1);
      }
      if first.Err? {
        return Err(first.error);
      }
      var left := first.value;
      while current.Some? && current.value.tokenType in LevelOps(level)
        invariant Ready() && Measure(tokens, Cur()) < Measure(tokens, start)
        invariant BinaryRest(tokens, Cur(), level, left) == Binary(tokens, start, level)
        decreases Measure(tokens, Cur())
      {
        var op := Lexeme(current.value);
        Advance();
        if level == 3 && current.Some? && current.value.tokenType == IDENTIFIER && current.value.value == Text("than") {
          Advance();
        }
        var right;
        if level == 1 {
          right := ParseUnary();
        } else {
          right := ParseBinary(level - 1);
        }
        if right.Err? {
          return Err(right.error);
        }
        left := BinaryOp(left, op, right.value);
      }
      return Ok(left);
    }

    /** `parse_unary_expression`. */
    method ParseUnary() returns (r: Result<Expr, ParseError>)
      requires Ready()
      modifies this
      ensures Outcome(r) == Unary(tokens, old(Cur()))
      ensures r.Ok? ==> Ready()
      decreases Measure(tokens, Cur()), 2
    {
      var b := Matches({NOT, MINUS, PLUS});
      if b {
        var op := Lexeme(current.value);
        Advance();
        var operand := ParseUnary();
        if operand.Err? {
          return Err(operand.error);
        }
        return Ok(UnaryOp(op, operand.value));
      }
      r := ParsePrimary();
    }

    /** `parse_primary_expression`. */
    method ParsePrimary() returns (r: Result<Expr, ParseError>)
      requires Ready()
      modifies this
      ensures Outcome(r) == Primary(tokens, old(Cur()))
      ensures r.Ok? ==> Ready()
      decreases Measure(tokens, Cur()), 1
    {
      var b := Matches({STRING, NUMBER});
      if b {
        var value := current.value.value;
        Advance();
        return Ok(Literal(PlainLiteral, ConstantOf(value)));
      }
      b := Matches({IDENTIFIER});
      if b {
        var name := Lexeme(current.value);
        Advance();
        return Ok(Identifier(name));
      }
      b := Matches({LPAREN});
      if b {
        Advance();
        var e := ParseExpression();
        if e.Err? {
          return Err(e.error);
        }
        var t := Consume(RPAREN, Some("Expected ')' after expression"));
        if t.Err? {
          return Err(t.error);
        }
        return Ok(e.value);
      }
      if current.None? {
        return Err(HostFault(NoneValue));
      }
      return Err(Error(Cur(), "Unexpected token in expression: " + Lexeme(current.value)));
    }
  }
}
