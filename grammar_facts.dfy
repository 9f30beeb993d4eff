/**
 * Properties of the parser specification: the operator levels group as the
 * precedence chain says, `than` is dropped, parentheses leave no node, and
 * blank lines yield no statement.
 */
module GrammarFacts {

  import opened Wrappers
  import opened Tokens
  import opened Ast
  import opened Grammar

  /** Every binary operator token. */
  const BinaryOperators := {MULTIPLY, DIVIDE, PLUS, MINUS, GREATER, LESS, EQUALS, NOT_EQUALS, AND, OR}

  /** An operand followed by no operator of its level is the whole level. */
  lemma Lift(ts: seq<Token>, c: Cursor, level: nat)
    requires Valid(ts, c) && 2 <= level <= 6
    requires var r := Binary(ts, c, level - 1); r.Ok? && !Match(r.value.1, LevelOps(level))
    ensures Binary(ts, c, level) == Binary(ts, c, level - 1)
  {
  }

  /** An expression of some level followed by no binary operator is the whole expression. */
  lemma {:induction false} LiftTo(ts: seq<Token>, c: Cursor, level: nat, e: Expr, c1: Cursor)
    requires Valid(ts, c) && 1 <= level <= 6 && Binary(ts, c, level) == Ok((e, c1))
    requires !Match(c1, BinaryOperators)
    ensures Expression(ts, c) == Ok((e, c1))
    decreases 6 - level
  {
    if level < 6 {
      Lift(ts, c, level + 1);
      LiftTo(ts, c, level + 1, e, c1);
    }
  }

  /** A unary expression followed by no `*` or `/` is a whole multiplicative level. */
  lemma UnaryIsBinary(ts: seq<Token>, c: Cursor, e: Expr, c1: Cursor)
    requires Valid(ts, c) && Unary(ts, c) == Ok((e, c1)) && !Match(c1, LevelOps(1))
    ensures Binary(ts, c, 1) == Ok((e, c1))
  {
  }

  /** A parenthesised expression is the inner expression itself, with no wrapper node. */
  lemma ParenthesesLeaveNoNode(ts: seq<Token>, c: Cursor, e: Expr, c1: Cursor)
    requires Valid(ts, c) && Match(c, {LPAREN})
    requires Expression(ts, Advance(ts, c)) == Ok((e, c1)) && Match(c1, {RPAREN})
    ensures Unary(ts, c) == Ok((e, Advance(ts, c1)))
  {
  }

  /** The operand parser of a binary level: unary for level 1, the level below otherwise. */
  function Operand(ts: seq<Token>, c: Cursor, level: nat): Parsed<Expr>
    requires Valid(ts, c) && 1 <= level <= 6
  {
    if level == 1 then Unary(ts, c) else Binary(ts, c, level - 1)
  }

  /** The token after the cursor is the word `than`. */
  predicate ThanFollows(ts: seq<Token>, c: Cursor)
    requires Valid(ts, c)
  {
    var c1 := Advance(ts, c);
    Match(c1, {IDENTIFIER}) && c1.current.value.value == Text("than")
  }

  /** `x op y` with one operator of the level and nothing of the level after it. */
  lemma OneOperator(ts: seq<Token>, c: Cursor, level: nat, x: Expr, c1: Cursor, y: Expr, c2: Cursor)
    requires Valid(ts, c) && 1 <= level <= 6
    requires Operand(ts, c, level) == Ok((x, c1)) && Match(c1, LevelOps(level))
    requires level != 3 || !ThanFollows(ts, c1)
    requires Operand(ts, Advance(ts, c1), level) == Ok((y, c2)) && !Match(c2, LevelOps(level))
    ensures Binary(ts, c, level) == Ok((BinaryOp(x, Lexeme(c1.current.value), y), c2))
  {
    assert BinaryRest(ts, c2, level, BinaryOp(x, Lexeme(c1.current.value), y))
      == Ok((BinaryOp(x, Lexeme(c1.current.value), y), c2));
  }

  /** `x op1 y op2 z` at one level groups to the left: `(x op1 y) op2 z`. */
  lemma LeftAssociative(ts: seq<Token>, c: Cursor, level: nat, x: Expr, c1: Cursor, y: Expr, c2: Cursor, z: Expr, c3: Cursor)
    requires Valid(ts, c) && 1 <= level <= 6 && level != 3
    requires Operand(ts, c, level) == Ok((x, c1)) && Match(c1, LevelOps(level))
    requires Operand(ts, Advance(ts, c1), level) == Ok((y, c2)) && Match(c2, LevelOps(level))
    requires Operand(ts, Advance(ts, c2), level) == Ok((z, c3)) && !Match(c3, LevelOps(level))
    ensures Binary(ts, c, level)
      == Ok((BinaryOp(BinaryOp(x, Lexeme(c1.current.value), y), Lexeme(c2.current.value), z), c3))
  {
    var xy := BinaryOp(x, Lexeme(c1.current.value), y);
    var xyz := BinaryOp(xy, Lexeme(c2.current.value), z);
    assert BinaryRest(ts, c3, level, xyz) == Ok((xyz, c3));
    assert BinaryRest(ts, c2, level, xy) == Ok((xyz, c3));
  }

  /**
   * `x greater than y`: the word `than` after a comparison operator is
   * skipped, and the node records the operator alone.
   */
  lemma ThanDropped(ts: seq<Token>, c: Cursor, x: Expr, c1: Cursor, y: Expr, c2: Cursor)
    requires Valid(ts, c)
    requires Binary(ts, c, 2) == Ok((x, c1)) && Match(c1, {GREATER, LESS}) && ThanFollows(ts, c1)
    requires Binary(ts, Advance(ts, Advance(ts, c1)), 2) == Ok((y, c2)) && !Match(c2, {GREATER, LESS})
    ensures Binary(ts, c, 3) == Ok((BinaryOp(x, Lexeme(c1.current.value), y), c2))
  {
    assert BinaryRest(ts, c2, 3, BinaryOp(x, Lexeme(c1.current.value), y))
      == Ok((BinaryOp(x, Lexeme(c1.current.value), y), c2));
  }

  /**
   * `x + y * z` groups as `x + (y * z)`: an additive operator followed by a
   * multiplicative one leaves the product as its right operand.
   */
  lemma MultiplicationBindsTighter(ts: seq<Token>, c: Cursor, x: Expr, c1: Cursor, y: Expr, c2: Cursor, z: Expr, c3: Cursor)
    requires Valid(ts, c)
    requires Unary(ts, c) == Ok((x, c1)) && Match(c1, {PLUS, MINUS})
    requires Unary(ts, Advance(ts, c1)) == Ok((y, c2)) && Match(c2, {MULTIPLY, DIVIDE})
    requires Unary(ts, Advance(ts, c2)) == Ok((z, c3)) && !Match(c3, BinaryOperators)
    ensures Expression(ts, c)
      == Ok((BinaryOp(x, Lexeme(c1.current.value), BinaryOp(y, Lexeme(c2.current.value), z)), c3))
  {
    var product := BinaryOp(y, Lexeme(c2.current.value), z);
    UnaryIsBinary(ts, c, x, c1);
    OneOperator(ts, Advance(ts, c1), 1, y, c2, z, c3);
    OneOperator(ts, c, 2, x, c1, product, c3);
    LiftTo(ts, c, 2, BinaryOp(x, Lexeme(c1.current.value), product), c3);
  }

  /** `x * y + z` groups as `(x * y) + z`. */
  lemma ProductIsLeftOperand(ts: seq<Token>, c: Cursor, x: Expr, c1: Cursor, y: Expr, c2: Cursor, z: Expr, c3: Cursor)
    requires Valid(ts, c)
    requires Unary(ts, c) == Ok((x, c1)) && Match(c1, {MULTIPLY, DIVIDE})
    requires Unary(ts, Advance(ts, c1)) == Ok((y, c2)) && Match(c2, {PLUS, MINUS})
    requires Unary(ts, Advance(ts, c2)) == Ok((z, c3)) && !Match(c3, BinaryOperators)
    ensures Expression(ts, c)
      == Ok((BinaryOp(BinaryOp(x, Lexeme(c1.current.value), y), Lexeme(c2.current.value), z), c3))
  {
    var product := BinaryOp(x, Lexeme(c1.current.value), y);
    OneOperator(ts, c, 1, x, c1, y, c2);
    UnaryIsBinary(ts, Advance(ts, c2), z, c3);
    OneOperator(ts, c, 2, product, c2, z, c3);
    LiftTo(ts, c, 2, BinaryOp(product, Lexeme(c2.current.value), z), c3);
  }

  /** The cursor resting on index i. */
  function At(ts: seq<Token>, i: nat): (c: Cursor)
    requires i < |ts|
    ensures Valid(ts, c)
  {
    Cursor(i, Some(ts[i]))
  }

  lemma AdvanceAt(ts: seq<Token>, i: nat)
    requires i + 1 < |ts|
    ensures Advance(ts, At(ts, i)) == At(ts, i + 1)
  {
  }

  /** The operator texts of a run of prefix tokens. */
  function Lexemes(ts: seq<Token>): (r: seq<string>)
    ensures |r| == |ts|
  {
    if |ts| == 0 then [] else [Lexeme(ts[0])] + Lexemes(ts[1..])
  }

  /** Prefix operators applied right to left: the first one is outermost. */
  function Nest(ops: seq<string>, e: Expr): Expr
  {
    if |ops| == 0 then e else UnaryOp(ops[0], Nest(ops[1..], e))
  }

  /**
   * A run of k prefix operators `not`, `-`, `+` before a primary nests to the
   * right, the first operator outermost, around the primary.
   */
  lemma {:induction false} PrefixesNest(ts: seq<Token>, i: nat, k: nat, e: Expr, c1: Cursor)
    requires i + k < |ts|
    requires forall j :: i <= j < i + k ==> ts[j].tokenType in {NOT, MINUS, PLUS}
    requires Primary(ts, At(ts, i + k)) == Ok((e, c1))
    ensures Unary(ts, At(ts, i)) == Ok((Nest(Lexemes(ts[i..i + k]), e), c1))
    decreases k
  {
    if k == 0 {
      assert !Match(At(ts, i), {NOT, MINUS, PLUS});
      assert ts[i..i] == [];
    } else {
      AdvanceAt(ts, i);
      PrefixesNest(ts, i + 1, k - 1, e, c1);
      assert ts[i..i + k][1..] == ts[i + 1..i + k];
    }
  }

  /** A number token is a literal operand on its own. */
  lemma NumberOperand(ts: seq<Token>, i: nat)
    requires i + 1 < |ts| && ts[i].tokenType == NUMBER
    ensures Unary(ts, At(ts, i)) == Ok((Literal(PlainLiteral, ConstantOf(ts[i].value)), At(ts, i + 1)))
  {
    AdvanceAt(ts, i);
  }

  function Tok(t: TokenType, v: TokenValue, column: int): Token
  {
    Token(t, v, 1, column)
  }

  function Num(i: int): Expr
  {
    Literal(PlainLiteral, IntConst(i))
  }

  /** The tokens of `5 + 3 * 2`. */
  const SumOfProduct := [
    Tok(NUMBER, Whole(5), 1), Tok(PLUS, Text("+"), 3), Tok(NUMBER, Whole(3), 5),
    Tok(MULTIPLY, Text("*"), 7), Tok(NUMBER, Whole(2), 9), Tok(EOF, NoValue, 10)]

  /** `5 + 3 * 2` parses as `5 + (3 * 2)`, stopping at EOF. */
  lemma SumOfProductGroups()
    ensures Expression(SumOfProduct, Begin(SumOfProduct))
      == Ok((BinaryOp(Num(5), "+", BinaryOp(Num(3), "*", Num(2))), At(SumOfProduct, 5)))
  {
    var ts := SumOfProduct;
    assert Begin(ts) == At(ts, 0);
    NumberOperand(ts, 0);
    NumberOperand(ts, 2);
    NumberOperand(ts, 4);
    AdvanceAt(ts, 1);
    AdvanceAt(ts, 3);
    MultiplicationBindsTighter(ts, At(ts, 0), Num(5), At(ts, 1), Num(3), At(ts, 3), Num(2), At(ts, 5));
  }

  /* Statements and programs. */

  /** `skip_newlines` stops at the first token that is not a NEWLINE. */
  lemma {:induction false} SkipNewlinesTo(ts: seq<Token>, i: nat, k: nat)
    requires i <= k < |ts| && ts[k].tokenType != NEWLINE
    requires forall j :: i <= j < k ==> ts[j].tokenType == NEWLINE
    ensures SkipNewlines(ts, At(ts, i)) == At(ts, k)
    decreases k - i
  {
    if i < k {
      AdvanceAt(ts, i);
      SkipNewlinesTo(ts, i + 1, k);
    }
  }

  /** A token list of blank lines only parses to a program with no statements. */
  lemma NewlinesOnly(ts: seq<Token>)
    requires |ts| > 0 && ts[|ts| - 1].tokenType == EOF
    requires forall j :: 0 <= j < |ts| - 1 ==> ts[j].tokenType == NEWLINE
    ensures Parse(ts) == Ok(Program([]))
  {
    SkipNewlinesTo(ts, 0, |ts| - 1);
    assert Begin(ts) == At(ts, 0);
  }

  /** A parse result with statements put in front of its list. */
  function Prepend(acc: seq<Stmt>, r: Result<seq<Stmt>, ParseError>): Result<seq<Stmt>, ParseError>
  {
    match r
    case Ok(rest) => Ok(acc + rest)
    case Err(e) => Err(e)
  }

  lemma PrependTwice(acc: seq<Stmt>, first: seq<Stmt>, r: Result<seq<Stmt>, ParseError>)
    ensures Prepend(acc, Prepend(first, r)) == Prepend(acc + first, r)
  {
    if r.Ok? {
      assert acc + (first + r.value) == acc + first + r.value;
    }
  }

  /** The statements read so far are kept, in order, ahead of those still to come. */
  lemma {:induction false} ProgramItemsKeepsPrefix(ts: seq<Token>, c: Cursor, acc: seq<Stmt>)
    requires Valid(ts, c)
    ensures ProgramItems(ts, c, acc) == Prepend(acc, ProgramItems(ts, c, []))
    decreases Measure(ts, c)
  {
    if c.current.Some? && !Match(c, {EOF}) {
      var st := Statement(ts, c);
      if st.Ok? {
        var (s, c1) := st.value;
        var c2 := SkipNewlines(ts, c1);
        var first: seq<Stmt> := if s.Some? then [s.value] else [];
        assert first == if s.Some? then [] + [s.value] else [];
        assert ProgramItems(ts, c, []) == ProgramItems(ts, c2, first);
        var next := if s.Some? then acc + [s.value] else acc;
        assert next == acc + first;
        assert ProgramItems(ts, c, acc) == ProgramItems(ts, c2, next);
        ProgramItemsKeepsPrefix(ts, c2, acc + first);
        ProgramItemsKeepsPrefix(ts, c2, first);
        PrependTwice(acc, first, ProgramItems(ts, c2, []));
      }
    } else {
      assert acc + [] == acc;
    }
  }

  /**
   * `parse` is one statement after another: a statement that is not an empty
   * line comes first in the program, followed by the statements after it.
   */
  lemma StatementThenRest(ts: seq<Token>, c: Cursor, s: Option<Stmt>, c1: Cursor)
    requires Valid(ts, c) && !Match(c, {EOF}) && Statement(ts, c) == Ok((s, c1))
    ensures ProgramItems(ts, c, []) == Prepend(if s.Some? then [s.value] else [], ProgramItems(ts, SkipNewlines(ts, c1), []))
  {
    var first: seq<Stmt> := if s.Some? then [s.value] else [];
    assert first == if s.Some? then [] + [s.value] else [];
    assert ProgramItems(ts, c, []) == ProgramItems(ts, SkipNewlines(ts, c1), first);
    ProgramItemsKeepsPrefix(ts, SkipNewlines(ts, c1), if s.Some? then [s.value] else []);
  }

  /** k identifiers from index i, separated by commas and followed by something else. */
  predicate IdentifierList(ts: seq<Token>, i: nat, k: nat)
    ensures IdentifierList(ts, i, k) ==> i + 2 * k - 1 < |ts|
    decreases k
  {
    && k > 0 && i + 1 < |ts| && ts[i].tokenType == IDENTIFIER
    && if k == 1 then ts[i + 1].tokenType != COMMA
       else ts[i + 1].tokenType == COMMA && IdentifierList(ts, i + 2, k - 1)
  }

  /** The names of such a list, in order. */
  function Names(ts: seq<Token>, i: nat, k: nat): (r: seq<string>)
    requires IdentifierList(ts, i, k)
    ensures |r| == k
    decreases k
  {
    [Lexeme(ts[i])] + if k == 1 then [] else Names(ts, i + 2, k - 1)
  }

  lemma CommaParameter(ts: seq<Token>, i: nat, acc: seq<string>)
    requires i + 2 < |ts| && ts[i].tokenType == COMMA && ts[i + 1].tokenType == IDENTIFIER
    ensures MoreParameters(ts, At(ts, i), acc) == MoreParameters(ts, At(ts, i + 2), acc + [Lexeme(ts[i + 1])])
  {
    AdvanceAt(ts, i);
    AdvanceAt(ts, i + 1);
  }

  lemma {:induction false} MoreParametersRead(ts: seq<Token>, i: nat, k: nat, acc: seq<string>)
    requires IdentifierList(ts, i, k)
    ensures MoreParameters(ts, At(ts, i + 1), acc + [Lexeme(ts[i])]) == Ok((acc + Names(ts, i, k), At(ts, i + 2 * k - 1)))
    decreases k
  {
    var acc1 := acc + [Lexeme(ts[i])];
    if k == 1 {
      assert Names(ts, i, k) == [Lexeme(ts[i])];
    } else {
      CommaParameter(ts, i + 1, acc1);
      MoreParametersRead(ts, i + 2, k - 1, acc1);
      assert acc1 + Names(ts, i + 2, k - 1) == acc + Names(ts, i, k);
    }
  }

  /**
   * `with a, b, c` yields the parameter names in order and leaves the cursor
   * on the token after the last name.
   */
  lemma ParametersInOrder(ts: seq<Token>, i: nat, k: nat)
    requires i < |ts| && ts[i].tokenType == WITH && IdentifierList(ts, i + 1, k)
    ensures ParameterClause(ts, At(ts, i)) == Ok((Names(ts, i + 1, k), At(ts, i + 2 * k)))
  {
    AdvanceAt(ts, i);
    ParametersRead(ts, i + 1, k);
  }

  /** The list after `with`, read from its first name. */
  lemma ParametersRead(ts: seq<Token>, i: nat, k: nat)
    requires IdentifierList(ts, i, k)
    ensures Parameters(ts, At(ts, i)) == Ok((Names(ts, i, k), At(ts, i + 2 * k - 1)))
  {
    AdvanceAt(ts, i);
    var first := [Lexeme(ts[i])];
    assert [] + first == first;
    MoreParametersRead(ts, i, k, []);
    assert [] + Names(ts, i, k) == Names(ts, i, k);
  }

  /** Where a body must start: after the colon at c and any blank lines. */
  function BodyStart(ts: seq<Token>, c: Cursor): (r: Cursor)
    requires Valid(ts, c)
    ensures Valid(ts, r)
  {
    SkipNewlines(ts, Advance(ts, c))
  }

  /** `Define name [with ...]:` followed by an indented block is a definition with that body. */
  lemma DefineBuilds(ts: seq<Token>, c: Cursor, params: seq<string>, c3: Cursor, body: seq<Stmt>, c6: Cursor)
    requires Valid(ts, c) && Match(c, {DEFINE}) && Match(Advance(ts, c), {IDENTIFIER})
    requires ParameterClause(ts, Advance(ts, Advance(ts, c))) == Ok((params, c3)) && Match(c3, {COLON})
    requires Match(BodyStart(ts, c3), {INDENT}) && Grammar.Block(ts, BodyStart(ts, c3)) == Ok((body, c6))
    ensures Define(ts, c) == Ok((FunctionDefinition(Lexeme(Advance(ts, c).current.value), params, body), c6))
  {
  }

  /** A definition whose colon is not followed by an indented block is a SyntaxError. */
  lemma DefineNeedsBody(ts: seq<Token>, c: Cursor, params: seq<string>, c3: Cursor)
    requires Valid(ts, c) && Match(c, {DEFINE}) && Match(Advance(ts, c), {IDENTIFIER})
    requires ParameterClause(ts, Advance(ts, Advance(ts, c))) == Ok((params, c3)) && Match(c3, {COLON})
    requires !Match(BodyStart(ts, c3), {INDENT})
    ensures Define(ts, c) == Err(Error(BodyStart(ts, c3), "Expected indented block after function definition"))
  {
  }

  /** The header `If cond then:` ends at c2 (the THEN token). */
  predicate IfHeader(ts: seq<Token>, c: Cursor, cond: Expr, c2: Cursor)
    requires Valid(ts, c)
  {
    && Match(c, {IF}) && Expression(ts, Advance(ts, c)) == Ok((cond, c2))
    && Match(c2, {THEN}) && Match(Advance(ts, c2), {COLON})
  }

  /** Without `else`, the else-branch is the empty list. */
  lemma IfWithoutElse(ts: seq<Token>, c: Cursor, cond: Expr, c2: Cursor, body: seq<Stmt>, c6: Cursor)
    requires Valid(ts, c) && IfHeader(ts, c, cond, c2)
    requires Match(BodyStart(ts, Advance(ts, c2)), {INDENT})
    requires Grammar.Block(ts, BodyStart(ts, Advance(ts, c2))) == Ok((body, c6)) && !Match(c6, {ELSE})
    ensures If(ts, c) == Ok((IfStatement(cond, body, []), c6))
  {
  }

  /** With `else:` and an indented block, that block is the else-branch. */
  lemma IfWithElse(ts: seq<Token>, c: Cursor, cond: Expr, c2: Cursor, body: seq<Stmt>, c6: Cursor, other: seq<Stmt>, c9: Cursor)
    requires Valid(ts, c) && IfHeader(ts, c, cond, c2)
    requires Match(BodyStart(ts, Advance(ts, c2)), {INDENT})
    requires Grammar.Block(ts, BodyStart(ts, Advance(ts, c2))) == Ok((body, c6)) && Match(c6, {ELSE})
    requires Match(Advance(ts, c6), {COLON}) && Match(BodyStart(ts, Advance(ts, c6)), {INDENT})
    requires Grammar.Block(ts, BodyStart(ts, Advance(ts, c6))) == Ok((other, c9))
    ensures If(ts, c) == Ok((IfStatement(cond, body, other), c9))
  {
  }

  /** `then:` must be followed by an indented block. */
  lemma IfNeedsThenBlock(ts: seq<Token>, c: Cursor, cond: Expr, c2: Cursor)
    requires Valid(ts, c) && IfHeader(ts, c, cond, c2)
    requires !Match(BodyStart(ts, Advance(ts, c2)), {INDENT})
    ensures If(ts, c) == Err(Error(BodyStart(ts, Advance(ts, c2)), "Expected indented block after 'then:'"))
  {
  }
}
