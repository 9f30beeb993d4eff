/**
 * The node classes of convo/ast_nodes.py. Expressions and statements are two
 * datatypes, so the Expression and Statement families are disjoint by type
 * and every compound statement (If, While, the For forms, Try, With, Class,
 * Block) is a Stmt. Constructors that derive a field from their arguments
 * are the Make* functions below.
 */
module Ast {

  import opened Wrappers
  import opened Text
  import Tokens

  /** The Python value a literal node carries. */
  datatype Constant =
    | NoneConst
    | BoolConst(b: bool)
    | IntConst(i: int)
    | FloatConst(numeral: string)
    | StrConst(s: string)

  /** Which Literal class a literal node is an instance of. */
  datatype LiteralKind = PlainLiteral | BooleanKind | NumberKind | StringKind | NullKind

  /** An object argument that may be a plain name or an expression node. */
  datatype ObjectRef = Named(name: string) | Node(expr: Expr)

  datatype Expr =
    | Literal(kind: LiteralKind, value: Constant)
    | Identifier(name: string)
    | BinaryOp(left: Expr, operator: string, right: Expr)
    | UnaryOp(operator: string, operand: Expr)
    | ConditionalExpression(condition: Expr, trueExpr: Expr, falseExpr: Expr)
    | FunctionCall(name: string, arguments: seq<Expr>)
    | MethodCall(objectName: ObjectRef, objectExpr: Expr, methodName: string, arguments: seq<Expr>)
    | ListLiteral(elements: seq<Expr>)
    | DictionaryLiteral(pairs: seq<Pair>)
    | TupleLiteral(elements: seq<Expr>)
    | IndexAccess(obj: Expr, objectExpr: Expr, index: Expr)
    | PropertyAccess(obj: Expr, objectExpr: Expr, propertyName: string)
    | SliceAccess(objectExpr: Expr, start: Option<Expr>, end: Option<Expr>)
    | ListComprehension(transformExpr: Expr, variable: string, iterable: Expr, filter: Option<Expr>)
    | ObjectInstantiation(className: string, arguments: seq<Expr>)
    | LambdaExpression(parameters: seq<string>, body: Expr)

  /** One (key, value) entry of a dictionary literal. */
  datatype Pair = Pair(key: Expr, value: Expr)

  datatype Stmt =
    | ExpressionStatement(expression: Expr)
    | SayStatement(expression: Expr)
    | LetStatement(name: string, value: Expr)
    | AssignmentStatement(target: string, value: Expr)
    | CompoundAssignmentStatement(target: string, operator: string, value: Expr)
    | PropertyAssignmentStatement(objectName: string, objectExpr: Expr, propertyName: string, value: Expr)
    | IndexAssignmentStatement(objectExpr: Expr, index: Expr, value: Expr)
    /** `CallStatement(FunctionCall(name, arguments))`, the call node flattened. */
    | CallStatement(name: string, arguments: seq<Expr>)
    | FunctionDefinition(name: string, parameters: seq<string>, body: seq<Stmt>)
    | ReturnStatement(result: Option<Expr>)
    | BreakStatement
    | ContinueStatement
    | PassStatement
    | IfStatement(condition: Expr, thenBlock: seq<Stmt>, elseBlock: seq<Stmt>)
    | WhileStatement(condition: Expr, body: seq<Stmt>)
    | ForStatement(variable: string, iterable: Expr, body: seq<Stmt>)
    | ForIndexStatement(itemVar: string, indexVar: string, iterable: Expr, body: seq<Stmt>)
    | ForUnpackStatement(variables: seq<string>, iterable: Expr, body: seq<Stmt>)
    | TryStatement(tryBlock: seq<Stmt>, catchBlock: seq<Stmt>, exceptionVar: Option<string>)
    | WithStatement(contextExpr: Expr, alias: Option<string>, body: seq<Stmt>)
    | ClassDefinition(name: string, constructorParams: seq<string>, body: seq<Stmt>, parentClass: Option<string>)
    | Block(statements: seq<Stmt>)
    | ThrowStatement(expression: Expr)
    | ImportStatement(moduleName: string, alias: Option<string>)
    | FromImportStatement(moduleName: string, imports: seq<string>, aliases: seq<string>)

  datatype Program = Program(statements: seq<Stmt>)

  /** The Python class name of an expression node. */
  function ExprClass(e: Expr): string
  {
    match e
    case Literal(kind, _) =>
      (match kind
       case PlainLiteral => "Literal"
       case BooleanKind => "BooleanLiteral"
       case NumberKind => "NumberLiteral"
       case StringKind => "StringLiteral"
       case NullKind => "NullLiteral")
    case Identifier(_) => "Identifier"
    case BinaryOp(_, _, _) => "BinaryOp"
    case UnaryOp(_, _) => "UnaryOp"
    case ConditionalExpression(_, _, _) => "ConditionalExpression"
    case FunctionCall(_, _) => "FunctionCall"
    case MethodCall(_, _, _, _) => "MethodCall"
    case ListLiteral(_) => "ListLiteral"
    case DictionaryLiteral(_) => "DictionaryLiteral"
    case TupleLiteral(_) => "TupleLiteral"
    case IndexAccess(_, _, _) => "IndexAccess"
    case PropertyAccess(_, _, _) => "PropertyAccess"
    case SliceAccess(_, _, _) => "SliceAccess"
    case ListComprehension(_, _, _, _) => "ListComprehension"
    case ObjectInstantiation(_, _) => "ObjectInstantiation"
    case LambdaExpression(_, _) => "LambdaExpression"
  }

  /** The Python class name of a statement node. */
  function StmtClass(s: Stmt): string
  {
    match s
    case ExpressionStatement(_) => "ExpressionStatement"
    case SayStatement(_) => "SayStatement"
    case LetStatement(_, _) => "LetStatement"
    case AssignmentStatement(_, _) => "AssignmentStatement"
    case CompoundAssignmentStatement(_, _, _) => "CompoundAssignmentStatement"
    case PropertyAssignmentStatement(_, _, _, _) => "PropertyAssignmentStatement"
    case IndexAssignmentStatement(_, _, _) => "IndexAssignmentStatement"
    case CallStatement(_, _) => "CallStatement"
    case FunctionDefinition(_, _, _) => "FunctionDefinition"
    case ReturnStatement(_) => "ReturnStatement"
    case BreakStatement => "BreakStatement"
    case ContinueStatement => "ContinueStatement"
    case PassStatement => "PassStatement"
    case IfStatement(_, _, _) => "IfStatement"
    case WhileStatement(_, _) => "WhileStatement"
    case ForStatement(_, _, _) => "ForStatement"
    case ForIndexStatement(_, _, _, _) => "ForIndexStatement"
    case ForUnpackStatement(_, _, _) => "ForUnpackStatement"
    case TryStatement(_, _, _) => "TryStatement"
    case WithStatement(_, _, _) => "WithStatement"
    case ClassDefinition(_, _, _, _) => "ClassDefinition"
    case Block(_) => "Block"
    case ThrowStatement(_) => "ThrowStatement"
    case ImportStatement(_, _) => "ImportStatement"
    case FromImportStatement(_, _, _) => "FromImportStatement"
  }

  /** How Python formats `type(node)` for a class of this module. */
  function TypeText(className: string): string
  {
    "<class 'convo.ast_nodes." + className + "'>"
  }

  /** The CompoundStatement subclasses. */
  predicate IsCompound(s: Stmt)
  {
    s.IfStatement? || s.WhileStatement? || s.ForStatement? || s.ForIndexStatement?
    || s.ForUnpackStatement? || s.TryStatement? || s.WithStatement? || s.ClassDefinition? || s.Block?
  }

  function BooleanLiteral(b: bool): (e: Expr)
    ensures e.Literal? && e.value == BoolConst(b)
  {
    Literal(BooleanKind, BoolConst(b))
  }

  /** NumberLiteral over an int or a float numeral. */
  function NumberLiteral(n: Constant): (e: Expr)
    requires n.IntConst? || n.FloatConst?
    ensures e.Literal? && e.value == n
  {
    Literal(NumberKind, n)
  }

  function StringLiteral(s: string): (e: Expr)
    ensures e.Literal? && e.value == StrConst(s)
  {
    Literal(StringKind, StrConst(s))
  }

  function NullLiteral(): (e: Expr)
    ensures e.Literal? && e.value == NoneConst
  {
    Literal(NullKind, NoneConst)
  }

  /** `MethodCall.__init__`: a name becomes an Identifier node; the name itself is kept too. */
  function MakeMethodCall(objectName: ObjectRef, methodName: string, arguments: seq<Expr>): (e: Expr)
    ensures e.MethodCall? && e.objectName == objectName && e.methodName == methodName && e.arguments == arguments
    ensures objectName.Named? ==> e.objectExpr == Identifier(objectName.name)
    ensures objectName.Node? ==> e.objectExpr == objectName.expr
  {
    MethodCall(objectName, match objectName case Named(n) => Identifier(n) case Node(x) => x, methodName, arguments)
  }

  /** `IndexAccess.__init__`: `object_expr` is the object node itself. */
  function MakeIndexAccess(obj: Expr, index: Expr): (e: Expr)
    ensures e.IndexAccess? && e.obj == obj && e.objectExpr == obj && e.index == index
  {
    IndexAccess(obj, obj, index)
  }

  /** `PropertyAccess.__init__`: `object_expr` is the object node itself. */
  function MakePropertyAccess(obj: Expr, propertyName: string): (e: Expr)
    ensures e.PropertyAccess? && e.obj == obj && e.objectExpr == obj && e.propertyName == propertyName
  {
    PropertyAccess(obj, obj, propertyName)
  }

  /**
   * `PropertyAssignmentStatement.__init__`: a name gives an Identifier node;
   * an expression node is kept and its name is `str(node)`, which for these
   * classes is their `__repr__`.
   */
  function MakePropertyAssignment(obj: ObjectRef, propertyName: string, value: Expr): (s: Stmt)
    ensures s.PropertyAssignmentStatement? && s.propertyName == propertyName && s.value == value
    ensures obj.Named? ==> s.objectName == obj.name && s.objectExpr == Identifier(obj.name)
    ensures obj.Node? ==> s.objectExpr == obj.expr && s.objectName == Repr(obj.expr)
  {
    match obj
    case Named(n) => PropertyAssignmentStatement(n, Identifier(n), propertyName, value)
    case Node(x) => PropertyAssignmentStatement(Repr(x), x, propertyName, value)
  }

  /** `IfStatement.__init__`: `else_block or []`. */
  function MakeIf(condition: Expr, thenBlock: seq<Stmt>, elseBlock: Option<seq<Stmt>>): (s: Stmt)
    ensures s.IfStatement? && s.condition == condition && s.thenBlock == thenBlock
    ensures s.elseBlock == if elseBlock.Some? then elseBlock.value else []
  {
    IfStatement(condition, thenBlock, match elseBlock case Some(b) => b case None => [])
  }

  /** `FromImportStatement.__init__`: `aliases or []`. */
  function MakeFromImport(moduleName: string, imports: seq<string>, aliases: Option<seq<string>>): (s: Stmt)
    ensures s.FromImportStatement? && s.moduleName == moduleName && s.imports == imports
    ensures s.aliases == if aliases.Some? then aliases.value else []
  {
    FromImportStatement(moduleName, imports, match aliases case Some(a) => a case None => [])
  }

  /** The `location` property every node inherits from ASTNode. */
  class Location {
    var stored: Option<(int, int)>

    constructor ()
      ensures stored == None && Get() == (0, 0)
    {
      stored := None;
    }

    /** The getter: the stored pair, or (0, 0) when none was set. */
    function Get(): (int, int)
      reads this
    {
      match stored
      case Some(p) => p
      case None => (0, 0)
    }

    method Set(p: (int, int))
      modifies this
      ensures Get() == p
    {
      stored := Some(p);
    }
  }

  /* Python's repr of the nodes, needed for PropertyAssignmentStatement. */

  function HexDigit(n: nat): char
    requires n < 16
  {
    if n < 10 then ('0' as int + n) as char else ('a' as int + n - 10) as char
  }

  /** One character inside the quotes of Python's repr of a str. */
  function ReprChar(c: char, quote: char): string
  {
    if c == quote || c == '\\' then ['\\', c]
    else if c == '\t' then "\\t"
    else if c == '\n' then "\\n"
    else if c == '\r' then "\\r"
    else if c as int < 32 || c as int == 127 then ['\\', 'x', HexDigit(c as int / 16), HexDigit(c as int % 16)]
    else [c]
  }

  function ReprChars(s: string, quote: char): string
  {
    if s == [] then "" else ReprChar(s[0], quote) + ReprChars(s[1..], quote)
  }

  /** `repr(s)`: single quotes, unless s holds a single quote and no double quote. */
  function ReprString(s: string): string
  {
    var quote := if '\'' in s && '"' !in s then '"' else '\'';
    [quote] + ReprChars(s, quote) + [quote]
  }

  function BoolText(b: bool): string
  {
    if b then "True" else "False"
  }

  /** `repr` of a literal's value. */
  function ReprConstant(c: Constant): string
  {
    match c
    case NoneConst => "None"
    case BoolConst(b) => BoolText(b)
    case IntConst(i) => IntToString(i)
    case FloatConst(n) => Tokens.FloatText(n)
    case StrConst(s) => ReprString(s)
  }

  function ReprNames(names: seq<string>): string
  {
    if names == [] then ""
    else if |names| == 1 then ReprString(names[0])
    else ReprString(names[0]) + ", " + ReprNames(names[1..])
  }

  function ReprOptional(o: Option<Expr>): string
    decreases o, 1
  {
    match o
    case None => "None"
    case Some(x) => Repr(x)
  }

  function ReprItems(es: seq<Expr>): string
    decreases es, 0
  {
    if es == [] then ""
    else if |es| == 1 then Repr(es[0])
    else Repr(es[0]) + ", " + ReprItems(es[1..])
  }

  function ReprPairs(ps: seq<Pair>): string
    decreases ps, 0
  {
    if ps == [] then ""
    else
      var item := ReprPair(ps[0]);
      if |ps| == 1 then item else item + ", " + ReprPairs(ps[1..])
  }

  /** A (key, value) tuple. */
  function ReprPair(p: Pair): string
    decreases p, 1
  {
    "(" + Repr(p.key) + ", " + Repr(p.value) + ")"
  }

  function ReprObject(o: ObjectRef): string
    decreases o, 1
  {
    match o
    case Named(n) => ReprString(n)
    case Node(x) => Repr(x)
  }

  /** `Name(inner)`, the shape of every `__repr__`. */
  function Node(name: string, inner: string): (r: string)
    ensures |r| > |name| + 1 && r[..|name| + 1] == name + "(" && r[|r| - 1] == ')'
  {
    name + "(" + inner + ")"
  }

  /** The `__repr__` of every expression class: its class name around its arguments. */
  function Repr(e: Expr): (r: string)
    decreases e, 3
    ensures |r| > |ExprClass(e)| + 1 && r[..|ExprClass(e)| + 1] == ExprClass(e) + "(" && r[|r| - 1] == ')'
  {
    Node(ExprClass(e), ReprArgs(e))
  }

  /** What each expression class's `__repr__` writes between the parentheses. */
  function ReprArgs(e: Expr): string
    decreases e, 2
  {
    match e
    case Literal(kind, value) =>
      (match kind
       case PlainLiteral => ReprConstant(value)
       case BooleanKind => if value.BoolConst? then BoolText(value.b) else ReprConstant(value)
       case NumberKind => ReprConstant(value)
       case StringKind => ReprConstant(value)
       case NullKind => "")
    case Identifier(name) => ReprString(name)
    case BinaryOp(l, op, r) => Repr(l) + ", " + ReprString(op) + ", " + Repr(r)
    case UnaryOp(op, x) => ReprString(op) + ", " + Repr(x)
    case ConditionalExpression(c, t, f) => Repr(c) + ", " + Repr(t) + ", " + Repr(f)
    case FunctionCall(name, args) => ReprString(name) + ", [" + ReprItems(args) + "]"
    case MethodCall(objectName, _, m, args) =>
      ReprObject(objectName) + ", " + ReprString(m) + ", [" + ReprItems(args) + "]"
    case ListLiteral(es) => "[" + ReprItems(es) + "]"
    case DictionaryLiteral(ps) => "[" + ReprPairs(ps) + "]"
    case TupleLiteral(es) => "[" + ReprItems(es) + "]"
    case IndexAccess(o, _, i) => Repr(o) + ", " + Repr(i)
    case PropertyAccess(o, _, p) => Repr(o) + ", " + ReprString(p)
    case SliceAccess(o, s, t) => Repr(o) + ", " + ReprOptional(s) + ", " + ReprOptional(t)
    case ListComprehension(t, v, it, c) =>
      Repr(t) + ", " + ReprString(v) + ", " + Repr(it)
        + (if c.Some? then ", " + Repr(c.value) else "")
    case ObjectInstantiation(cn, args) => ReprString(cn) + ", [" + ReprItems(args) + "]"
    case LambdaExpression(ps, b) => "[" + ReprNames(ps) + "], " + Repr(b)
  }
}
