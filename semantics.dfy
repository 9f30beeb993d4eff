/**
 * What the Interpreter class of convo/interpreter.py computes, as functions.
 *
 * The environment chain is a sequence of frames, the current frame first and
 * the global frame last. A Block pushes a frame; a call runs its body on the
 * two frames [call frame, global frame]. Only the current frame is ever
 * written (`define`), so a statement leaves every outer frame as it was and
 * an expression, calls included, leaves all frames as they were.
 *
 * Python has no bound on loops or recursion; here every While iteration and
 * every call spends one unit of `fuel`, and an exhausted budget stops with
 * OutOfFuel.
 */
module Semantics {

  import opened Wrappers
  import opened Text
  import opened Ast
  import opened Values

  /** The interpreter's fields: the environment chain, `output`, and the next function identity. */
  datatype State = State(frames: seq<Frame>, out: seq<string>, serial: nat)

  /** A step that finished normally with a value, or stopped with a failure; both carry the state. */
  datatype Outcome<T> = Normal(value: T, st: State) | Abrupt(failure: Failure, st: State)

  /** The global frame after `_define_builtins`. */
  const Builtins: Frame := map["true" := Bool(true), "false" := Bool(false), "null" := Null]

  /** A fresh Interpreter. */
  const Start := State([Builtins], [], 0)

  /** `Environment.get` from the first frame of the chain. */
  function Lookup(frames: seq<Frame>, name: string): (r: Result<Value, Failure>)
    ensures r.Err? ==> r.error == RuntimeError("Undefined variable: " + name)
  {
    if |frames| == 0 then Err(RuntimeError("Undefined variable: " + name))
    else if name in frames[0] then Ok(frames[0][name])
    else Lookup(frames[1..], name)
  }

  /** `Environment.set`: rebinds the name in the first frame that has it. */
  function Assign(frames: seq<Frame>, name: string, v: Value): (r: Result<seq<Frame>, Failure>)
    ensures r.Ok? ==> |r.value| == |frames|
    ensures r.Err? ==> r.error == RuntimeError("Undefined variable: " + name)
  {
    if |frames| == 0 then Err(RuntimeError("Undefined variable: " + name))
    else if name in frames[0] then Ok([frames[0][name := v]] + frames[1..])
    else
      var rest :- Assign(frames[1..], name, v);
      Ok([frames[0]] + rest)
  }

  /** The closure replayed, then each parameter bound to its argument in order. */
  function Bind(frame: Frame, parameters: seq<string>, arguments: seq<Value>): Frame
    requires |parameters| == |arguments|
    decreases |parameters|
  {
    if |parameters| == 0 then frame
    else Bind(frame[parameters[0] := arguments[0]], parameters[1..], arguments[1..])
  }

  /** The frame a call runs in. */
  function CallFrame(f: Value, arguments: seq<Value>): Frame
    requires f.Func? && |f.parameters| == |arguments|
  {
    Bind(f.closure, f.parameters, arguments)
  }

  /* Sizes of the nodes the evaluator descends into; with fuel, the termination measure. */

  function ExprSize(e: Expr): nat
  {
    match e
    case BinaryOp(l, _, r) => 1 + ExprSize(l) + ExprSize(r)
    case UnaryOp(_, x) => 1 + ExprSize(x)
    case FunctionCall(_, args) => 2 + ExprsSize(args)
    case _ => 1
  }

  function ExprsSize(es: seq<Expr>): nat
  {
    if |es| == 0 then 0 else 1 + ExprSize(es[0]) + ExprsSize(es[1..])
  }

  function StmtSize(s: Stmt): nat
  {
    match s
    case SayStatement(e) => 2 + ExprSize(e)
    case LetStatement(_, e) => 2 + ExprSize(e)
    case CallStatement(_, args) => 2 + ExprsSize(args)
    case IfStatement(c, t, e) => 2 + ExprSize(c) + StmtsSize(t) + StmtsSize(e)
    case WhileStatement(c, body) => 2 + ExprSize(c) + StmtsSize(body)
    case Block(ss) => 2 + StmtsSize(ss)
    case _ => 1
  }

  function StmtsSize(ss: seq<Stmt>): nat
  {
    if |ss| == 0 then 0 else 1 + StmtSize(ss[0]) + StmtsSize(ss[1..])
  }

  /** Only the current frame may change; the output only grows; identities are never reused. */
  predicate Keeps(st: State, st1: State)
  {
    && |st.frames| > 0 && |st1.frames| == |st.frames| && st1.frames[1..] == st.frames[1..]
    && st.out <= st1.out && st.serial <= st1.serial
  }

  /** An expression changes no frame. */
  predicate KeepsFrames(st: State, st1: State)
  {
    st1.frames == st.frames && st.out <= st1.out && st.serial <= st1.serial
  }

  /** The message for an expression class the interpreter has no case for. */
  function UnknownExpression(e: Expr): string
  {
    "Unknown expression type: " + TypeText(ExprClass(e))
  }

  /** `evaluate_expression`. */
  function Eval(e: Expr, st: State, fuel: nat): (r: Outcome<Value>)
    requires |st.frames| > 0
    ensures KeepsFrames(st, r.st)
    decreases fuel, ExprSize(e), 1
  {
    match e
    case Literal(_, c) => Normal(ConstantValue(c), st)
    case Identifier(name) =>
      (match Lookup(st.frames, name)
       case Ok(v) => Normal(v, st)
       case Err(f) => Abrupt(f, st))
    case BinaryOp(l, op, r) => EvalBinary(l, op, r, st, fuel)
    case UnaryOp(op, x) => EvalUnary(op, x, st, fuel)
    case FunctionCall(name, args) => Call(name, args, st, fuel)
    case _ => Abrupt(RuntimeError(UnknownExpression(e)), st)
  }

  /** `evaluate_binary_op`: both operands, left first, whatever the operator. */
  function EvalBinary(l: Expr, op: string, r: Expr, st: State, fuel: nat): (res: Outcome<Value>)
    requires |st.frames| > 0
    ensures KeepsFrames(st, res.st)
    decreases fuel, 1 + ExprSize(l) + ExprSize(r), 0
  {
    match Eval(l, st, fuel)
    case Abrupt(f, st1) => Abrupt(f, st1)
    case Normal(a, st1) =>
      match Eval(r, st1, fuel)
      case Abrupt(f, st2) => Abrupt(f, st2)
      case Normal(b, st2) =>
        match BinaryValue(op, a, b)
        case Ok(v) => Normal(v, st2)
        case Err(f) => Abrupt(f, st2)
  }

  /** `evaluate_unary_op`. */
  function EvalUnary(op: string, x: Expr, st: State, fuel: nat): (res: Outcome<Value>)
    requires |st.frames| > 0
    ensures KeepsFrames(st, res.st)
    decreases fuel, 1 + ExprSize(x), 0
  {
    match Eval(x, st, fuel)
    case Abrupt(f, st1) => Abrupt(f, st1)
    case Normal(a, st1) =>
      match UnaryValue(op, a)
      case Ok(v) => Normal(v, st1)
      case Err(f) => Abrupt(f, st1)
  }

  /** The argument list, evaluated left to right. */
  function EvalArgs(args: seq<Expr>, st: State, fuel: nat): (r: Outcome<seq<Value>>)
    requires |st.frames| > 0
    ensures KeepsFrames(st, r.st)
    ensures r.Normal? ==> |r.value| == |args|
    decreases fuel, ExprsSize(args)
  {
    if |args| == 0 then Normal([], st)
    else
      match Eval(args[0], st, fuel)
      case Abrupt(f, st1) => Abrupt(f, st1)
      case Normal(v, st1) =>
        match EvalArgs(args[1..], st1, fuel)
        case Abrupt(f, st2) => Abrupt(f, st2)
        case Normal(vs, st2) => Normal([v] + vs, st2)
  }

  /** The message of an argument-count mismatch. */
  function ArityMessage(f: Value, given: nat): string
    requires f.Func?
  {
    "Function '" + f.name + "' expects " + IntToString(|f.parameters|) + " arguments, got " + IntToString(given)
  }

  /**
   * `evaluate_function_call`: look the name up, check it is a function,
   * evaluate the arguments, check their number, run the body.
   */
  function Call(name: string, args: seq<Expr>, st: State, fuel: nat): (r: Outcome<Value>)
    requires |st.frames| > 0
    ensures KeepsFrames(st, r.st)
    ensures r.Normal? ==> r.value == Null
    decreases fuel, ExprsSize(args) + 1
  {
    match Lookup(st.frames, name)
    case Err(f) => Abrupt(f, st)
    case Ok(fn) =>
      if !fn.Func? then Abrupt(RuntimeError("'" + name + "' is not a function"), st)
      else
        match EvalArgs(args, st, fuel)
        case Abrupt(f, st1) => Abrupt(f, st1)
        case Normal(vs, st1) =>
          if |vs| != |fn.parameters| then Abrupt(RuntimeError(ArityMessage(fn, |vs|)), st1)
          else Invoke(fn, vs, st1, fuel)
  }

  /**
   * The body of a function run on [call frame, global frame]; the caller's
   * frames come back whatever happens, and the result is always null.
   */
  function Invoke(fn: Value, vs: seq<Value>, st: State, fuel: nat): (r: Outcome<Value>)
    requires |st.frames| > 0 && fn.Func? && |vs| == |fn.parameters|
    ensures KeepsFrames(st, r.st)
    ensures r.Normal? ==> r.value == Null
    decreases fuel, 0
  {
    if fuel == 0 then Abrupt(OutOfFuel, st)
    else
      var inner := State([CallFrame(fn, vs), st.frames[|st.frames| - 1]], st.out, st.serial);
      var back := Restore(ExecStmts(fn.body, inner, fuel - 1), st);
      if back.Normal? then Normal(Null, back.st) else Abrupt(back.failure, back.st)
  }

  /** The caller's frames back after a run in other frames, keeping what the run output and allocated. */
  function Restore(r: Outcome<()>, st: State): (back: Outcome<()>)
    ensures back.st.frames == st.frames
    ensures back.st.out == r.st.out && back.st.serial == r.st.serial
    ensures back.Normal? == r.Normal? && (r.Abrupt? ==> back.failure == r.failure)
  {
    var back := State(st.frames, r.st.out, r.st.serial);
    if r.Normal? then Normal((), back) else Abrupt(r.failure, back)
  }

  /** The message for a statement class the interpreter has no case for. */
  function UnknownStatement(s: Stmt): string
  {
    "Unknown statement type: " + TypeText(StmtClass(s))
  }

  /** `execute_statement`: each statement class to its own step. */
  function Exec(s: Stmt, st: State, fuel: nat): (r: Outcome<()>)
    requires |st.frames| > 0
    ensures Keeps(st, r.st)
    decreases fuel, StmtSize(s)
  {
    match s
    case SayStatement(e) => ExecSay(e, st, fuel)
    case LetStatement(name, e) => ExecLet(name, e, st, fuel)
    case FunctionDefinition(name, parameters, body) => Normal((), Define(name, parameters, body, st))
    case CallStatement(name, args) =>
      (match Call(name, args, st, fuel)
       case Abrupt(f, st1) => Abrupt(f, st1)
       case Normal(_, st1) => Normal((), st1))
    case IfStatement(c, thenBlock, elseBlock) => ExecIf(c, thenBlock, elseBlock, st, fuel)
    case WhileStatement(c, body) => ExecWhile(c, body, st, fuel)
    case Block(ss) => ExecBlock(ss, st, fuel)
    case _ => Abrupt(RuntimeError(UnknownStatement(s)), st)
  }

  /** `execute_say_statement`: the stringified value becomes one more output line. */
  function ExecSay(e: Expr, st: State, fuel: nat): (r: Outcome<()>)
    requires |st.frames| > 0
    ensures Keeps(st, r.st)
    decreases fuel, 1 + ExprSize(e)
  {
    match Eval(e, st, fuel)
    case Abrupt(f, st1) => Abrupt(f, st1)
    case Normal(v, st1) =>
      match Stringify(v)
      case Ok(text) => Normal((), st1.(out := st1.out + [text]))
      case Err(f) => Abrupt(f, st1)
  }

  /** `execute_let_statement`: `define` in the current frame. */
  function ExecLet(name: string, e: Expr, st: State, fuel: nat): (r: Outcome<()>)
    requires |st.frames| > 0
    ensures Keeps(st, r.st)
    decreases fuel, 1 + ExprSize(e)
  {
    match Eval(e, st, fuel)
    case Abrupt(f, st1) => Abrupt(f, st1)
    case Normal(v, st1) => Normal((), st1.(frames := [st1.frames[0][name := v]] + st1.frames[1..]))
  }

  /**
   * `execute_function_definition`: a new function, whose closure is a copy of
   * the current frame as it is now, bound in the current frame.
   */
  function Define(name: string, parameters: seq<string>, body: seq<Stmt>, st: State): (st1: State)
    requires |st.frames| > 0
    ensures Keeps(st, st1)
  {
    var fn := Func(st.serial, name, parameters, body, st.frames[0]);
    State([st.frames[0][name := fn]] + st.frames[1..], st.out, st.serial + 1)
  }

  /** `execute_if_statement`: the chosen block runs in the current frame. */
  function ExecIf(c: Expr, thenBlock: seq<Stmt>, elseBlock: seq<Stmt>, st: State, fuel: nat): (r: Outcome<()>)
    requires |st.frames| > 0
    ensures Keeps(st, r.st)
    decreases fuel, 1 + ExprSize(c) + StmtsSize(thenBlock) + StmtsSize(elseBlock)
  {
    match Eval(c, st, fuel)
    case Abrupt(f, st1) => Abrupt(f, st1)
    case Normal(v, st1) =>
      match Truthy(v)
      case Err(f) => Abrupt(f, st1)
      case Ok(t) =>
        if t then ExecStmts(thenBlock, st1, fuel)
        else if |elseBlock| > 0 then ExecStmts(elseBlock, st1, fuel)
        else Normal((), st1)
  }

  /** `execute_while_statement`: the body runs in the current frame; each further round costs one unit of fuel. */
  function ExecWhile(c: Expr, body: seq<Stmt>, st: State, fuel: nat): (r: Outcome<()>)
    requires |st.frames| > 0
    ensures Keeps(st, r.st)
    decreases fuel, 1 + ExprSize(c) + StmtsSize(body)
  {
    match Eval(c, st, fuel)
    case Abrupt(f, st1) => Abrupt(f, st1)
    case Normal(v, st1) =>
      match Truthy(v)
      case Err(f) => Abrupt(f, st1)
      case Ok(t) =>
        if !t then Normal((), st1)
        else
          match ExecStmts(body, st1, fuel)
          case Abrupt(f, st2) => Abrupt(f, st2)
          case Normal(_, st2) =>
            if fuel == 0 then Abrupt(OutOfFuel, st2) else ExecWhile(c, body, st2, fuel - 1)
  }

  /** `execute_block`: a new frame for the statements, dropped afterwards whatever happens. */
  function ExecBlock(ss: seq<Stmt>, st: State, fuel: nat): (r: Outcome<()>)
    requires |st.frames| > 0
    ensures r.st.frames == st.frames && st.out <= r.st.out && st.serial <= r.st.serial
    decreases fuel, 1 + StmtsSize(ss)
  {
    Restore(ExecStmts(ss, st.(frames := [map[]] + st.frames), fuel), st)
  }

  /** The statements of a list in order, stopping at the first failure. */
  function ExecStmts(ss: seq<Stmt>, st: State, fuel: nat): (r: Outcome<()>)
    requires |st.frames| > 0
    ensures Keeps(st, r.st)
    decreases fuel, StmtsSize(ss)
  {
    if |ss| == 0 then Normal((), st)
    else
      match Exec(ss[0], st, fuel)
      case Abrupt(f, st1) => Abrupt(f, st1)
      case Normal(_, st1) => ExecStmts(ss[1..], st1, fuel)
  }

  /**
   * `interpret`: the output restarts empty; a ConvoRuntimeError adds one
   * "Runtime Error: MSG" line and ends the run normally; any other failure
   * escapes.
   */
  function Interpret(p: Program, st: State, fuel: nat): (r: Outcome<seq<string>>)
    requires |st.frames| > 0
    ensures r.Normal? ==> r.value == r.st.out
    ensures r.Abrupt? ==> !r.failure.RuntimeError?
  {
    match ExecStmts(p.statements, st.(out := []), fuel)
    case Normal(_, st1) => Normal(st1.out, st1)
    case Abrupt(RuntimeError(m), st1) =>
      var st2 := st1.(out := st1.out + ["Runtime Error: " + m]);
      Normal(st2.out, st2)
    case Abrupt(f, st1) => Abrupt(f, st1)
  }
}
