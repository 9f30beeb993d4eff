/**
 * The `Environment` and `Interpreter` classes of convo/interpreter.py.
 *
 * Environments are objects linked to their parents, and each holds its own
 * `variables` dictionary that `define` updates in place. The interpreter
 * keeps the global and the current environment and the output list. Every
 * method is proved to compute what module Semantics says, reading the chain
 * of environments from the current one as its sequence of frames, so the
 * properties proved there hold of the classes.
 *
 * A raised exception becomes an `Err` result. The `finally` clauses of
 * `execute_block` and `evaluate_function_call` are modelled: the current
 * environment is restored on every path.
 */
module InterpreterClass {

  import opened Wrappers
  import opened Text
  import opened Ast
  import opened Values
  import opened Semantics

  class Environment {
    const parent: Environment?
    /** The parent, its parent, and so on up to the outermost environment. */
    ghost const repr: set<Environment>
    /** The number of ancestors. */
    ghost const depth: nat
    var variables: map<string, Value>

    /** The parent links form a finite chain without cycles. */
    ghost predicate Linked()
      decreases depth
    {
      if parent == null then repr == {} && depth == 0
      else repr == {parent} + parent.repr && this !in repr && depth == parent.depth + 1 && parent.Linked()
    }

    /** The outermost environment of the chain. */
    ghost function Root(): Environment
      requires Linked()
      decreases depth
    {
      if parent == null then this else parent.Root()
    }

    /** The `variables` of this environment and of each ancestor, nearest first, the outermost last. */
    ghost function Frames(): (r: seq<Frame>)
      requires Linked()
      reads this, repr
      ensures |r| == depth + 1 && r[0] == variables && r[depth] == Root().variables
      decreases depth
    {
      [variables] + if parent == null then [] else parent.Frames()
    }

    constructor (parent: Environment?)
      requires parent != null ==> parent.Linked()
      ensures this.parent == parent && Linked() && variables == map[]
      ensures repr == (if parent == null then {} else {parent} + parent.repr)
      ensures Root() == if parent == null then this else parent.Root()
      ensures Frames() == [map[]] + if parent == null then [] else old(parent.Frames())
    {
      this.parent := parent;
      repr := if parent == null then {} else {parent} + parent.repr;
      depth := if parent == null then 0 else parent.depth + 1;
      variables := map[];
    }

    /** `define`: binds the name in this environment only. */
    method Define(name: string, value: Value)
      requires Linked()
      modifies this
      ensures variables == old(variables)[name := value]
      ensures Frames() == [variables] + old(Frames())[1..]
    {
      variables := variables[name := value];
      if parent != null {
        FramesKept(parent);
      }
    }

    /** `get`: this environment first, then the parents. */
    method Get(name: string) returns (r: Result<Value, Failure>)
      requires Linked()
      ensures r == Lookup(Frames(), name)
      decreases depth
    {
      if name in variables {
        return Ok(variables[name]);
      } else if parent != null {
        r := parent.Get(name);
      } else {
        return Err(RuntimeError("Undefined variable: " + name));
      }
    }

    /** `set`: rebinds the name where `get` would find it. */
    method Set(name: string, value: Value) returns (r: Result<(), Failure>)
      requires Linked()
      modifies this, repr
      ensures var spec := Assign(old(Frames()), name, value);
        && (r.Ok? <==> spec.Ok?)
        && (r.Ok? ==> Frames() == spec.value)
        && (r.Err? ==> r.error == spec.error)
      decreases depth
    {
      if name in variables {
        variables := variables[name := value];
        if parent != null {
          FramesKept(parent);
        }
        return Ok(());
      } else if parent != null {
        r := parent.Set(name, value);
      } else {
        return Err(RuntimeError("Undefined variable: " + name));
      }
    }
  }

  /** An environment whose chain was not written to still has the frames it had. */
  twostate lemma {:induction false} FramesKept(e: Environment)
    requires e.Linked() && unchanged(e) && unchanged(e.repr)
    ensures e.Frames() == old(e.Frames())
    decreases e.depth
  {
    if e.parent != null {
      FramesKept(e.parent);
    }
  }

  /** A method's result together with the state it leaves, as an Outcome. */
  function Pack<T>(r: Result<T, Failure>, st: State): Outcome<T>
  {
    match r
    case Ok(v) => Normal(v, st)
    case Err(f) => Abrupt(f, st)
  }

  /** Putting the caller's frames back under an outcome, as the `finally` clauses do. */
  lemma PackRestore(r: Result<(), Failure>, mid: State, res: Outcome<()>, st: State)
    requires Pack(r, mid) == res
    ensures Pack(r, Semantics.State(st.frames, mid.out, mid.serial)) == Restore(res, st)
  {
    if r.Ok? {
      assert r.value == ();
    }
  }

  lemma {:induction false} ExprsSizeElement(es: seq<Expr>, i: nat)
    requires i < |es|
    ensures ExprSize(es[i]) < ExprsSize(es)
    decreases i
  {
    if i > 0 {
      ExprsSizeElement(es[1..], i - 1);
    }
  }

  lemma {:induction false} StmtsSizeElement(ss: seq<Stmt>, i: nat)
    requires i < |ss|
    ensures StmtSize(ss[i]) < StmtsSize(ss)
    decreases i
  {
    if i > 0 {
      StmtsSizeElement(ss[1..], i - 1);
    }
  }

  /** The outcome of an argument list with the values already computed in front. */
  function PrependValues(vs: seq<Value>, r: Outcome<seq<Value>>): Outcome<seq<Value>>
  {
    if r.Normal? then Normal(vs + r.value, r.st) else r
  }

  /** One more argument: the outcome of the rest of the list, given the outcome of its first element. */
  lemma EvalArgsStep(args: seq<Expr>, i: nat, vs: seq<Value>, st: State, fuel: nat)
    requires i < |args| && |st.frames| > 0
    ensures var first := Eval(args[i], st, fuel);
      PrependValues(vs, EvalArgs(args[i..], st, fuel))
        == if first.Abrupt? then Abrupt(first.failure, first.st)
           else PrependValues(vs + [first.value], EvalArgs(args[i + 1..], first.st, fuel))
  {
    assert args[i..][0] == args[i];
    assert args[i..][1..] == args[i + 1..];
    var first := Eval(args[i], st, fuel);
    if first.Normal? {
      var rest := EvalArgs(args[i + 1..], first.st, fuel);
      if rest.Normal? {
        assert vs + ([first.value] + rest.value) == (vs + [first.value]) + rest.value;
      }
    }
  }

  lemma PrependNothing(r: Outcome<seq<Value>>)
    ensures PrependValues([], r) == r
  {
    if r.Normal? {
      assert [] + r.value == r.value;
    }
  }

  /** One more statement: the outcome of the rest of the list, given the outcome of its first statement. */
  lemma ExecStmtsStep(ss: seq<Stmt>, i: nat, st: State, fuel: nat)
    requires i < |ss| && |st.frames| > 0
    ensures var first := Exec(ss[i], st, fuel);
      ExecStmts(ss[i..], st, fuel) == if first.Abrupt? then first else ExecStmts(ss[i + 1..], first.st, fuel)
  {
    assert ss[i..][0] == ss[i];
    assert ss[i..][1..] == ss[i + 1..];
  }

  /** The step Exec takes for each statement class that has its own method. */
  lemma ExecCases(s: Stmt, st: State, fuel: nat)
    requires |st.frames| > 0
    ensures s.SayStatement? ==> Exec(s, st, fuel) == ExecSay(s.expression, st, fuel)
    ensures s.LetStatement? ==> Exec(s, st, fuel) == ExecLet(s.name, s.value, st, fuel)
    ensures s.IfStatement? ==> Exec(s, st, fuel) == ExecIf(s.condition, s.thenBlock, s.elseBlock, st, fuel)
    ensures s.WhileStatement? ==> Exec(s, st, fuel) == ExecWhile(s.condition, s.body, st, fuel)
    ensures s.Block? ==> Exec(s, st, fuel) == ExecBlock(s.statements, st, fuel)
  {
  }

  /** The result of a call, from the packed outcome of its body run on [call frame, global frame]. */
  lemma PackCall(body: Result<(), Failure>, after: State, fn: Value, vs: seq<Value>, st: State, fuel: nat)
    requires |st.frames| > 0 && fn.Func? && |vs| == |fn.parameters| && fuel > 0
    requires Pack(body, after) ==
      Restore(ExecStmts(fn.body, State([CallFrame(fn, vs), st.frames[|st.frames| - 1]], st.out, st.serial), fuel - 1), st)
    ensures Pack(if body.Ok? then Ok(Null) else Err(body.error), after) == Invoke(fn, vs, st, fuel)
  {
  }

  class Interpreter {
    const globalEnv: Environment
    var currentEnv: Environment
    var output: seq<string>
    /** The identity the next function object gets. */
    var serial: nat

    /** The current environment descends from the global one, which has no parent. */
    ghost predicate Valid()
      reads this
    {
      globalEnv.parent == null && globalEnv.Linked() && currentEnv.Linked() && currentEnv.Root() == globalEnv
    }

    /** The fields as a Semantics state: the chain from the current environment, the output, the next identity. */
    ghost function State(): State
      requires Valid()
      reads this, currentEnv, currentEnv.repr
    {
      Semantics.State(currentEnv.Frames(), output, serial)
    }

    /** `__init__` and `_define_builtins`. */
    constructor ()
      ensures Valid() && State() == Start && currentEnv == globalEnv
    {
      var g := new Environment(null);
      g.Define("true", Bool(true));
      g.Define("false", Bool(false));
      g.Define("null", Null);
      globalEnv := g;
      currentEnv := g;
      output := [];
      serial := 0;
      new;
      assert g.variables == Builtins;
    }

    /** `interpret`: a fresh output; a runtime error becomes its last line, any other failure escapes. */
    method Interpret(program: Program, fuel: nat) returns (r: Result<seq<string>, Failure>)
      requires Valid()
      modifies this, currentEnv
      ensures Valid() && currentEnv == old(currentEnv)
      ensures Pack(r, State()) == Semantics.Interpret(program, old(State()), fuel)
    {
      ghost var start := State();
      output := [];
      assert State() == start.(out := []);
      var run := ExecuteStatements(program.statements, fuel);
      ghost var res := ExecStmts(program.statements, start.(out := []), fuel);
      assert Pack(run, State()) == res;
      if run.Err? && run.error.RuntimeError? {
        output := output + ["Runtime Error: " + run.error.message];
      } else if run.Err? {
        return Err(run.error);
      }
      return Ok(output);
    }

    /** `execute_statement`. */
    method ExecuteStatement(s: Stmt, fuel: nat) returns (r: Result<(), Failure>)
      requires Valid()
      modifies this, currentEnv
      ensures Valid() && currentEnv == old(currentEnv)
      ensures Pack(r, State()) == Exec(s, old(State()), fuel)
      decreases fuel, StmtSize(s), 3
    {
      if s.SayStatement? {
        r := ExecuteSay(s, fuel);
      } else if s.LetStatement? {
        r := ExecuteLet(s, fuel);
      } else if s.FunctionDefinition? {
        r := ExecuteFunctionDefinition(s, fuel);
      } else if s.CallStatement? {
        r := ExecuteCall(s, fuel);
      } else {
        r := ExecuteControl(s, fuel);
      }
    }

    /** The rest of `execute_statement`'s chain: the statements that hold blocks, and the classes it has no case for. */
    method ExecuteControl(s: Stmt, fuel: nat) returns (r: Result<(), Failure>)
      requires Valid() && !s.SayStatement? && !s.LetStatement? && !s.FunctionDefinition? && !s.CallStatement?
      modifies this, currentEnv
      ensures Valid() && currentEnv == old(currentEnv)
      ensures Pack(r, State()) == Exec(s, old(State()), fuel)
      decreases fuel, StmtSize(s), 2
    {
      if s.IfStatement? {
        r := ExecuteIf(s, fuel);
      } else if s.WhileStatement? {
        r := ExecuteWhile(s, fuel);
      } else if s.Block? {
        r := ExecuteBlock(s, fuel);
      } else {
        r := ExecuteUnknown(s, fuel);
      }
    }

    /** The end of `execute_statement`'s chain: a statement class it has no case for. */
    method ExecuteUnknown(s: Stmt, ghost fuel: nat) returns (r: Result<(), Failure>)
      requires Valid() && !s.SayStatement? && !s.LetStatement? && !s.FunctionDefinition? && !s.CallStatement?
      requires !s.IfStatement? && !s.WhileStatement? && !s.Block?
      ensures r.Err? && r.error.RuntimeError?
      ensures Pack(r, State()) == Exec(s, State(), fuel)
    {
      r := Err(RuntimeError(UnknownStatement(s)));
    }

    /** `execute_say_statement`: the line is kept in `output` (the console copy is not modelled). */
    method ExecuteSay(s: Stmt, fuel: nat) returns (r: Result<(), Failure>)
      requires s.SayStatement? && Valid()
      modifies this
      ensures Valid() && currentEnv == old(currentEnv)
      ensures Pack(r, State()) == Exec(s, old(State()), fuel)
      decreases fuel, StmtSize(s), 0
    {
      ExecCases(s, State(), fuel);
      var value := Evaluate(s.expression, fuel);
      if value.Err? {
        return Err(value.error);
      }
      var text := Stringify(value.value);
      if text.Err? {
        return Err(text.error);
      }
      output := output + [text.value];
      return Ok(());
    }

    /** `execute_let_statement`: `define` in the current environment. */
    method ExecuteLet(s: Stmt, fuel: nat) returns (r: Result<(), Failure>)
      requires s.LetStatement? && Valid()
      modifies this, currentEnv
      ensures Valid() && currentEnv == old(currentEnv)
      ensures Pack(r, State()) == Exec(s, old(State()), fuel)
      decreases fuel, StmtSize(s), 0
    {
      ExecCases(s, State(), fuel);
      var value := Evaluate(s.value, fuel);
      if value.Err? {
        return Err(value.error);
      }
      currentEnv.Define(s.name, value.value);
      return Ok(());
    }

    /** `execute_function_definition`: the closure is the current environment's dictionary as it is now. */
    method ExecuteFunctionDefinition(s: Stmt, ghost fuel: nat) returns (r: Result<(), Failure>)
      requires s.FunctionDefinition? && Valid()
      modifies this, currentEnv
      ensures Valid() && currentEnv == old(currentEnv) && r.Ok?
      ensures State() == Define(s.name, s.parameters, s.body, old(State()))
      ensures Pack(r, State()) == Exec(s, old(State()), fuel)
    {
      var fn := Func(serial, s.name, s.parameters, s.body, currentEnv.variables);
      currentEnv.Define(s.name, fn);
      serial := serial + 1;
      r := Ok(());
    }

    /** `execute_call_statement`. */
    method ExecuteCall(s: Stmt, fuel: nat) returns (r: Result<(), Failure>)
      requires s.CallStatement? && Valid()
      modifies this
      ensures Valid() && currentEnv == old(currentEnv)
      ensures Pack(r, State()) == Exec(s, old(State()), fuel)
      decreases fuel, StmtSize(s), 0
    {
      var value := EvaluateCall(s.name, s.arguments, fuel);
      if value.Err? {
        return Err(value.error);
      }
      return Ok(());
    }

    /** `execute_if_statement`: the chosen block runs in the current environment. */
    method ExecuteIf(s: Stmt, fuel: nat) returns (r: Result<(), Failure>)
      requires s.IfStatement? && Valid()
      modifies this, currentEnv
      ensures Valid() && currentEnv == old(currentEnv)
      ensures Pack(r, State()) == Exec(s, old(State()), fuel)
      decreases fuel, StmtSize(s), 0
    {
      ExecCases(s, State(), fuel);
      var condition := Evaluate(s.condition, fuel);
      if condition.Err? {
        return Err(condition.error);
      }
      var truth := Truthy(condition.value);
      if truth.Err? {
        return Err(truth.error);
      }
      if truth.value {
        r := ExecuteStatements(s.thenBlock, fuel);
      } else if |s.elseBlock| > 0 {
        r := ExecuteStatements(s.elseBlock, fuel);
      } else {
        r := Ok(());
      }
    }

    /** `execute_while_statement`: the body runs in the current environment; a round after the first costs fuel. */
    method ExecuteWhile(s: Stmt, fuel: nat) returns (r: Result<(), Failure>)
      requires s.WhileStatement? && Valid()
      modifies this, currentEnv
      ensures Valid() && currentEnv == old(currentEnv)
      ensures Pack(r, State()) == Exec(s, old(State()), fuel)
      decreases fuel, StmtSize(s), 1
    {
      ghost var goal := ExecWhile(s.condition, s.body, State(), fuel);
      ExecCases(s, State(), fuel);
      var budget: nat := fuel;
      while true
        invariant budget <= fuel && Valid() && currentEnv == old(currentEnv)
        invariant ExecWhile(s.condition, s.body, State(), budget) == goal
        decreases budget
      {
        var more;
        r, more := WhileRound(s, budget);
        if !more {
          return;
        }
        budget := budget - 1;
      }
    }

    /**
     * One round of the loop: the condition, then, if it holds, the body.
     * `more` says that the loop goes on, with one unit of fuel less.
     */
    method WhileRound(s: Stmt, budget: nat) returns (r: Result<(), Failure>, more: bool)
      requires s.WhileStatement? && Valid()
      modifies this, currentEnv
      ensures Valid() && currentEnv == old(currentEnv)
      ensures more ==> budget > 0
      ensures more ==> ExecWhile(s.condition, s.body, State(), budget - 1) == ExecWhile(s.condition, s.body, old(State()), budget)
      ensures !more ==> Pack(r, State()) == ExecWhile(s.condition, s.body, old(State()), budget)
      decreases budget, StmtSize(s), 0
    {
      assert ExprSize(s.condition) < StmtSize(s) && StmtsSize(s.body) < StmtSize(s);
      var condition := Evaluate(s.condition, budget);
      if condition.Err? {
        return Err(condition.error), false;
      }
      var truth := Truthy(condition.value);
      if truth.Err? {
        return Err(truth.error), false;
      }
      if !truth.value {
        return Ok(()), false;
      }
      var body := ExecuteStatements(s.body, budget);
      if body.Err? {
        return body, false;
      }
      if budget == 0 {
        return Err(OutOfFuel), false;
      }
      return Ok(()), true;
    }

    /** `execute_block`: a new environment under the current one for the statements. */
    method ExecuteBlock(s: Stmt, fuel: nat) returns (r: Result<(), Failure>)
      requires s.Block? && Valid()
      modifies this
      ensures Valid() && currentEnv == old(currentEnv)
      ensures Pack(r, State()) == Exec(s, old(State()), fuel)
      decreases fuel, StmtSize(s), 0
    {
      ghost var start := State();
      ExecCases(s, start, fuel);
      assert StmtsSize(s.statements) < StmtSize(s);
      var blockEnv := new Environment(currentEnv);
      FramesKept(currentEnv);
      r := RunScoped(blockEnv, s.statements, fuel, Semantics.State([map[]] + start.frames, output, serial));
    }

    /**
     * The statements run with `env` as the current environment, and the
     * current environment is put back afterwards whatever happens: the
     * `try`/`finally` of `execute_block` and `evaluate_function_call`.
     */
    method RunScoped(env: Environment, ss: seq<Stmt>, fuel: nat, ghost inner: State) returns (r: Result<(), Failure>)
      requires Valid() && env.Linked() && env.Root() == globalEnv && env != currentEnv && env !in currentEnv.repr
      requires inner == Semantics.State(env.Frames(), output, serial)
      modifies this, env
      ensures Valid() && currentEnv == old(currentEnv)
      ensures Pack(r, State()) == Restore(ExecStmts(ss, inner, fuel), old(State()))
      decreases fuel, StmtsSize(ss), 1
    {
      var previous := currentEnv;
      ghost var before := State();
      currentEnv := env;
      assert State() == inner;
      r := ExecuteStatements(ss, fuel);
      ghost var mid := State();
      currentEnv := previous;
      FramesKept(previous);
      PackRestore(r, mid, ExecStmts(ss, inner, fuel), before);
    }

    /** The statements of a list in order, as `interpret` and the statement methods loop over them. */
    method ExecuteStatements(ss: seq<Stmt>, fuel: nat) returns (r: Result<(), Failure>)
      requires Valid()
      modifies this, currentEnv
      ensures Valid() && currentEnv == old(currentEnv)
      ensures Pack(r, State()) == ExecStmts(ss, old(State()), fuel)
      decreases fuel, StmtsSize(ss), 0
    {
      var i := 0;
      assert ss[0..] == ss;
      while i < |ss|
        invariant i <= |ss| && Valid() && currentEnv == old(currentEnv)
        invariant ExecStmts(ss[i..], State(), fuel) == ExecStmts(ss, old(State()), fuel)
      {
        StmtsSizeElement(ss, i);
        ExecStmtsStep(ss, i, State(), fuel);
        r := ExecuteStatement(ss[i], fuel);
        if r.Err? {
          return;
        }
        i := i + 1;
      }
      return Ok(());
    }

    /** `evaluate_expression`. */
    method Evaluate(e: Expr, fuel: nat) returns (r: Result<Value, Failure>)
      requires Valid()
      modifies this
      ensures Valid() && currentEnv == old(currentEnv)
      ensures Pack(r, State()) == Eval(e, old(State()), fuel)
      decreases fuel, ExprSize(e), 2
    {
      if e.Literal? {
        r := Ok(ConstantValue(e.value));
      } else if e.Identifier? {
          r := currentEnv.Get(e.name);
      } else if e.BinaryOp? {
        r := EvaluateBinary(e, fuel);
      } else if e.UnaryOp? {
        r := EvaluateUnary(e, fuel);
      } else if e.FunctionCall? {
        r := EvaluateCall(e.name, e.arguments, fuel);
      } else {
        r := Err(RuntimeError(UnknownExpression(e)));
      }
    }

    /** `evaluate_binary_op`: both operands, left first, then the operator. */
    method EvaluateBinary(e: Expr, fuel: nat) returns (r: Result<Value, Failure>)
      requires e.BinaryOp? && Valid()
      modifies this
      ensures Valid() && currentEnv == old(currentEnv)
      ensures Pack(r, State()) == Eval(e, old(State()), fuel)
      decreases fuel, ExprSize(e), 0
    {
      var left := Evaluate(e.left, fuel);
      if left.Err? {
        return Err(left.error);
      }
      var right := Evaluate(e.right, fuel);
      if right.Err? {
        return Err(right.error);
      }
      r := BinaryValue(e.operator, left.value, right.value);
    }

    /** `evaluate_unary_op`. */
    method EvaluateUnary(e: Expr, fuel: nat) returns (r: Result<Value, Failure>)
      requires e.UnaryOp? && Valid()
      modifies this
      ensures Valid() && currentEnv == old(currentEnv)
      ensures Pack(r, State()) == Eval(e, old(State()), fuel)
      decreases fuel, ExprSize(e), 0
    {
      var operand := Evaluate(e.operand, fuel);
      if operand.Err? {
        return Err(operand.error);
      }
      r := UnaryValue(e.operator, operand.value);
    }

    /**
     * `evaluate_function_call`: the callee must be a function, the arguments
     * are evaluated, their number checked, and the body run.
     */
    method EvaluateCall(name: string, arguments: seq<Expr>, fuel: nat) returns (r: Result<Value, Failure>)
      requires Valid()
      modifies this
      ensures Valid() && currentEnv == old(currentEnv)
      ensures Pack(r, State()) == Call(name, arguments, old(State()), fuel)
      decreases fuel, ExprsSize(arguments) + 1, 1
    {
      var callee := currentEnv.Get(name);
      if callee.Err? {
        return Err(callee.error);
      }
      var fn := callee.value;
      if !fn.Func? {
        return Err(RuntimeError("'" + name + "' is not a function"));
      }
      var values := EvaluateArguments(arguments, fuel);
      if values.Err? {
        return Err(values.error);
      }
      if |values.value| != |fn.parameters| {
        return Err(RuntimeError(ArityMessage(fn, |values.value|)));
      }
      r := Apply(fn, values.value, fuel);
    }

    /** The argument list of `evaluate_function_call`, left to right. */
    method EvaluateArguments(arguments: seq<Expr>, fuel: nat) returns (r: Result<seq<Value>, Failure>)
      requires Valid()
      modifies this
      ensures Valid() && currentEnv == old(currentEnv)
      ensures Pack(r, State()) == EvalArgs(arguments, old(State()), fuel)
      decreases fuel, ExprsSize(arguments) + 1, 0
    {
      var values: seq<Value> := [];
      var i := 0;
      assert arguments[0..] == arguments;
      PrependNothing(EvalArgs(arguments, State(), fuel));
      while i < |arguments|
        invariant i <= |arguments| && Valid() && currentEnv == old(currentEnv)
        invariant PrependValues(values, EvalArgs(arguments[i..], State(), fuel)) == EvalArgs(arguments, old(State()), fuel)
      {
        ExprsSizeElement(arguments, i);
        EvalArgsStep(arguments, i, values, State(), fuel);
        var v := Evaluate(arguments[i], fuel);
        if v.Err? {
          return Err(v.error);
        }
        values := values + [v.value];
        i := i + 1;
      }
      assert values + [] == values;
      return Ok(values);
    }

    /**
     * The second half of `evaluate_function_call`: the body runs in a fresh
     * environment under the global one; the result is always null.
     */
    method Apply(fn: Value, values: seq<Value>, fuel: nat) returns (r: Result<Value, Failure>)
      requires fn.Func? && |values| == |fn.parameters| && Valid()
      modifies this
      ensures Valid() && currentEnv == old(currentEnv)
      ensures Pack(r, State()) == Invoke(fn, values, old(State()), fuel)
      decreases fuel, 0, 0
    {
      if fuel == 0 {
        return Err(OutOfFuel);
      }
      ghost var start := State();
      var functionEnv := CallEnvironment(fn, values);
      FramesKept(currentEnv);
      ghost var inner := Semantics.State([CallFrame(fn, values), start.frames[|start.frames| - 1]], output, serial);
      var body := RunScoped(functionEnv, fn.body, fuel - 1, inner);
      PackCall(body, State(), fn, values, start, fuel);
      if body.Err? {
        return Err(body.error);
      }
      return Ok(Null);
    }

    /** The environment a call runs in: the closure copied, then each parameter bound in order. */
    method CallEnvironment(fn: Value, values: seq<Value>) returns (functionEnv: Environment)
      requires fn.Func? && |values| == |fn.parameters| && Valid()
      ensures fresh(functionEnv) && functionEnv.Linked()
      ensures functionEnv.parent == globalEnv && functionEnv.Root() == globalEnv
      ensures functionEnv.Frames() == [CallFrame(fn, values), globalEnv.variables]
    {
      functionEnv := new Environment(globalEnv);
      var keys := fn.closure.Keys;
      while keys != {}
        modifies functionEnv
        invariant functionEnv.Linked() && keys <= fn.closure.Keys
        invariant functionEnv.variables.Keys == fn.closure.Keys - keys
        invariant forall k :: k in functionEnv.variables ==> functionEnv.variables[k] == fn.closure[k]
        decreases keys
      {
        var k :| k in keys;
        functionEnv.Define(k, fn.closure[k]);
        keys := keys - {k};
      }
      assert functionEnv.variables == fn.closure;
      var i := 0;
      while i < |fn.parameters|
        modifies functionEnv
        invariant functionEnv.Linked() && i <= |fn.parameters|
        invariant Bind(functionEnv.variables, fn.parameters[i..], values[i..]) == CallFrame(fn, values)
      {
        assert fn.parameters[i..][1..] == fn.parameters[i + 1..];
        assert values[i..][1..] == values[i + 1..];
        functionEnv.Define(fn.parameters[i], values[i]);
        i := i + 1;
      }
    }
  }
}
