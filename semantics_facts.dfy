/**
 * Properties of the evaluator of convo/interpreter.py, stated over the
 * functions of module Semantics: scope lookup, where `Let` binds, what a
 * call sees, how failures are captured, and the value-level operators.
 */
module SemanticsFacts {

  import opened Wrappers
  import opened Text
  import opened Ast
  import opened Values
  import opened Semantics
  import opened ValuesFacts

  /* ---------- Environment chains ---------- */

  /** `get` answers from the first frame, counted from the current one, that binds the name. */
  lemma {:induction false} LookupFirst(frames: seq<Frame>, name: string, i: nat)
    requires i < |frames| && name in frames[i]
    requires forall j :: 0 <= j < i ==> name !in frames[j]
    ensures Lookup(frames, name) == Ok(frames[i][name])
    decreases i
  {
    if i > 0 {
      assert name !in frames[0];
      forall j | 0 <= j < i - 1
        ensures name !in frames[1..][j]
      {
        assert frames[1..][j] == frames[j + 1];
      }
      LookupFirst(frames[1..], name, i - 1);
    }
  }

  /** `get` of a name no frame binds raises "Undefined variable: NAME". */
  lemma {:induction false} LookupUnbound(frames: seq<Frame>, name: string)
    requires forall j :: 0 <= j < |frames| ==> name !in frames[j]
    ensures Lookup(frames, name) == Err(RuntimeError("Undefined variable: " + name))
    decreases |frames|
  {
    if |frames| > 0 {
      assert name !in frames[0];
      forall j | 0 <= j < |frames| - 1
        ensures name !in frames[1..][j]
      {
        assert frames[1..][j] == frames[j + 1];
      }
      LookupUnbound(frames[1..], name);
    }
  }

  /** `set` rebinds the name in the first frame that binds it and leaves every other frame as it was. */
  lemma {:induction false} AssignFirst(frames: seq<Frame>, name: string, v: Value, i: nat)
    requires i < |frames| && name in frames[i]
    requires forall j :: 0 <= j < i ==> name !in frames[j]
    ensures Assign(frames, name, v) == Ok(frames[i := frames[i][name := v]])
    decreases i
  {
    if i == 0 {
      assert [frames[0][name := v]] + frames[1..] == frames[0 := frames[0][name := v]];
    } else {
      assert name !in frames[0];
      forall j | 0 <= j < i - 1
        ensures name !in frames[1..][j]
      {
        assert frames[1..][j] == frames[j + 1];
      }
      AssignFirst(frames[1..], name, v, i - 1);
      assert [frames[0]] + frames[1..][i - 1 := frames[i][name := v]] == frames[i := frames[i][name := v]];
    }
  }

  /** `set` never creates a binding: every frame keeps exactly the names it had. */
  lemma {:induction false} AssignKeepsNames(frames: seq<Frame>, name: string, v: Value)
    ensures var r := Assign(frames, name, v);
      r.Ok? ==> forall i :: 0 <= i < |frames| ==> r.value[i].Keys == frames[i].Keys
    decreases |frames|
  {
    if |frames| > 0 && name !in frames[0] {
      AssignKeepsNames(frames[1..], name, v);
      var r := Assign(frames, name, v);
      if r.Ok? {
        var rest := Assign(frames[1..], name, v).value;
        assert r.value == [frames[0]] + rest;
        forall i | 1 <= i < |frames|
          ensures r.value[i].Keys == frames[i].Keys
        {
          assert r.value[i] == rest[i - 1] && frames[i] == frames[1..][i - 1];
        }
      }
    }
  }

  /** `set` of a name no frame binds raises "Undefined variable: NAME" and changes nothing. */
  lemma {:induction false} AssignUnbound(frames: seq<Frame>, name: string, v: Value)
    requires forall j :: 0 <= j < |frames| ==> name !in frames[j]
    ensures Assign(frames, name, v) == Err(RuntimeError("Undefined variable: " + name))
    decreases |frames|
  {
    if |frames| > 0 {
      assert name !in frames[0];
      forall j | 0 <= j < |frames| - 1
        ensures name !in frames[1..][j]
      {
        assert frames[1..][j] == frames[j + 1];
      }
      AssignUnbound(frames[1..], name, v);
    }
  }

  /** Binding in the current frame shadows the name and leaves every other name reading as before. */
  lemma LookupAfterDefine(frames: seq<Frame>, name: string, v: Value, n: string)
    requires |frames| > 0
    ensures Lookup([frames[0][name := v]] + frames[1..], n) == if n == name then Ok(v) else Lookup(frames, n)
  {
    assert ([frames[0][name := v]] + frames[1..])[1..] == frames[1..];
  }

  /* ---------- Where statements bind ---------- */

  /**
   * `Let` binds in the current frame only: afterwards the name reads as the
   * value, every other name reads as before, and the outer frames are
   * untouched.
   */
  lemma LetBindsLocally(name: string, e: Expr, st: State, fuel: nat)
    requires |st.frames| > 0 && Eval(e, st, fuel).Normal?
    ensures var r := Exec(LetStatement(name, e), st, fuel);
      && r.Normal? && r.st.frames[1..] == st.frames[1..]
      && Lookup(r.st.frames, name) == Ok(Eval(e, st, fuel).value)
      && forall n :: n != name ==> Lookup(r.st.frames, n) == Lookup(st.frames, n)
  {
    var ev := Eval(e, st, fuel);
    assert ev.st.frames == st.frames;
    var r := Exec(LetStatement(name, e), st, fuel);
    assert r == ExecLet(name, e, st, fuel);
    assert r.st.frames == [st.frames[0][name := ev.value]] + st.frames[1..];
    LookupAfterDefine(st.frames, name, ev.value, name);
    forall n | n != name
      ensures Lookup(r.st.frames, n) == Lookup(st.frames, n)
    {
      LookupAfterDefine(st.frames, name, ev.value, n);
    }
  }

  /** The branch of an If runs in the current frame: a `Let` in the taken branch is visible after the If. */
  lemma IfLetVisible(c: Expr, name: string, e: Expr, elseBlock: seq<Stmt>, st: State, fuel: nat, st1: State)
    requires |st.frames| > 0
    requires Eval(c, st, fuel) == Normal(Bool(true), st1)
    requires Eval(e, st1, fuel).Normal?
    ensures var r := Exec(IfStatement(c, [LetStatement(name, e)], elseBlock), st, fuel);
      r.Normal? && |r.st.frames| == |st.frames| && Lookup(r.st.frames, name) == Ok(Eval(e, st1, fuel).value)
  {
    var let := Exec(LetStatement(name, e), st1, fuel);
    LetBindsLocally(name, e, st1, fuel);
    assert ExecStmts([LetStatement(name, e)], st1, fuel) == ExecStmts([], let.st, fuel);
  }

  /**
   * The body of a While runs in the current frame: after a round whose body
   * finished normally and a false condition, the loop leaves exactly the
   * frames the body left.
   */
  lemma WhileKeepsBodyFrames(c: Expr, body: seq<Stmt>, st: State, fuel: nat,
                             t: Value, st1: State, st2: State, f: Value, st3: State)
    requires |st.frames| > 0 && fuel > 0
    requires Eval(c, st, fuel) == Normal(t, st1) && Truthy(t) == Ok(true)
    requires ExecStmts(body, st1, fuel) == Normal((), st2)
    requires Eval(c, st2, fuel - 1) == Normal(f, st3) && Truthy(f) == Ok(false)
    ensures Exec(WhileStatement(c, body), st, fuel) == Normal((), st3) && st3.frames == st2.frames
  {
    assert ExecWhile(c, body, st2, fuel - 1) == Normal((), st3);
  }

  /** A Block drops its frame: a `Let` inside it is gone afterwards, and the frames are as before. */
  lemma BlockLetHidden(name: string, e: Expr, st: State, fuel: nat)
    requires |st.frames| > 0 && Eval(e, st.(frames := [map[]] + st.frames), fuel).Normal?
    ensures var r := Exec(Block([LetStatement(name, e)]), st, fuel);
      r.Normal? && r.st.frames == st.frames && Lookup(r.st.frames, name) == Lookup(st.frames, name)
  {
    var inner := st.(frames := [map[]] + st.frames);
    var let := Exec(LetStatement(name, e), inner, fuel);
    LetBindsLocally(name, e, inner, fuel);
    assert ExecStmts([LetStatement(name, e)], inner, fuel) == ExecStmts([], let.st, fuel);
  }

  /* ---------- Calls ---------- */

  /** A name bound to something other than a function: "'NAME' is not a function", before any argument is evaluated. */
  lemma CallNotFunction(name: string, args: seq<Expr>, st: State, fuel: nat)
    requires |st.frames| > 0 && Lookup(st.frames, name).Ok? && !Lookup(st.frames, name).value.Func?
    ensures Call(name, args, st, fuel) == Abrupt(RuntimeError("'" + name + "' is not a function"), st)
  {
  }

  /**
   * The argument count is checked only after every argument has been
   * evaluated: a failing argument wins over a count mismatch, and a mismatch
   * reports the declared count and the count of argument expressions.
   */
  lemma CallArity(name: string, args: seq<Expr>, st: State, fuel: nat)
    requires |st.frames| > 0 && Lookup(st.frames, name).Ok? && Lookup(st.frames, name).value.Func?
    requires |args| != |Lookup(st.frames, name).value.parameters|
    ensures var fn := Lookup(st.frames, name).value; var ev := EvalArgs(args, st, fuel);
      && (ev.Abrupt? ==> Call(name, args, st, fuel) == Abrupt(ev.failure, ev.st))
      && (ev.Normal? ==> Call(name, args, st, fuel) == Abrupt(RuntimeError(
            "Function '" + fn.name + "' expects " + IntToString(|fn.parameters|) + " arguments, got " + IntToString(|args|)),
            ev.st))
  {
  }

  /**
   * The call frame: closure entries first, then the parameters in order, so
   * a parameter shadows a closure name, a later parameter shadows an earlier
   * one of the same name, and nothing else is bound.
   */
  lemma {:induction false} BindBinds(frame: Frame, ps: seq<string>, vs: seq<Value>)
    requires |ps| == |vs|
    ensures forall k :: k in Bind(frame, ps, vs) <==> k in frame || k in ps
    ensures forall k :: k in frame && k !in ps ==> Bind(frame, ps, vs)[k] == frame[k]
    ensures forall i :: 0 <= i < |ps| && ps[i] !in ps[i + 1..] ==> Bind(frame, ps, vs)[ps[i]] == vs[i]
    decreases |ps|
  {
    if |ps| > 0 {
      var next := frame[ps[0] := vs[0]];
      BindBinds(next, ps[1..], vs[1..]);
      assert forall k :: k in ps <==> k == ps[0] || k in ps[1..];
      forall i | 0 <= i < |ps| && ps[i] !in ps[i + 1..]
        ensures Bind(frame, ps, vs)[ps[i]] == vs[i]
      {
        if i > 0 {
          assert ps[1..][i - 1] == ps[i] && ps[1..][i..] == ps[i + 1..] && vs[1..][i - 1] == vs[i];
        }
      }
    }
  }

  /**
   * Inside a call a name resolves in the call frame and then in the global
   * frame as it is at call time, never in the caller's frames: a global
   * defined after the function is found through the parent link.
   */
  lemma CallSeesGlobals(fn: Value, vs: seq<Value>, global: Frame, n: string)
    requires fn.Func? && |vs| == |fn.parameters|
    requires n !in fn.closure && n !in fn.parameters && n in global
    ensures Lookup([CallFrame(fn, vs), global], n) == Ok(global[n])
  {
    BindBinds(fn.closure, fn.parameters, vs);
    assert [CallFrame(fn, vs), global][1..] == [global];
  }

  /** What a call does depends on the caller only through the global frame, the output and the next identity. */
  lemma InvokeIgnoresCallerFrames(fn: Value, vs: seq<Value>, st: State, other: State, fuel: nat)
    requires |st.frames| > 0 && |other.frames| > 0 && fn.Func? && |vs| == |fn.parameters|
    requires st.frames[|st.frames| - 1] == other.frames[|other.frames| - 1]
    requires st.out == other.out && st.serial == other.serial
    ensures var a := Invoke(fn, vs, st, fuel); var b := Invoke(fn, vs, other, fuel);
      a.Normal? == b.Normal? && a.st.out == b.st.out && a.st.serial == b.st.serial
      && (a.Abrupt? ==> a.failure == b.failure)
  {
  }

  /**
   * A function keeps the frame it was defined in as it was then: a later
   * `Let` of a captured name changes what the name reads as, but not what
   * a call of the function sees.
   */
  lemma ClosureSnapshot(f: string, x: string, body: seq<Stmt>, st: State, v: Value)
    requires |st.frames| > 0 && f != x && x in st.frames[0]
    ensures var st1 := Define(f, [], body, st);
      var later := [st1.frames[0][x := v]] + st1.frames[1..];
      var fn := Lookup(later, f);
      && fn.Ok? && fn.value.Func? && fn.value.parameters == []
      && Lookup(later, x) == Ok(v)
      && CallFrame(fn.value, [])[x] == st.frames[0][x]
  {
    var st1 := Define(f, [], body, st);
    LookupAfterDefine(st1.frames, x, v, f);
    LookupAfterDefine(st1.frames, x, v, x);
    LookupAfterDefine(st.frames, f, Func(st.serial, f, [], body, st.frames[0]), f);
    assert st1.frames == [st.frames[0][f := Func(st.serial, f, [], body, st.frames[0])]] + st.frames[1..];
  }

  /** Defining a function binds a new identity in the current frame and advances the next one. */
  lemma DefineFresh(name: string, ps: seq<string>, body: seq<Stmt>, st: State)
    requires |st.frames| > 0
    ensures var st1 := Define(name, ps, body, st);
      && Lookup(st1.frames, name) == Ok(Func(st.serial, name, ps, body, st.frames[0]))
      && st1.serial == st.serial + 1 && st1.out == st.out && st1.frames[1..] == st.frames[1..]
  {
    LookupAfterDefine(st.frames, name, Func(st.serial, name, ps, body, st.frames[0]), name);
  }

  /* ---------- Failures ---------- */

  /**
   * `interpret` captures a ConvoRuntimeError only: the run's output is kept,
   * exactly one "Runtime Error: MSG" line follows it, and every other failure
   * escapes.
   */
  lemma InterpretCapture(p: Program, st: State, fuel: nat)
    requires |st.frames| > 0
    ensures var run := ExecStmts(p.statements, st.(out := []), fuel); var r := Interpret(p, st, fuel);
      && (r.Abrupt? <==> run.Abrupt? && !run.failure.RuntimeError?)
      && (r.Abrupt? ==> r.failure == run.failure)
      && (r.Normal? ==> run.st.out <= r.value && |r.value| <= |run.st.out| + 1)
      && (r.Normal? && |r.value| == |run.st.out| + 1 <==> run.Abrupt? && run.failure.RuntimeError?)
      && (run.Abrupt? && run.failure.RuntimeError? ==> r.value[|run.st.out|] == "Runtime Error: " + run.failure.message)
  {
  }

  /**
   * A runtime error stops the run: the statements after a failing one are
   * not executed, and the output is what was said before it.
   */
  lemma {:induction false} StopsAtFailure(ss: seq<Stmt>, i: nat, st: State, fuel: nat)
    requires i < |ss| && |st.frames| > 0
    requires ExecStmts(ss[..i], st, fuel).Normal?
    requires Exec(ss[i], ExecStmts(ss[..i], st, fuel).st, fuel).Abrupt?
    ensures ExecStmts(ss, st, fuel) == Exec(ss[i], ExecStmts(ss[..i], st, fuel).st, fuel)
    decreases i
  {
    if i > 0 {
      var first := Exec(ss[0], st, fuel);
      assert ss[..i][0] == ss[0] && ss[..i][1..] == ss[1..][..i - 1];
      assert ss[1..][i - 1] == ss[i];
      StopsAtFailure(ss[1..], i - 1, first.st, fuel);
    }
  }

  /* ---------- Operators and display ---------- */

  /** Exactly null, false, 0 (also `False` as an int) and "" are falsy; a float's truth is not modelled. */
  lemma TruthyCases(v: Value)
    ensures Truthy(v).Err? <==> v.Float?
    ensures Truthy(v) == Ok(false) <==> v == Null || v == Bool(false) || v == Int(0) || v == Str("")
  {
  }

  /**
   * `+` with a string operand joins Python's `str` of the other operand,
   * while Say's stringify writes null and the booleans in lower case and
   * agrees with `str` on everything else.
   */
  lemma ConcatVersusSay(s: string, v: Value)
    requires HostStr(v).Ok?
    ensures BinaryValue("+", Str(s), v) == Ok(Str(s + HostStr(v).value))
    ensures BinaryValue("+", v, Str(s)) == Ok(Str(HostStr(v).value + s))
    ensures Stringify(v) == if v.Null? then Ok("null") else if v.Bool? then Ok(Lower(HostStr(v).value)) else HostStr(v)
  {
    AddResult(Str(s), v);
    AddResult(v, Str(s));
    StringifyResult(v);
  }

  /** So `"" + true` is "True" and `"n=" + null` is "n=None", while `say true` prints "true" and `say null` "null". */
  lemma ConcatVersusSayExample()
    ensures BinaryValue("+", Str(""), Bool(true)) == Ok(Str("True"))
    ensures Stringify(Bool(true)) == Ok("true") && Stringify(Null) == Ok("null")
    ensures BinaryValue("+", Str("n="), Null) == Ok(Str("n=None"))
  {
    assert HostStr(Bool(true)) == Ok("True") && HostStr(Null) == Ok("None");
    assert "" + "True" == "True";
    assert "n=" + "None" == "n=None";
  }

  /**
   * `say e` appends exactly one line, the stringified value of e, to the
   * output and changes nothing else; when stringify fails, the output stays
   * as evaluating e left it.
   */
  lemma SayAppendsLine(e: Expr, st: State, fuel: nat)
    requires |st.frames| > 0
    ensures var r := ExecSay(e, st, fuel); var ev := Eval(e, st, fuel);
      && (ev.Normal? && HostStr(ev.value).Ok? ==>
            r.Normal? && r.st == ev.st.(out := ev.st.out + [Stringify(ev.value).value]))
      && (ev.Normal? && HostStr(ev.value).Err? ==> r == Abrupt(HostStr(ev.value).error, ev.st))
      && (ev.Abrupt? ==> r == Abrupt(ev.failure, ev.st))
  {
  }

  /** A right operand equal to 0, including `false`, makes `/` raise "Division by zero", whatever the left operand. */
  lemma DivisionByZero(l: Value, r: Value)
    requires r == Int(0) || r == Bool(false)
    ensures BinaryValue("/", l, r) == Err(RuntimeError("Division by zero"))
  {
  }

  /** `and`/`or` give a bool, the truth of both operands combined. */
  lemma LogicalGivesBool(op: string, l: Value, r: Value)
    requires op == "and" || op == "or"
    requires Truthy(l).Ok? && Truthy(r).Ok?
    ensures BinaryValue(op, l, r) == Ok(Bool(if op == "and" then Truthy(l).value && Truthy(r).value
                                              else Truthy(l).value || Truthy(r).value))
  {
  }

  /**
   * `and`/`or` do not short-circuit: the right operand is evaluated even
   * when the left one decides, and its failure is the result.
   */
  lemma NoShortCircuit(l: Expr, op: string, r: Expr, st: State, fuel: nat, a: Value, st1: State)
    requires |st.frames| > 0 && (op == "and" || op == "or")
    requires Eval(l, st, fuel) == Normal(a, st1)
    requires Eval(r, st1, fuel).Abrupt?
    ensures Eval(BinaryOp(l, op, r), st, fuel) == Eval(r, st1, fuel)
  {
  }
}
