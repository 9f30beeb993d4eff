/**
 * Runtime values of convo/interpreter.py and the Python operations the
 * evaluator applies to them: `is_truthy`, `stringify`, the host `str()`
 * used by `+`, and the binary and unary operators with Python's own typing
 * rules (bool counts as an int, `*` repeats strings, mixed comparisons raise
 * TypeError).
 *
 * Floats are opaque: a Float carries no number, and every operation whose
 * result would depend on it gives `Unmodelled`.
 */
module Values {

  import opened Wrappers
  import opened Text
  import opened Ast

  /**
   * A value: None, bool, int, float, str, or a ConvoFunction. A function is
   * identified by its serial number, which stands for Python object
   * identity; its closure is the copied dictionary of the defining frame.
   */
  datatype Value =
    | Null
    | Bool(b: bool)
    | Int(i: int)
    | Float
    | Str(s: string)
    | Func(serial: nat, name: string, parameters: seq<string>, body: seq<Stmt>, closure: map<string, Value>)

  /** One environment's `variables` dictionary. */
  type Frame = map<string, Value>

  /**
   * Why evaluation stopped: a ConvoRuntimeError with its message; a Python
   * exception of the host (named by its class), which `interpret` does not
   * catch; a result that depends on a float or an object address; or the
   * step budget ran out.
   */
  datatype Failure =
    | RuntimeError(message: string)
    | HostFault(exception: string)
    | Unmodelled(what: string)
    | OutOfFuel

  const TypeError := HostFault("TypeError")

  /** The value of a Literal node. */
  function ConstantValue(c: Constant): Value
  {
    match c
    case NoneConst => Null
    case BoolConst(b) => Bool(b)
    case IntConst(i) => Int(i)
    case FloatConst(_) => Float
    case StrConst(s) => Str(s)
  }

  /** An int, or a bool used as one. */
  predicate IsInt(v: Value) { v.Int? || v.Bool? }

  predicate IsNumber(v: Value) { IsInt(v) || v.Float? }

  function AsInt(v: Value): int
    requires IsInt(v)
  {
    if v.Bool? then (if v.b then 1 else 0) else v.i
  }

  /** Python `str(v)`. */
  function HostStr(v: Value): (r: Result<string, Failure>)
  {
    match v
    case Null => Ok("None")
    case Bool(b) => Ok(if b then "True" else "False")
    case Int(i) => Ok(IntToString(i))
    case Str(s) => Ok(s)
    case Float => Err(Unmodelled("str of a float"))
    case Func(_, _, _, _, _) => Err(Unmodelled("str of a function object"))
  }

  /** Python `l == r`. */
  function Equal(l: Value, r: Value): (res: Result<bool, Failure>)
  {
    if l.Float? || r.Float? then
      if IsNumber(l) && IsNumber(r) then Err(Unmodelled("float equality")) else Ok(false)
    else if IsInt(l) && IsInt(r) then Ok(AsInt(l) == AsInt(r))
    else if l.Null? && r.Null? then Ok(true)
    else if l.Str? && r.Str? then Ok(l.s == r.s)
    else if l.Func? && r.Func? then Ok(l.serial == r.serial)
    else Ok(false)
  }

  /** Python `<` on strings: code points compared left to right, a proper prefix first. */
  predicate StrLess(a: string, b: string)
  {
    if |a| == 0 || |b| == 0 then |a| < |b|
    else if a[0] != b[0] then a[0] < b[0]
    else StrLess(a[1..], b[1..])
  }

  /** Python `l < r`. */
  function Less(l: Value, r: Value): (res: Result<bool, Failure>)
  {
    if IsInt(l) && IsInt(r) then Ok(AsInt(l) < AsInt(r))
    else if l.Str? && r.Str? then Ok(StrLess(l.s, r.s))
    else if IsNumber(l) && IsNumber(r) then Err(Unmodelled("float comparison"))
    else Err(TypeError)
  }

  /** `is_truthy`. */
  function Truthy(v: Value): (r: Result<bool, Failure>)
  {
    if v.Null? || v == Bool(false) then Ok(false)
    else
      var zero :- Equal(v, Int(0));
      Ok(!(zero || v == Str("")))
  }

  /** `stringify`: None, True and False in lower case, otherwise `str()`. */
  function Stringify(v: Value): (r: Result<string, Failure>)
  {
    if v.Null? then Ok("null")
    else if v == Bool(true) then Ok("true")
    else if v == Bool(false) then Ok("false")
    else if v.Str? then Ok(v.s)
    else HostStr(v)
  }

  /** s repeated n times; empty for n <= 0, as Python's `str * int`. */
  function Repeat(s: string, n: int): (r: string)
    ensures |r| == if n <= 0 then 0 else n * |s|
    decreases n
  {
    if n <= 0 then "" else s + Repeat(s, n - 1)
  }

  /** `+`: host `str()` concatenation when either side is a string, otherwise numeric addition. */
  function Add(l: Value, r: Value): (res: Result<Value, Failure>)
  {
    if l.Str? || r.Str? then
      var a :- HostStr(l);
      var b :- HostStr(r);
      Ok(Str(a + b))
    else if IsInt(l) && IsInt(r) then Ok(Int(AsInt(l) + AsInt(r)))
    else if IsNumber(l) && IsNumber(r) then Ok(Float)
    else Err(TypeError)
  }

  function Subtract(l: Value, r: Value): (res: Result<Value, Failure>)
  {
    if IsInt(l) && IsInt(r) then Ok(Int(AsInt(l) - AsInt(r)))
    else if IsNumber(l) && IsNumber(r) then Ok(Float)
    else Err(TypeError)
  }

  function Multiply(l: Value, r: Value): (res: Result<Value, Failure>)
  {
    if IsInt(l) && IsInt(r) then Ok(Int(AsInt(l) * AsInt(r)))
    else if l.Str? && IsInt(r) then Ok(Str(Repeat(l.s, AsInt(r))))
    else if IsInt(l) && r.Str? then Ok(Str(Repeat(r.s, AsInt(l))))
    else if IsNumber(l) && IsNumber(r) then Ok(Float)
    else Err(TypeError)
  }

  /** `/`: "Division by zero" when the right operand equals 0; true division gives a float. */
  function Divide(l: Value, r: Value): (res: Result<Value, Failure>)
  {
    var zero :- Equal(r, Int(0));
    if zero then Err(RuntimeError("Division by zero"))
    else if IsNumber(l) && IsNumber(r) then Ok(Float)
    else Err(TypeError)
  }

  /** The operators `evaluate_binary_op` knows. */
  const KnownBinary: set<string> := {"+", "-", "*", "/", "equals", "is", "not equals", "is not",
    "greater", "greater than", "less", "less than", "and", "or"}

  /** `evaluate_binary_op` once both operands are evaluated. */
  function BinaryValue(op: string, l: Value, r: Value): (res: Result<Value, Failure>)
  {
    if op == "+" then Add(l, r)
    else if op == "-" then Subtract(l, r)
    else if op == "*" then Multiply(l, r)
    else if op == "/" then Divide(l, r)
    else if op in {"equals", "is"} then
      var eq :- Equal(l, r);
      Ok(Bool(eq))
    else if op in {"not equals", "is not"} then
      var eq :- Equal(l, r);
      Ok(Bool(!eq))
    else if op in {"greater", "greater than"} then
      var gt :- Less(r, l);
      Ok(Bool(gt))
    else if op in {"less", "less than"} then
      var lt :- Less(l, r);
      Ok(Bool(lt))
    else if op == "and" then
      var a :- Truthy(l);
      if !a then Ok(Bool(false))
      else
        var b :- Truthy(r);
        Ok(Bool(b))
    else if op == "or" then
      var a :- Truthy(l);
      if a then Ok(Bool(true))
      else
        var b :- Truthy(r);
        Ok(Bool(b))
    else Err(RuntimeError("Unknown binary operator: " + op))
  }

  /** `evaluate_unary_op` once the operand is evaluated. */
  function UnaryValue(op: string, v: Value): (r: Result<Value, Failure>)
  {
    if op == "not" then
      var t :- Truthy(v);
      Ok(Bool(!t))
    else if op == "-" || op == "+" then
      if IsInt(v) then Ok(Int(if op == "-" then -AsInt(v) else AsInt(v)))
      else if v.Float? then Ok(Float)
      else Err(TypeError)
    else Err(RuntimeError("Unknown unary operator: " + op))
  }
}
