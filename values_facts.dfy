/**
 * What the value operations of module Values promise: which operand types
 * each operator accepts, the error each raises otherwise, and the value it
 * computes on ints and strings. These are lemmas rather than postconditions
 * of the functions, so that proofs about the evaluator, which unfold the
 * operators only where they need them, do not carry them everywhere.
 */
module ValuesFacts {

  import opened Wrappers
  import opened Text
  import opened Values

  /** `str(v)` fails exactly on floats and functions, and gives a string's own text. */
  lemma HostStrResult(v: Value)
    ensures var r := HostStr(v);
      && (r.Ok? <==> !v.Float? && !v.Func?)
      && (v.Str? ==> r == Ok(v.s))
      && (r.Ok? && !v.Str? ==> |r.value| > 0)
  {
  }

  /** `==`: ints and bools by number, others by kind; a float against a number is not modelled. */
  lemma EqualResult(l: Value, r: Value)
    ensures var res := Equal(l, r);
      && (res.Err? <==> (l.Float? && IsNumber(r)) || (r.Float? && IsNumber(l)))
      && (res.Err? ==> res.error.Unmodelled?)
      && (l == r && !l.Float? ==> res == Ok(true))
      && (IsInt(l) && IsInt(r) ==> res == Ok(AsInt(l) == AsInt(r)))
      && (res == Ok(true) && !IsInt(l) ==> l.Null? == r.Null? && l.Str? == r.Str? && l.Func? == r.Func?)
  {
  }

  /** `<` is defined on two ints or two strings; anything else raises TypeError. */
  lemma LessResult(l: Value, r: Value)
    ensures var res := Less(l, r);
      && (res.Err? <==> !(IsInt(l) && IsInt(r)) && !(l.Str? && r.Str?))
      && (res.Err? ==> res.error == (if IsNumber(l) && IsNumber(r) then Unmodelled("float comparison") else TypeError))
      && (IsInt(l) && IsInt(r) ==> res == Ok(AsInt(l) < AsInt(r)))
  {
  }

  /** The falsy values are None, False, 0 and the empty string. */
  lemma TruthyFalsy(v: Value)
    ensures var r := Truthy(v);
      && (r.Err? <==> v.Float?)
      && (r == Ok(false) <==> v.Null? || v == Bool(false) || v == Int(0) || v == Str(""))
  {
  }

  /** `stringify` is `str()` except that None and the booleans are written in lower case. */
  lemma StringifyResult(v: Value)
    ensures var r := Stringify(v);
      && (r.Ok? <==> HostStr(v).Ok?)
      && (!v.Null? && !v.Bool? ==> r == HostStr(v))
      && (v.Bool? ==> r == Ok(Lower(HostStr(v).value)))
  {
    if v == Bool(true) {
      var t := Lower("True");
      assert t[0] == 't' && t[1] == 'r' && t[2] == 'u' && t[3] == 'e';
      assert t == "true";
    } else if v == Bool(false) {
      var t := Lower("False");
      assert t[0] == 'f' && t[1] == 'a' && t[2] == 'l' && t[3] == 's' && t[4] == 'e';
      assert t == "false";
    }
  }

  /**
   * `+` concatenates `str()` of both sides as soon as either is a string, on
   * either side, and adds numbers otherwise.
   */
  lemma AddResult(l: Value, r: Value)
    ensures var res := Add(l, r);
      && (res == Err(TypeError) <==> !l.Str? && !r.Str? && !(IsNumber(l) && IsNumber(r)))
      && (res.Ok? ==> (res.value.Str? <==> l.Str? || r.Str?))
      && (l.Str? && HostStr(r).Ok? ==> res == Ok(Str(l.s + HostStr(r).value)))
      && (r.Str? && HostStr(l).Ok? ==> res == Ok(Str(HostStr(l).value + r.s)))
      && (IsInt(l) && IsInt(r) ==> res == Ok(Int(AsInt(l) + AsInt(r))))
  {
  }

  /** `-` accepts two numbers and nothing else. */
  lemma SubtractResult(l: Value, r: Value)
    ensures var res := Subtract(l, r);
      && (res.Ok? <==> IsNumber(l) && IsNumber(r))
      && (res.Err? ==> res == Err(TypeError))
      && (res.Ok? && !l.Float? && !r.Float? ==> res.value == Int(AsInt(l) - AsInt(r)))
  {
  }

  /** `*` multiplies ints and repeats a string by an int on either side; a float operand gives a float. */
  lemma MultiplyResult(l: Value, r: Value)
    ensures var res := Multiply(l, r);
      && (res.Ok? <==> (IsNumber(l) && IsNumber(r)) || (l.Str? && IsInt(r)) || (IsInt(l) && r.Str?))
      && (res.Err? ==> res == Err(TypeError))
      && (IsInt(l) && IsInt(r) ==> res == Ok(Int(AsInt(l) * AsInt(r))))
      && (l.Str? && IsInt(r) ==> res == Ok(Str(Repeat(l.s, AsInt(r)))))
      && (IsInt(l) && r.Str? ==> res == Ok(Str(Repeat(r.s, AsInt(l)))))
      && (l.Str? && IsInt(r) ==> |res.value.s| == (if AsInt(r) <= 0 then 0 else AsInt(r) * |l.s|))
  {
  }

  /** `s * n` starts with the characters of `s` and repeats them with period `|s|`. */
  lemma {:induction false} RepeatChars(s: string, n: int)
    ensures forall k :: 0 <= k < |s| && k < |Repeat(s, n)| ==> Repeat(s, n)[k] == s[k]
    ensures forall k :: |s| <= k < |Repeat(s, n)| ==> Repeat(s, n)[k] == Repeat(s, n)[k - |s|]
    decreases n
  {
    if n > 0 {
      RepeatChars(s, n - 1);
      var r, rest := Repeat(s, n), Repeat(s, n - 1);
      assert r == s + rest;
      forall k | |s| <= k < |r|
        ensures r[k] == r[k - |s|]
      {
        assert r[k] == rest[k - |s|];
        if k - |s| >= |s| {
          assert r[k - |s|] == rest[k - |s| - |s|];
        }
      }
    }
  }

  /** `/` refuses a zero divisor with "Division by zero" and otherwise gives a float. */
  lemma DivideResult(l: Value, r: Value)
    ensures var res := Divide(l, r);
      && (IsInt(r) && AsInt(r) == 0 ==> res == Err(RuntimeError("Division by zero")))
      && (res.Ok? <==> IsNumber(l) && IsNumber(r) && !r.Float? && AsInt(r) != 0)
      && (res.Ok? ==> res.value.Float?)
  {
  }

  /** The only Convo runtime error a known operator raises is "Division by zero"; the rest are host exceptions. */
  lemma KnownBinaryErrors(op: string, l: Value, r: Value)
    requires op in KnownBinary
    ensures var res := BinaryValue(op, l, r);
      res.Err? && res.error.RuntimeError? ==> op == "/" && res.error.message == "Division by zero"
  {
    if op == "+" {
      AddResult(l, r);
    } else if op == "-" {
      SubtractResult(l, r);
    } else if op == "*" {
      MultiplyResult(l, r);
    } else if op == "/" {
      DivideResult(l, r);
    } else if op in {"equals", "is", "not equals", "is not"} {
      EqualResult(l, r);
    } else if op in {"greater", "greater than", "less", "less than"} {
      LessResult(l, r);
      LessResult(r, l);
    } else {
      TruthyFalsy(l);
      TruthyFalsy(r);
    }
  }

  /** Only an operator outside the fourteen known ones is reported as unknown. */
  lemma BinaryValueUnknown(op: string, l: Value, r: Value)
    ensures op in KnownBinary ==> BinaryValue(op, l, r) != Err(RuntimeError("Unknown binary operator: " + op))
    ensures op !in KnownBinary ==> BinaryValue(op, l, r) == Err(RuntimeError("Unknown binary operator: " + op))
  {
    if op in KnownBinary {
      KnownBinaryErrors(op, l, r);
      assert ("Unknown binary operator: " + op)[0] == 'U';
    }
  }

  /** The comparisons and the logical operators give a bool, and `greater` compares ints by number. */
  lemma BinaryValueResult(op: string, l: Value, r: Value)
    ensures var res := BinaryValue(op, l, r);
      && (res.Ok? && op !in {"+", "-", "*", "/"} ==> res.value.Bool?)
      && (op in {"greater", "greater than"} && IsInt(l) && IsInt(r) ==> res == Ok(Bool(AsInt(l) > AsInt(r))))
  {
    if op in {"greater", "greater than"} {
      LessResult(r, l);
    }
  }

  /** `not` negates truthiness; `-` and `+` accept numbers only; anything else is unknown. */
  lemma UnaryValueResult(op: string, v: Value)
    ensures var r := UnaryValue(op, v);
      && (op == "not" ==> (r.Ok? <==> !v.Float?) && (r.Ok? ==> r == Ok(Bool(!Truthy(v).value))))
      && (op in {"-", "+"} ==> (r.Ok? <==> IsNumber(v)) && (r.Err? ==> r == Err(TypeError)))
      && (op == "-" && IsInt(v) ==> r == Ok(Int(-AsInt(v))))
      && (op !in {"not", "-", "+"} ==> r == Err(RuntimeError("Unknown unary operator: " + op)))
  {
    TruthyFalsy(v);
  }
}
