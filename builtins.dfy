/**
 * The collection and string functions of ConvoBuiltins in convo/builtins.py.
 * The evaluator of convo/interpreter.py never looks these up, so they are
 * modelled on their own, over the Python objects they receive: scalars,
 * lists (one mutable object, shared by every reference to it) and
 * dictionaries (their entries in insertion order). Failures are the Python
 * exceptions the functions let through.
 */
module BuiltinFunctions {

  import opened Wrappers
  import opened Text

  /** A scalar argument: None, a bool, an int, a str, or some other object known by its identity and type name. */
  datatype Item =
    | NoneItem
    | BoolItem(b: bool)
    | IntItem(i: int)
    | StrItem(s: string)
    | Other(id: nat, typeName: string)

  /** A Python list, which `append` and `remove` change in place. */
  class PyList {
    var items: seq<Item>

    constructor (items: seq<Item>)
      ensures this.items == items
    {
      this.items := items;
    }
  }

  /** A dictionary as its (key, value) entries in insertion order. */
  datatype Dict = Dict(entries: seq<(Item, Item)>)

  /** Any argument of a builtin. */
  datatype Obj = Scalar(item: Item) | ListObj(list: PyList) | DictObj(dict: Dict)

  /** The Python exception a builtin raises; `Unmodelled` stands for results the model does not compute. */
  datatype Failure =
    | TypeError(message: string)
    | ValueError(message: string)
    | AttributeError(message: string)
    | Unmodelled(what: string)

  /** The heap objects an argument refers to. */
  function Footprint(o: Obj): set<object>
  {
    if o.ListObj? then {o.list} else {}
  }

  /** `type(x).__name__`. */
  function TypeName(x: Item): string
  {
    match x
    case NoneItem => "NoneType"
    case BoolItem(_) => "bool"
    case IntItem(_) => "int"
    case StrItem(_) => "str"
    case Other(_, name) => name
  }

  /** Python `a == b` on scalars: bools count as ints, other objects compare by identity. */
  predicate PyEq(a: Item, b: Item)
  {
    if (a.BoolItem? || a.IntItem?) && (b.BoolItem? || b.IntItem?) then AsInt(a) == AsInt(b)
    else if a.StrItem? && b.StrItem? then a.s == b.s
    else if a.Other? && b.Other? then a.id == b.id
    else a.NoneItem? && b.NoneItem?
  }

  function AsInt(x: Item): int
    requires x.BoolItem? || x.IntItem?
  {
    if x.BoolItem? then (if x.b then 1 else 0) else x.i
  }

  /** Python `str(x)` of a scalar. */
  function ItemText(x: Item): Result<string, Failure>
  {
    match x
    case NoneItem => Ok("None")
    case BoolItem(b) => Ok(if b then "True" else "False")
    case IntItem(i) => Ok(IntToString(i))
    case StrItem(s) => Ok(s)
    case Other(_, name) => Err(Unmodelled("str of a " + name + " object"))
  }

  /** Python `str(o)`; the text of a list or dictionary is not modelled. */
  function PyStr(o: Obj): Result<string, Failure>
  {
    if o.Scalar? then ItemText(o.item) else Err(Unmodelled("str of a container"))
  }

  /* ---------- Collections ---------- */

  /** `length`: the number of characters, elements or entries; anything else has no length. */
  function Length(o: Obj): (r: Result<nat, Failure>)
    reads Footprint(o)
    ensures r.Err? <==> o.Scalar? && !o.item.StrItem?
    ensures r.Err? ==> r.error == TypeError("Object of type " + TypeName(o.item) + " has no length")
  {
    match o
    case Scalar(StrItem(s)) => Ok(|s|)
    case Scalar(x) => Err(TypeError("Object of type " + TypeName(x) + " has no length"))
    case ListObj(l) => Ok(|l.items|)
    case DictObj(d) => Ok(|d.entries|)
  }

  /** Some element equals x. */
  predicate Member(items: seq<Item>, x: Item)
  {
    exists i :: 0 <= i < |items| && PyEq(items[i], x)
  }

  /** The index of the first element equal to x. */
  function FirstIndex(items: seq<Item>, x: Item): (k: nat)
    requires Member(items, x)
    ensures k < |items| && PyEq(items[k], x)
    ensures forall j :: 0 <= j < k ==> !PyEq(items[j], x)
  {
    if PyEq(items[0], x) then 0
    else
      assert Member(items[1..], x) by {
        var i :| 0 <= i < |items| && PyEq(items[i], x);
        assert i > 0 && items[1..][i - 1] == items[i];
      }
      1 + FirstIndex(items[1..], x)
  }

  /** `list.remove` semantics: the first element equal to x dropped, or the list as it is when there is none. */
  function RemoveFirst(items: seq<Item>, x: Item): seq<Item>
  {
    if Member(items, x) then
      var k := FirstIndex(items, x);
      items[..k] + items[k + 1..]
    else items
  }

  /** `append`: the item goes to the end of that same list, which is returned; anything else raises. */
  method Append(lst: Obj, item: Item) returns (r: Result<PyList, Failure>)
    modifies Footprint(lst)
    ensures lst.ListObj? ==> r == Ok(lst.list) && lst.list.items == old(lst.list.items) + [item]
    ensures !lst.ListObj? ==> r == Err(TypeError("Can only append to lists"))
  {
    if !lst.ListObj? {
      return Err(TypeError("Can only append to lists"));
    }
    lst.list.items := lst.list.items + [item];
    return Ok(lst.list);
  }

  /**
   * `remove`: when the item is in the list, its first occurrence is deleted
   * from that same list, which is returned; anything but a list raises.
   */
  method Remove(lst: Obj, item: Item) returns (r: Result<PyList, Failure>)
    modifies Footprint(lst)
    ensures lst.ListObj? ==> r == Ok(lst.list) && lst.list.items == RemoveFirst(old(lst.list.items), item)
    ensures !lst.ListObj? ==> r == Err(TypeError("Can only remove from lists"))
  {
    if !lst.ListObj? {
      return Err(TypeError("Can only remove from lists"));
    }
    var l := lst.list;
    var i := 0;
    while i < |l.items| && !PyEq(l.items[i], item)
      invariant i <= |l.items|
      invariant forall j :: 0 <= j < i ==> !PyEq(l.items[j], item)
    {
      i := i + 1;
    }
    if i < |l.items| {
      assert Member(l.items, item);
      l.items := l.items[..i] + l.items[i + 1..];
    }
    return Ok(l);
  }

  /** `contains`: `item in container` — a substring for a str, an element for a list, a key for a dictionary. */
  function ContainsItem(container: Obj, item: Item): (r: Result<bool, Failure>)
    reads Footprint(container)
    ensures container.ListObj? ==> r == Ok(Member(container.list.items, item))
    ensures container.DictObj? ==> r == Ok(Member(KeysOf(container.dict.entries), item))
  {
    match container
    case Scalar(StrItem(s)) =>
      if item.StrItem? then Ok(Text.Contains(s, item.s))
      else Err(TypeError("'in <string>' requires string as left operand, not " + TypeName(item)))
    case Scalar(x) => Err(TypeError("argument of type '" + TypeName(x) + "' is not iterable"))
    case ListObj(l) => Ok(Member(l.items, item))
    case DictObj(d) => Ok(Member(KeysOf(d.entries), item))
  }

  function KeysOf(entries: seq<(Item, Item)>): (ks: seq<Item>)
    ensures |ks| == |entries| && forall i :: 0 <= i < |entries| ==> ks[i] == entries[i].0
  {
    if entries == [] then [] else [entries[0].0] + KeysOf(entries[1..])
  }

  function ValuesOf(entries: seq<(Item, Item)>): (vs: seq<Item>)
    ensures |vs| == |entries| && forall i :: 0 <= i < |entries| ==> vs[i] == entries[i].1
  {
    if entries == [] then [] else [entries[0].1] + ValuesOf(entries[1..])
  }

  /** `keys`: a new list of the keys in insertion order; anything but a dictionary raises. */
  function Keys(o: Obj): (r: Result<seq<Item>, Failure>)
    ensures r.Ok? <==> o.DictObj?
    ensures r.Ok? ==> |r.value| == |o.dict.entries| && forall i :: 0 <= i < |r.value| ==> r.value[i] == o.dict.entries[i].0
    ensures r.Err? ==> r.error == TypeError("Can only get keys from dictionaries")
  {
    if o.DictObj? then Ok(KeysOf(o.dict.entries)) else Err(TypeError("Can only get keys from dictionaries"))
  }

  /** `values`: a new list of the values in insertion order; anything but a dictionary raises. */
  function Values(o: Obj): (r: Result<seq<Item>, Failure>)
    ensures r.Ok? <==> o.DictObj?
    ensures r.Ok? ==> |r.value| == |o.dict.entries| && forall i :: 0 <= i < |r.value| ==> r.value[i] == o.dict.entries[i].1
    ensures r.Err? ==> r.error == TypeError("Can only get values from dictionaries")
  {
    if o.DictObj? then Ok(ValuesOf(o.dict.entries)) else Err(TypeError("Can only get values from dictionaries"))
  }

  /* ---------- Strings ---------- */

  /** `trim`: `str(text).strip()`, whitespace being ASCII whitespace. */
  function Trim(text: Obj): (r: Result<string, Failure>)
    ensures r.Ok? <==> PyStr(text).Ok?
    ensures r.Ok? ==> |r.value| <= |PyStr(text).value| && forall k :: 0 <= k < |r.value| ==> r.value[k] in PyStr(text).value
  {
    var s :- PyStr(text);
    Ok(Strip(s))
  }

  /** The pieces of s[from..] between the occurrences of sep, found left to right without overlap. */
  function SplitFrom(s: string, sep: string, from: nat): (pieces: seq<string>)
    requires |sep| > 0 && from <= |s|
    ensures |pieces| > 0
    decreases |s| - from
  {
    match FindFrom(s, sep, from)
    case None => [s[from..]]
    case Some(i) => [s[from..i]] + SplitFrom(s, sep, i + |sep|)
  }

  /** The pieces separated by sep, as `sep.join` concatenates them. */
  function JoinText(pieces: seq<string>, sep: string): string
  {
    if |pieces| == 0 then ""
    else if |pieces| == 1 then pieces[0]
    else pieces[0] + sep + JoinText(pieces[1..], sep)
  }

  /** `split`: `str(text).split(separator)`; the default separator is one space, an empty one raises. */
  function Split(text: Obj, separator: Item := StrItem(" ")): (r: Result<seq<string>, Failure>)
    ensures r.Ok? <==> PyStr(text).Ok? && separator.StrItem? && separator.s != ""
    ensures r.Ok? ==> |r.value| > 0
    ensures PyStr(text).Ok? && separator == StrItem("") ==> r == Err(ValueError("empty separator"))
  {
    var s :- PyStr(text);
    match separator
    case StrItem(sep) =>
      if sep == "" then Err(ValueError("empty separator")) else Ok(SplitFrom(s, sep, 0))
    case NoneItem => Err(Unmodelled("split on runs of whitespace"))
    case _ => Err(TypeError("must be str or None, not " + TypeName(separator)))
  }

  /** The elements a `for` loop over the object visits: list elements, characters, dictionary keys. */
  function Elements(o: Obj): Result<seq<Item>, Failure>
    reads Footprint(o)
  {
    match o
    case ListObj(l) => Ok(l.items)
    case DictObj(d) => Ok(KeysOf(d.entries))
    case Scalar(StrItem(s)) => Ok(Characters(s))
    case Scalar(x) => Err(TypeError("'" + TypeName(x) + "' object is not iterable"))
  }

  function Characters(s: string): (cs: seq<Item>)
    ensures |cs| == |s| && forall i :: 0 <= i < |s| ==> cs[i] == StrItem([s[i]])
  {
    if s == [] then [] else [StrItem([s[0]])] + Characters(s[1..])
  }

  /** `str` of every element, stopping at the first that fails. */
  function Texts(items: seq<Item>): (r: Result<seq<string>, Failure>)
    ensures r.Ok? ==> |r.value| == |items| && forall i :: 0 <= i < |items| ==> ItemText(items[i]) == Ok(r.value[i])
  {
    if items == [] then Ok([])
    else
      var first :- ItemText(items[0]);
      var rest :- Texts(items[1..]);
      Ok([first] + rest)
  }

  /** `join`: `separator.join(str(item) for item in lst)`; the default separator is empty. */
  function Join(lst: Obj, separator: Item := StrItem("")): (r: Result<string, Failure>)
    reads Footprint(lst)
    ensures !separator.StrItem? ==> r == Err(AttributeError("'" + TypeName(separator) + "' object has no attribute 'join'"))
    ensures separator.StrItem? ==> (r.Ok? <==> Elements(lst).Ok? && Texts(Elements(lst).value).Ok?)
    ensures lst.Scalar? && !lst.item.StrItem? && separator.StrItem? ==> r.Err? && r.error.TypeError?
  {
    if !separator.StrItem? then Err(AttributeError("'" + TypeName(separator) + "' object has no attribute 'join'"))
    else
      var items :- Elements(lst);
      var texts :- Texts(items);
      Ok(JoinText(texts, separator.s))
  }

  /** Every non-overlapping occurrence of `target` in s[from..], left to right, replaced by `replacement`. */
  function ReplaceFrom(s: string, target: string, replacement: string, from: nat): string
    requires |target| > 0 && from <= |s|
    decreases |s| - from
  {
    if from == |s| then ""
    else if OccursAt(target, s, from) then replacement + ReplaceFrom(s, target, replacement, from + |target|)
    else [s[from]] + ReplaceFrom(s, target, replacement, from + 1)
  }

  /** Python's `s.replace("", replacement)`: replacement before every character and at the end. */
  function ReplaceEmpty(s: string, replacement: string): (r: string)
    ensures |r| == |s| + (|s| + 1) * |replacement|
  {
    if s == [] then replacement else replacement + [s[0]] + ReplaceEmpty(s[1..], replacement)
  }

  /** `replace`: `str(text).replace(target, replacement)`; both must be strings. */
  function Replace(text: Obj, target: Item, replacement: Item): (r: Result<string, Failure>)
    ensures r.Ok? <==> PyStr(text).Ok? && target.StrItem? && replacement.StrItem?
    ensures PyStr(text).Ok? && !target.StrItem? ==> r.Err? && r.error.TypeError?
    ensures r.Ok? && target.s == "" ==> |r.value| == |PyStr(text).value| + (|PyStr(text).value| + 1) * |replacement.s|
  {
    var s :- PyStr(text);
    if !target.StrItem? then Err(TypeError("replace() argument 1 must be str, not " + TypeName(target)))
    else if !replacement.StrItem? then Err(TypeError("replace() argument 2 must be str, not " + TypeName(replacement)))
    else if target.s == "" then Ok(ReplaceEmpty(s, replacement.s))
    else Ok(ReplaceFrom(s, target.s, replacement.s, 0))
  }

  /** `starts_with`: `str(text).startswith(prefix)`. */
  function StartsWith(text: Obj, prefix: Item): (r: Result<bool, Failure>)
    ensures r.Ok? <==> PyStr(text).Ok? && prefix.StrItem?
    ensures r == Ok(true) ==> |prefix.s| <= |PyStr(text).value|
    ensures r.Ok? && prefix.s == "" ==> r.value
  {
    var s :- PyStr(text);
    if prefix.StrItem? then Ok(IsPrefix(prefix.s, s))
    else Err(TypeError("startswith first arg must be str or a tuple of str, not " + TypeName(prefix)))
  }

  /** `ends_with`: `str(text).endswith(suffix)`. */
  function EndsWith(text: Obj, suffix: Item): (r: Result<bool, Failure>)
    ensures r.Ok? <==> PyStr(text).Ok? && suffix.StrItem?
    ensures r == Ok(true) ==> |suffix.s| <= |PyStr(text).value|
    ensures r.Ok? && suffix.s == "" ==> r.value
  {
    var s :- PyStr(text);
    if suffix.StrItem? then Ok(IsSuffix(suffix.s, s))
    else Err(TypeError("endswith first arg must be str or a tuple of str, not " + TypeName(suffix)))
  }

  /** `to_text`: `str(value)`. */
  function ToText(value: Obj): (r: Result<string, Failure>)
    ensures r.Ok? <==> value.Scalar? && !value.item.Other?
    ensures value.Scalar? && value.item.StrItem? ==> r == Ok(value.item.s)
  {
    PyStr(value)
  }
}
