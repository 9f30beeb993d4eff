/**
 * Properties of the builtins of convo/builtins.py: what `append` and
 * `remove` leave in a list, `keys`/`values` alignment, the split/join round
 * trip, `replace` as split-then-join, and the string predicates.
 */
module BuiltinFacts {

  import opened Wrappers
  import opened Text
  import opened BuiltinFunctions

  /* ---------- Lists ---------- */

  /** After an append the item is in the list. */
  lemma AppendedIsMember(items: seq<Item>, x: Item)
    ensures Member(items + [x], x)
  {
    assert (items + [x])[|items|] == x;
    assert PyEq(x, x);
  }

  /**
   * `remove` deletes exactly one element, the first equal one, and keeps the
   * order of the rest; it changes nothing when no element is equal.
   */
  lemma RemoveFirstDeletesOne(items: seq<Item>, x: Item)
    ensures !Member(items, x) ==> RemoveFirst(items, x) == items
    ensures Member(items, x) ==>
      var k := FirstIndex(items, x);
      && |RemoveFirst(items, x)| == |items| - 1
      && multiset(RemoveFirst(items, x)) + multiset{items[k]} == multiset(items)
      && RemoveFirst(items, x)[..k] == items[..k] && !Member(items[..k], x)
  {
    if Member(items, x) {
      var k := FirstIndex(items, x);
      assert items == items[..k] + [items[k]] + items[k + 1..];
      assert forall j :: 0 <= j < k ==> items[..k][j] == items[j];
    }
  }

  /** Removing what was just appended to a list without it gives the list back. */
  lemma {:induction false} AppendThenRemove(items: seq<Item>, x: Item)
    requires !Member(items, x)
    ensures RemoveFirst(items + [x], x) == items
  {
    AppendedIsMember(items, x);
    assert forall j :: 0 <= j < |items| ==> (items + [x])[j] == items[j];
    var k := FirstIndex(items + [x], x);
    assert k == |items|;
    assert (items + [x])[..k] == items;
  }

  /** Only the first occurrence goes: with two equal elements, one is still there afterwards. */
  lemma RemoveKeepsLaterOccurrence(items: seq<Item>, x: Item, i: nat, j: nat)
    requires i < j < |items| && PyEq(items[i], x) && PyEq(items[j], x)
    ensures Member(RemoveFirst(items, x), x)
  {
    var k := FirstIndex(items, x);
    assert k <= i;
    var tail := items[k + 1..];
    assert tail[j - k - 1] == items[j];
    var r := items[..k] + tail;
    assert r[j - 1] == tail[j - k - 1];
    assert RemoveFirst(items, x) == r;
    assert PyEq(r[j - 1], x);
  }

  /* ---------- Dictionaries ---------- */

  /** `keys` and `values` of a dictionary are lists of its size, pairing up as its entries in insertion order. */
  lemma KeysValuesAligned(o: Obj)
    ensures Keys(o).Ok? <==> o.DictObj?
    ensures Values(o).Ok? <==> o.DictObj?
    ensures o.DictObj? ==>
      && |Keys(o).value| == |Values(o).value| == |o.dict.entries|
      && forall i :: 0 <= i < |o.dict.entries| ==> (Keys(o).value[i], Values(o).value[i]) == o.dict.entries[i]
  {
  }

  /* ---------- split and join ---------- */

  /** A piece of a split never contains the separator. */
  lemma {:induction false} SplitPiecesFree(s: string, sep: string, from: nat)
    requires |sep| > 0 && from <= |s|
    ensures forall p :: p in SplitFrom(s, sep, from) ==> !Contains(p, sep)
    decreases |s| - from
  {
    match FindFrom(s, sep, from)
    case None =>
      PieceFree(s, sep, from, |s|);
      assert s[from..] == s[from..|s|];
    case Some(i) =>
      PieceFree(s, sep, from, i);
      SplitPiecesFree(s, sep, i + |sep|);
  }

  /** s[from..to] has no occurrence of sep when none starts in s between from and to. */
  lemma PieceFree(s: string, sep: string, from: nat, to: nat)
    requires |sep| > 0 && from <= to <= |s|
    requires forall j :: from <= j < to ==> !OccursAt(sep, s, j)
    ensures !Contains(s[from..to], sep)
  {
    var piece := s[from..to];
    forall k | 0 <= k <= |piece| - |sep|
      ensures !OccursAt(sep, piece, k)
    {
      assert !OccursAt(sep, s, from + k);
      var here, there := piece[k..k + |sep|], s[from + k..from + k + |sep|];
      forall m | 0 <= m < |sep|
        ensures here[m] == there[m]
      {
        assert piece[k + m] == s[from + k + m];
      }
      assert here == there;
    }
  }

  /** Joining the pieces of a split with the same separator gives the text back. */
  lemma {:induction false} SplitJoinFrom(s: string, sep: string, from: nat)
    requires |sep| > 0 && from <= |s|
    ensures JoinText(SplitFrom(s, sep, from), sep) == s[from..]
    decreases |s| - from
  {
    match FindFrom(s, sep, from)
    case None =>
    case Some(i) =>
      var rest := SplitFrom(s, sep, i + |sep|);
      SplitJoinFrom(s, sep, i + |sep|);
      assert SplitFrom(s, sep, from) == [s[from..i]] + rest;
      assert ([s[from..i]] + rest)[1..] == rest;
      assert s[from..] == s[from..i] + sep + s[i + |sep|..];
  }

  /** `join(split(t, s), s) == t` for every non-empty separator s; by default both use their own defaults. */
  lemma SplitJoinRoundTrip(t: string, sep: string)
    requires |sep| > 0
    ensures Split(Scalar(StrItem(t)), StrItem(sep)).Ok?
    ensures JoinText(Split(Scalar(StrItem(t)), StrItem(sep)).value, sep) == t
  {
    SplitJoinFrom(t, sep, 0);
  }

  /** The pieces joined with a separator, when the first piece grows by one character in front. */
  lemma JoinConsChar(c: char, p: string, rest: seq<string>, sep: string)
    ensures JoinText([[c] + p] + rest, sep) == [c] + JoinText([p] + rest, sep)
  {
    assert ([[c] + p] + rest)[1..] == rest;
    assert ([p] + rest)[1..] == rest;
  }

  /* ---------- replace ---------- */

  /** When no occurrence starts at `from`, the first split piece starts with s[from]. */
  lemma SplitSkipsChar(s: string, sep: string, from: nat)
    requires |sep| > 0 && from < |s| && !OccursAt(sep, s, from)
    ensures var ps := SplitFrom(s, sep, from + 1);
      SplitFrom(s, sep, from) == [[s[from]] + ps[0]] + ps[1..]
  {
    assert FindFrom(s, sep, from) == FindFrom(s, sep, from + 1);
    match FindFrom(s, sep, from + 1)
    case None =>
      assert s[from..] == [s[from]] + s[from + 1..];
    case Some(i) =>
      assert s[from..i] == [s[from]] + s[from + 1..i];
  }

  /** `replace` with a non-empty target is the split on the target joined with the replacement. */
  lemma {:induction false} ReplaceIsSplitJoin(s: string, target: string, replacement: string, from: nat)
    requires |target| > 0 && from <= |s|
    ensures ReplaceFrom(s, target, replacement, from) == JoinText(SplitFrom(s, target, from), replacement)
    decreases |s| - from
  {
    if from == |s| {
      assert !OccursAt(target, s, from);
      assert FindFrom(s, target, from) == None;
    } else if OccursAt(target, s, from) {
      ReplaceIsSplitJoin(s, target, replacement, from + |target|);
      var rest := SplitFrom(s, target, from + |target|);
      assert FindFrom(s, target, from) == Some(from);
      assert s[from..from] == "";
      assert SplitFrom(s, target, from) == [""] + rest;
      assert ([""] + rest)[1..] == rest;
    } else {
      ReplaceIsSplitJoin(s, target, replacement, from + 1);
      var ps := SplitFrom(s, target, from + 1);
      SplitSkipsChar(s, target, from);
      assert ps == [ps[0]] + ps[1..];
      JoinConsChar(s[from], ps[0], ps[1..], replacement);
    }
  }

  /** Text without the target comes back from `replace` unchanged. */
  lemma ReplaceAbsent(t: string, target: string, replacement: string)
    requires |target| > 0 && !Contains(t, target)
    ensures Replace(Scalar(StrItem(t)), StrItem(target), StrItem(replacement)) == Ok(t)
  {
    ReplaceIsSplitJoin(t, target, replacement, 0);
    FindFromContains(t, target);
  }

  /** Replacing a target with itself changes nothing. */
  lemma ReplaceSame(t: string, target: string)
    requires |target| > 0
    ensures Replace(Scalar(StrItem(t)), StrItem(target), StrItem(target)) == Ok(t)
  {
    ReplaceIsSplitJoin(t, target, target, 0);
    SplitJoinFrom(t, target, 0);
  }

  /* ---------- Prefixes, suffixes, trimming ---------- */

  /** `starts_with(t, p)` holds iff t is p followed by something. */
  lemma StartsWithIff(t: string, p: string)
    ensures StartsWith(Scalar(StrItem(t)), StrItem(p)).Ok?
    ensures StartsWith(Scalar(StrItem(t)), StrItem(p)).value <==> exists rest :: t == p + rest
  {
    if IsPrefix(p, t) {
      assert t == p + t[|p|..];
    }
    if exists rest :: t == p + rest {
      var rest :| t == p + rest;
      assert t[..|p|] == p;
    }
  }

  /** `ends_with(t, x)` holds iff t is something followed by x. */
  lemma EndsWithIff(t: string, x: string)
    ensures EndsWith(Scalar(StrItem(t)), StrItem(x)).Ok?
    ensures EndsWith(Scalar(StrItem(t)), StrItem(x)).value <==> exists front :: t == front + x
  {
    if IsSuffix(x, t) {
      assert t == t[..|t| - |x|] + x;
    }
    if exists front :: t == front + x {
      var front :| t == front + x;
      assert t[|front|..] == x;
    }
  }

  /** Only strings are accepted as the prefix. */
  lemma StartsWithNeedsText(t: Obj, p: Item)
    requires PyStr(t).Ok? && !p.StrItem?
    ensures StartsWith(t, p).Err? && StartsWith(t, p).error.TypeError?
  {
  }

  /**
   * `trim` removes exactly the whitespace at both ends: the text is
   * whitespace, then the result, then whitespace.
   */
  lemma TrimSpec(t: string)
    ensures Trim(Scalar(StrItem(t))).Ok?
    ensures var r := Trim(Scalar(StrItem(t))).value;
      exists a, b :: t == a + r + b && AllSpace(a) && AllSpace(b)
  {
    assert PyStr(Scalar(StrItem(t))) == Ok(t);
    assert Trim(Scalar(StrItem(t))) == Ok(Strip(t));
    StripSplits(t);
  }

  /** `Strip` leaves whitespace on either side of what it keeps. */
  lemma StripSplits(t: string)
    ensures exists a, b :: t == a + Strip(t) + b && AllSpace(a) && AllSpace(b)
  {
    var s := TrimStart(t);
    var r := TrimEnd(s);
    var a := t[..|t| - |s|];
    var b := s[|r|..];
    LeadingSpace(t);
    TrailingSpace(s);
    assert t == a + s;
    assert s == r + b;
    Regroup(a, r, b);
    assert AllSpace(a) && AllSpace(b);
  }

  /** The result of `trim` neither starts nor ends with whitespace. */
  lemma TrimEdges(t: string)
    ensures Trim(Scalar(StrItem(t))).Ok?
    ensures var r := Trim(Scalar(StrItem(t))).value;
      r != [] ==> !IsSpace(r[0]) && !IsSpace(r[|r| - 1])
  {
    var s := TrimStart(t);
    var r := TrimEnd(s);
    assert PyStr(Scalar(StrItem(t))) == Ok(t);
    assert Trim(Scalar(StrItem(t))) == Ok(r);
    if r != [] {
      assert r[0] == s[0];
    }
  }

  lemma Regroup(a: string, r: string, b: string)
    ensures a + (r + b) == a + r + b
  {
  }

  lemma LeadingSpace(t: string)
    ensures AllSpace(t[..|t| - |TrimStart(t)|])
  {
    var a := t[..|t| - |TrimStart(t)|];
    forall i | 0 <= i < |a|
      ensures IsSpace(a[i])
    {
      assert a[i] == t[i];
    }
  }

  lemma TrailingSpace(s: string)
    ensures AllSpace(s[|TrimEnd(s)|..])
  {
    var r := TrimEnd(s);
    var b := s[|r|..];
    forall i | 0 <= i < |b|
      ensures IsSpace(b[i])
    {
      assert b[i] == s[|r| + i];
    }
  }

  predicate AllSpace(s: string)
  {
    forall i :: 0 <= i < |s| ==> IsSpace(s[i])
  }

  /** Trimming twice is trimming once. */
  lemma TrimIdempotent(t: string)
    ensures Trim(Scalar(StrItem(t))).Ok?
    ensures Trim(Scalar(StrItem(Trim(Scalar(StrItem(t))).value))) == Trim(Scalar(StrItem(t)))
  {
    var r := TrimEnd(TrimStart(t));
    assert r != [] ==> !IsSpace(r[0]);
    assert TrimStart(r) == r;
    assert TrimEnd(r) == r;
  }

  /* ---------- length and contains ---------- */

  /** `length` of a string, list or dictionary is its number of characters, elements or entries. */
  lemma LengthCounts(o: Obj)
    ensures o.Scalar? && o.item.StrItem? ==> Length(o) == Ok(|o.item.s|)
    ensures o.ListObj? ==> Length(o) == Ok(|o.list.items|)
    ensures o.DictObj? ==> Length(o) == Ok(|o.dict.entries|)
  {
  }

  /** `contains` on a string is the substring test, and asks for a string operand. */
  lemma ContainsOnText(s: string, x: Item)
    ensures ContainsItem(Scalar(StrItem(s)), x).Ok? <==> x.StrItem?
    ensures x.StrItem? ==> (ContainsItem(Scalar(StrItem(s)), x).value <==> exists i :: OccursAt(x.s, s, i))
  {
    if x.StrItem? && exists i :: OccursAt(x.s, s, i) {
      var i :| OccursAt(x.s, s, i);
      assert 0 <= i <= |s| - |x.s|;
    }
  }

  /** `str` of each element of a list of strings is the string itself. */
  lemma {:induction false} TextsOfStrings(items: seq<Item>, pieces: seq<string>)
    requires |items| == |pieces| && forall i :: 0 <= i < |items| ==> items[i] == StrItem(pieces[i])
    ensures Texts(items) == Ok(pieces)
    decreases |items|
  {
    if items != [] {
      TextsOfStrings(items[1..], pieces[1..]);
      assert [pieces[0]] + pieces[1..] == pieces;
    }
  }

  /** `join` of a list of strings puts the separator between consecutive elements. */
  lemma JoinStrings(l: PyList, pieces: seq<string>, sep: string)
    requires |l.items| == |pieces| && forall i :: 0 <= i < |pieces| ==> l.items[i] == StrItem(pieces[i])
    ensures Join(ListObj(l), StrItem(sep)) == Ok(JoinText(pieces, sep))
  {
    TextsOfStrings(l.items, pieces);
  }

  /**
   * `to_text` of an int is its decimal rendering, read back as the number,
   * with a minus sign in front of a negative one.
   */
  lemma {:induction false} ToTextInt(n: int)
    ensures ToText(Scalar(IntItem(n))).Ok?
    ensures var s := ToText(Scalar(IntItem(n))).value;
      if n >= 0 then (forall i :: 0 <= i < |s| ==> IsDigit(s[i])) && DigitsValue(s) == n
      else |s| > 1 && s[0] == '-' && (forall i :: 1 <= i < |s| ==> IsDigit(s[i])) && DigitsValue(s[1..]) == -n
  {
    if n >= 0 {
      NatToStringRoundTrip(n);
    } else {
      NatToStringRoundTrip(-n);
      var s := ToText(Scalar(IntItem(n))).value;
      assert s[1..] == NatToString(-n);
    }
  }

  /** `to_text` of None and of the bools is Python's spelling of them. */
  lemma ToTextConstants()
    ensures ToText(Scalar(NoneItem)) == Ok("None")
    ensures ToText(Scalar(BoolItem(true))) == Ok("True") && ToText(Scalar(BoolItem(false))) == Ok("False")
  {
  }
}
