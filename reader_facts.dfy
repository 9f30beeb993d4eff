/** Properties of the lexer's readers: indentation width, string literals and numerals. */
module ReaderFacts {

  import opened Wrappers
  import opened Text
  import opened Tokens
  import opened Scanner

  /** The indentation width is the sum over the leading blanks, 1 per space and 4 per tab. */
  lemma {:induction false} MeasureIndentWidth(text: string, st: LexState, level: nat)
    requires Pos(text, st)
    ensures var r := MeasureIndent(text, st, level);
      && r.0 == level + Width(text[st.pos..r.1.pos])
      && (forall i :: st.pos <= i < r.1.pos ==> IsBlank(text[i]))
      && (r.1.pos == |text| || !IsBlank(text[r.1.pos]))
    decreases |text| - st.pos
  {
    if st.pos < |text| && IsBlank(text[st.pos]) {
      var st1 := Advance(text, st);
      var level1 := level + (if text[st.pos] == ' ' then 1 else 4);
      MeasureIndentWidth(text, st1, level1);
      var r := MeasureIndent(text, st1, level1);
      assert text[st.pos..r.1.pos][1..] == text[st.pos + 1..r.1.pos];
    }
  }

  /** How a string literal spells one character inside quotes `quote`. */
  function EscapeChar(c: char, quote: char): string
  {
    if c == '\n' then "\\n"
    else if c == '\t' then "\\t"
    else if c == '\\' then "\\\\"
    else if c == quote then ['\\', quote]
    else [c]
  }

  /** The body of a string literal spelling s. */
  function Escape(s: string, quote: char): string
  {
    if s == [] then [] else EscapeChar(s[0], quote) + Escape(s[1..], quote)
  }

  /** A string literal spelling s between quotes. */
  function Quoted(s: string, quote: char): string
  {
    [quote] + Escape(s, quote) + [quote]
  }

  /** text holds s starting at index at. */
  predicate HoldsAt(text: string, at: nat, s: string)
  {
    at + |s| <= |text| && forall k :: 0 <= k < |s| ==> text[at + k] == s[k]
  }

  /** What text holds at `at` splits into its two parts. */
  lemma HoldsAtSplit(text: string, at: nat, a: string, b: string)
    requires HoldsAt(text, at, a + b)
    ensures HoldsAt(text, at, a) && HoldsAt(text, at + |a|, b)
  {
    forall k | 0 <= k < |a|
      ensures text[at + k] == a[k]
    {
      assert (a + b)[k] == a[k];
    }
    forall k | 0 <= k < |b|
      ensures text[at + |a| + k] == b[k]
    {
      assert text[at + (|a| + k)] == (a + b)[|a| + k];
    }
  }

  /** Reading the spelling of one character appends that character. */
  lemma ReadStringStep(text: string, st: LexState, quote: char, value: string, c: char)
    requires Pos(text, st) && IsQuote(quote)
    requires HoldsAt(text, st.pos, EscapeChar(c, quote)) && st.pos + |EscapeChar(c, quote)| < |text|
    ensures var st1 := Advance(text, st);
      var next := if |EscapeChar(c, quote)| == 2 then Advance(text, st1) else st1;
      next.pos == st.pos + |EscapeChar(c, quote)|
      && ReadStringFrom(text, st, quote, value) == ReadStringFrom(text, next, quote, value + [c])
  {
    var ec := EscapeChar(c, quote);
    assert text[st.pos + 0] == ec[0];
    if |ec| == 2 {
      assert text[st.pos + 1] == ec[1];
    }
  }

  /** Reading an escaped body followed by the closing quote appends exactly s. */
  lemma {:induction false} ReadStringFromEscaped(text: string, st: LexState, quote: char, value: string, s: string)
    requires Pos(text, st) && IsQuote(quote)
    requires HoldsAt(text, st.pos, Escape(s, quote) + [quote])
    ensures var r := ReadStringFrom(text, st, quote, value);
      r.Ok? && r.value.0 == value + s && r.value.1.pos == st.pos + |Escape(s, quote)| + 1
    decreases s
  {
    var e := Escape(s, quote) + [quote];
    if s == [] {
      assert text[st.pos + 0] == e[0];
    } else {
      var c := s[0];
      var ec := EscapeChar(c, quote);
      var rest := Escape(s[1..], quote) + [quote];
      assert e == ec + rest;
      HoldsAtSplit(text, st.pos, ec, rest);
      ReadStringStep(text, st, quote, value, c);
      var st1 := Advance(text, st);
      var next := if |ec| == 2 then Advance(text, st1) else st1;
      ReadStringFromEscaped(text, next, quote, value + [c], s[1..]);
      assert value + [c] + s[1..] == value + s;
    }
  }

  /** A string literal reads back as the string it spells. */
  lemma ReadStringRoundTrip(text: string, st: LexState, s: string, quote: char)
    requires Pos(text, st) && IsQuote(quote)
    requires HoldsAt(text, st.pos, Quoted(s, quote))
    ensures var r := ReadString(text, st);
      r.Ok? && r.value.0 == s && r.value.1.pos == st.pos + |Quoted(s, quote)|
  {
    var q := Quoted(s, quote);
    assert text[st.pos + 0] == q[0];
    assert HoldsAt(text, st.pos + 1, Escape(s, quote) + [quote]) by {
      forall k | 0 <= k < |Escape(s, quote)| + 1
        ensures text[st.pos + 1 + k] == (Escape(s, quote) + [quote])[k]
      {
        assert text[st.pos + (1 + k)] == q[1 + k];
      }
    }
    ReadStringFromEscaped(text, Advance(text, st), quote, "", s);
  }

  /** How a string literal whose body starts at i and is closed by q ends. */
  datatype LiteralStop =
    | ClosedAt(next: nat)   // the index just after the closing quote
    | RunsOut               // the text ends before a closing quote
    | EndsInBackslash       // the text ends right after a backslash

  /**
   * Where a string literal closed by q, whose body starts at i, stops. A
   * backslash takes the character after it along, so an escaped quote does
   * not close the literal.
   */
  function LiteralEnd(text: string, i: nat, q: char): (r: LiteralStop)
    ensures r.ClosedAt? ==> i < r.next <= |text| && text[r.next - 1] == q
    decreases |text| - i
  {
    if i >= |text| then RunsOut
    else if text[i] == q then ClosedAt(i + 1)
    else if text[i] == '\\' then (if i + 1 < |text| then LiteralEnd(text, i + 2, q) else EndsInBackslash)
    else LiteralEnd(text, i + 1, q)
  }

  /** `read_string` succeeds exactly when the literal closes, and stops just after its closing quote. */
  lemma {:induction false} ReadStringFromEnd(text: string, st: LexState, q: char, value: string)
    requires Pos(text, st)
    ensures var r := ReadStringFrom(text, st, q, value); var e := LiteralEnd(text, st.pos, q);
      (r.Ok? <==> e.ClosedAt?) && (r.Ok? ==> r.value.1.pos == e.next)
    decreases |text| - st.pos
  {
    if st.pos < |text| && text[st.pos] != q {
      var st1 := Advance(text, st);
      if text[st.pos] == '\\' {
        if st1.pos < |text| {
          ReadStringFromEnd(text, Advance(text, st1), q, value + [Unescape(text[st1.pos], q)]);
        }
      } else {
        ReadStringFromEnd(text, st1, q, value + [text[st.pos]]);
      }
    }
  }

  /**
   * A literal that runs out raises SyntaxError "Unterminated string"; one
   * whose text ends on a lone backslash fails in the host instead, because
   * the escape branch appends the missing character.
   */
  lemma {:induction false} ReadStringFromUnterminated(text: string, st: LexState, quote: char, value: string)
    requires Pos(text, st)
    ensures var r := ReadStringFrom(text, st, quote, value); var e := LiteralEnd(text, st.pos, quote);
      && (e.RunsOut? ==> r.Err? && r.error.SyntaxError? && IsSuffix("Unterminated string", r.error.message))
      && (e.EndsInBackslash? ==> r == Err(HostFault(NoneConcat)))
    decreases |text| - st.pos
  {
    if st.pos < |text| && text[st.pos] != quote {
      var st1 := Advance(text, st);
      if text[st.pos] == '\\' {
        if st1.pos < |text| {
          ReadStringFromUnterminated(text, Advance(text, st1), quote, value + [Unescape(text[st1.pos], quote)]);
        }
      } else {
        ReadStringFromUnterminated(text, st1, quote, value + [text[st.pos]]);
      }
    }
  }

  /** A body with no quote and no backslash runs out. */
  lemma {:induction false} PlainBodyRunsOut(text: string, i: nat, quote: char)
    requires forall k :: i <= k < |text| ==> text[k] != quote && text[k] != '\\'
    ensures LiteralEnd(text, i, quote).RunsOut?
    decreases |text| - i
  {
    if i < |text| {
      PlainBodyRunsOut(text, i + 1, quote);
    }
  }

  /** A string literal missing its closing quote raises "Unterminated string"; one cut off after a backslash, a host TypeError. */
  lemma ReadStringUnterminated(text: string, st: LexState)
    requires Pos(text, st) && st.pos < |text|
    ensures var r := ReadString(text, st); var e := LiteralEnd(text, st.pos + 1, text[st.pos]);
      && (r.Ok? <==> e.ClosedAt?)
      && (e.RunsOut? ==> r.Err? && r.error.SyntaxError? && IsSuffix("Unterminated string", r.error.message))
      && (e.EndsInBackslash? ==> r == Err(HostFault(NoneConcat)))
  {
    ReadStringFromEnd(text, Advance(text, st), text[st.pos], "");
    ReadStringFromUnterminated(text, Advance(text, st), text[st.pos], "");
  }

  /** An escaped character other than n and t stands for itself. */
  lemma UnescapeOther(next: char, quote: char)
    requires next != 'n' && next != 't'
    ensures Unescape(next, quote) == next
  {
  }

  /** Appending a digit, or a first dot, to a numeral gives a numeral. */
  lemma NumeralSnoc(value: string, hasDot: bool, c: char)
    requires IsNumeral(value) && Dots(value) == (if hasDot then 1 else 0)
    requires IsDigit(c) || (c == '.' && !hasDot)
    ensures IsNumeral(value + [c]) && Dots(value + [c]) == (if hasDot || c == '.' then 1 else 0)
  {
    assert (value + [c])[..|value|] == value;
  }

  /** The numeral read is the text consumed. */
  lemma {:induction false} ReadNumeralSpan(text: string, st: LexState, value: string, hasDot: bool)
    requires Pos(text, st)
    requires IsNumeral(value) && Dots(value) == (if hasDot then 1 else 0)
    ensures var r := ReadNumeral(text, st, value, hasDot);
      r.0 == value + text[st.pos..r.2.pos]
    decreases |text| - st.pos
  {
    if st.pos < |text| && (IsDigit(text[st.pos]) || text[st.pos] == '.') && !(text[st.pos] == '.' && hasDot) {
      var c := text[st.pos];
      assert (value + [c])[..|value|] == value;
      var st1 := Advance(text, st);
      ReadNumeralSpan(text, st1, value + [c], hasDot || c == '.');
      var r := ReadNumeral(text, st1, value + [c], hasDot || c == '.');
      assert ReadNumeral(text, st, value, hasDot) == r;
      assert text[st.pos..r.2.pos] == [c] + text[st1.pos..r.2.pos];
    }
  }

  /** Reading stops at the first character that is neither a digit nor a dot, or at a second dot. */
  lemma {:induction false} ReadNumeralStops(text: string, st: LexState, value: string, hasDot: bool)
    requires Pos(text, st)
    requires IsNumeral(value) && Dots(value) == (if hasDot then 1 else 0)
    ensures var r := ReadNumeral(text, st, value, hasDot);
      && (hasDot ==> r.1)
      && (r.2.pos == |text| || !(IsDigit(text[r.2.pos]) || text[r.2.pos] == '.') || (r.1 && text[r.2.pos] == '.'))
    decreases |text| - st.pos
  {
    if st.pos < |text| && (IsDigit(text[st.pos]) || text[st.pos] == '.') && !(text[st.pos] == '.' && hasDot) {
      var c := text[st.pos];
      NumeralSnoc(value, hasDot, c);
      ReadNumeralStops(text, Advance(text, st), value + [c], hasDot || c == '.');
    }
  }

  /**
   * A number token is an int unless its numeral holds a dot; the numeral is
   * the text read, with at most one dot.
   */
  lemma ReadNumberValue(text: string, st: LexState)
    requires Pos(text, st) && st.pos < |text| && IsDigit(text[st.pos])
    ensures var r := ReadNumber(text, st);
      var numeral := text[st.pos..r.1.pos];
      && (r.0.Dotted? ==> r.0.numeral == numeral && Dots(numeral) == 1)
      && (r.0.Whole? ==> (forall i :: 0 <= i < |numeral| ==> IsDigit(numeral[i])) && r.0.i == DigitsValue(numeral))
      && (r.0.Dotted? || r.0.Whole?)
      && (r.1.pos == |text| || !(IsDigit(text[r.1.pos]) || text[r.1.pos] == '.') || (r.0.Dotted? && text[r.1.pos] == '.'))
  {
    ReadNumeralStops(text, st, "", false);
    ReadNumeralSpan(text, st, "", false);
    var n := ReadNumeral(text, st, "", false);
    assert n.0 == text[st.pos..n.2.pos];
    if !n.1 {
      NoDotsAllDigits(n.0);
    }
  }

  /** `is` is a second spelling of `equals`; `than` stays an identifier. */
  lemma KeywordSpellings()
    ensures WordType("is") == EQUALS && WordType("than") == IDENTIFIER
  {
  }

  /* ---------- Words ignore letter case ---------- */

  /** Two texts that differ at most in the case of their letters. */
  predicate SameUpToCase(a: string, b: string)
  {
    |a| == |b| && forall k :: 0 <= k < |a| ==> LowerChar(a[k]) == LowerChar(b[k])
  }

  /** Characters equal up to case are both word characters or neither, and both line feeds or neither. */
  lemma LowerCharAgrees(c: char, d: char)
    requires LowerChar(c) == LowerChar(d)
    ensures IsWordChar(c) <==> IsWordChar(d)
    ensures IsAlpha(c) <==> IsAlpha(d)
    ensures c == '\n' <==> d == '\n'
  {
  }

  lemma {:induction false} LineFeedsUpToCase(a: string, b: string, n: nat)
    requires SameUpToCase(a, b) && n <= |a|
    ensures LineFeeds(a, n) == LineFeeds(b, n)
  {
    if n > 0 {
      LowerCharAgrees(a[n - 1], b[n - 1]);
      LineFeedsUpToCase(a, b, n - 1);
    }
  }

  /** Reading a word from texts equal up to case stops at the same place, with words equal up to case. */
  lemma {:induction false} ReadWordUpToCase(a: string, b: string, st: LexState, va: string, vb: string)
    requires Pos(a, st) && Pos(b, st) && SameUpToCase(a, b) && SameUpToCase(va, vb)
    ensures var ra := ReadWord(a, st, va); var rb := ReadWord(b, st, vb);
      ra.1 == rb.1 && SameUpToCase(ra.0, rb.0)
    decreases |a| - st.pos
  {
    if st.pos < |a| {
      LowerCharAgrees(a[st.pos], b[st.pos]);
      if IsWordChar(a[st.pos]) {
        var st1 := Advance(a, st);
        assert Advance(b, st) == st1;
        ReadWordUpToCase(a, b, st1, va + [a[st.pos]], vb + [b[st.pos]]);
      }
    }
  }

  /** The word read is the run of word characters passed over. */
  lemma {:induction false} ReadWordSpan(text: string, st: LexState, value: string)
    requires Pos(text, st)
    ensures var r := ReadWord(text, st, value);
      && r.0 == value + text[st.pos..r.1.pos]
      && (forall k :: st.pos <= k < r.1.pos ==> IsWordChar(text[k]))
      && (r.1.pos == |text| || !IsWordChar(text[r.1.pos]))
    decreases |text| - st.pos
  {
    if st.pos < |text| && IsWordChar(text[st.pos]) {
      var c := text[st.pos];
      var st1 := Advance(text, st);
      ReadWordSpan(text, st1, value + [c]);
      var r := ReadWord(text, st1, value + [c]);
      assert ReadWord(text, st, value) == r;
      assert text[st.pos..r.1.pos] == [c] + text[st1.pos..r.1.pos];
    }
  }

  /**
   * Keywords and identifiers ignore letter case: at a word, texts equal up
   * to case scan to the same token and the same state, so `Say`, `SAY` and
   * `say` all give SAY with value "say".
   */
  lemma ScanWordIgnoresCase(a: string, b: string, st: LexState)
    requires Pos(a, st) && st.pos < |a| && (IsAlpha(a[st.pos]) || a[st.pos] == '_')
    requires SameUpToCase(a, b)
    ensures Pos(b, st) && ScanToken(a, st) == ScanToken(b, st)
  {
    LineFeedsUpToCase(a, b, st.pos);
    LowerCharAgrees(a[st.pos], b[st.pos]);
    ReadWordUpToCase(a, b, st, "", "");
    var wa := ReadWord(a, st, "");
    var wb := ReadWord(b, st, "");
    assert Lower(wa.0) == Lower(wb.0);
  }

  /**
   * A word scans to one token whose value is the lower-cased run of word
   * characters at the position, and whose type is that spelling's keyword
   * or IDENTIFIER.
   */
  lemma ScanWordToken(text: string, st: LexState)
    requires Pos(text, st) && st.pos < |text| && (IsAlpha(text[st.pos]) || text[st.pos] == '_')
    ensures var r := ScanToken(text, st);
      r.Ok? && var end := r.value.0.pos; var word := Lower(text[st.pos..end]);
      && (forall k :: st.pos <= k < end ==> IsWordChar(text[k]))
      && (end == |text| || !IsWordChar(text[end]))
      && r.value.0.tokens == st.tokens + [Token(WordType(word), Text(word), st.line, r.value.0.column)]
      && (forall k :: 0 <= k < |word| ==> !IsUpper(word[k]))
  {
    ReadWordSpan(text, st, "");
    var w := ReadWord(text, st, "");
    assert w.0 == text[st.pos..w.1.pos];
  }

  /** `Say` and `SAY` differ from `say` only in case, and `say` is the SAY keyword. */
  lemma SayAnyCase()
    ensures SameUpToCase("Say", "say") && SameUpToCase("SAY", "say")
    ensures WordType(Lower("SAY")) == SAY && Lower("Say") == "say"
  {
    assert Lower("SAY") == "say";
  }
}
