/**
 * Properties of the tokenizer in scanner.dfy: the shape of the indentation
 * stack and of the token list, line feeds, and the behaviour of the readers.
 */
module ScannerFacts {

  import opened Wrappers
  import opened Text
  import opened Tokens
  import opened Scanner
  import opened ReaderFacts

  /** A non-empty prefix of a valid stack is valid. */
  lemma PrefixValid(stack: seq<int>, k: nat)
    requires ValidStack(stack) && 0 < k <= |stack|
    ensures ValidStack(stack[..k])
  {
  }

  /** Popping deeper levels stops at the innermost level not above `level`. */
  lemma {:induction false} PopDeeperStack(st: LexState, level: int)
    requires ValidStack(st.stack) && 0 <= level
    ensures var r := PopDeeper(st, level);
      && 0 < |r.stack|
      && r.stack == st.stack[..|r.stack|]
      && Top(r.stack) <= level
      && (forall i :: |r.stack| <= i < |st.stack| ==> st.stack[i] > level)
    decreases |st.stack|
  {
    if Top(st.stack) > level {
      var popped := st.stack[..|st.stack| - 1];
      PrefixValid(st.stack, |st.stack| - 1);
      var st1 := Emit(st.(stack := popped), Token(DEDENT, NoValue, st.line, st.column));
      PopDeeperStack(st1, level);
      var r := PopDeeper(st1, level);
      assert popped[..|r.stack|] == st.stack[..|r.stack|];
    }
  }

  /** Popping deeper levels emits one DEDENT per level popped. */
  lemma {:induction false} PopDeeperDedents(st: LexState, level: int)
    ensures var r := PopDeeper(st, level);
      Count(r.tokens, DEDENT) == Count(st.tokens, DEDENT) + (|st.stack| - |r.stack|)
    decreases |st.stack|
  {
    if |st.stack| > 0 && Top(st.stack) > level {
      var tok := Token(DEDENT, NoValue, st.line, st.column);
      CountSnoc(st.tokens, tok, DEDENT);
      PopDeeperDedents(Emit(st.(stack := st.stack[..|st.stack| - 1]), tok), level);
    }
  }

  /** Popping deeper levels emits no token other than DEDENT. */
  lemma {:induction false} PopDeeperOthers(st: LexState, level: int, t: TokenType)
    requires t != DEDENT
    ensures Count(PopDeeper(st, level).tokens, t) == Count(st.tokens, t)
    decreases |st.stack|
  {
    if |st.stack| > 0 && Top(st.stack) > level {
      var tok := Token(DEDENT, NoValue, st.line, st.column);
      CountSnoc(st.tokens, tok, t);
      PopDeeperOthers(Emit(st.(stack := st.stack[..|st.stack| - 1]), tok), level, t);
    }
  }

  /** Popping deeper levels keeps the shape. */
  lemma PopDeeperShape(st: LexState, level: int)
    requires Shape(st.tokens, st.stack) && 0 <= level
    ensures var r := PopDeeper(st, level);
      Shape(r.tokens, r.stack)
  {
    PopDeeperStack(st, level);
    PopDeeperDedents(st, level);
    PopDeeperOthers(st, level, INDENT);
    PopDeeperOthers(st, level, EOF);
    var r := PopDeeper(st, level);
    PrefixValid(st.stack, |r.stack|);
  }

  /** Pushing a level above the top, with its INDENT, keeps the shape. */
  lemma PushShape(st: LexState, level: int)
    requires Shape(st.tokens, st.stack) && level > Top(st.stack)
    ensures Shape(st.tokens + [Token(INDENT, NoValue, st.line, st.column)], st.stack + [level])
  {
    var tok := Token(INDENT, NoValue, st.line, st.column);
    CountSnoc(st.tokens, tok, INDENT);
    CountSnoc(st.tokens, tok, DEDENT);
    CountSnoc(st.tokens, tok, EOF);
  }

  /** The indentation step keeps the lexer's invariant. */
  lemma HandleIndentationShape(text: string, st: LexState)
    requires Wf(text, st)
    ensures var r := HandleIndentation(text, st);
      r.Ok? ==> Wf(text, r.value)
  {
    var m := MeasureIndent(text, st, 0);
    var level, st1 := m.0, m.1;
    if level > Top(st1.stack) {
      PushShape(st1, level);
    } else if level < Top(st1.stack) {
      PopDeeperShape(st1, level);
    }
  }

  /* ---------- Line feeds outside string literals ---------- */

  /**
   * The line feeds of text[i..] that lie outside string literals, reading
   * from an index i that is outside any literal. A quote opens a literal
   * that runs to its LiteralEnd; an unclosed one hides the rest of the text.
   */
  function OutsideFeeds(text: string, i: nat): nat
    decreases |text| - i
  {
    if i >= |text| then 0
    else if IsQuote(text[i]) then
      match LiteralEnd(text, i + 1, text[i])
      case ClosedAt(j) => OutsideFeeds(text, j)
      case _ => 0
    else (if text[i] == '\n' then 1 else 0) + OutsideFeeds(text, i + 1)
  }

  /** Between p and q there is no quote and no line feed. */
  predicate Plain(text: string, p: nat, q: nat)
  {
    p <= q <= |text| && forall k :: p <= k < q ==> !IsQuote(text[k]) && text[k] != '\n'
  }

  lemma PlainStep(text: string, p: nat, q: nat)
    requires p < |text| && !IsQuote(text[p]) && text[p] != '\n' && Plain(text, p + 1, q)
    ensures Plain(text, p, q)
  {
  }

  /** Passing over plain characters passes no line feed outside a literal. */
  lemma {:induction false} PlainFeeds(text: string, p: nat, q: nat)
    requires Plain(text, p, q)
    ensures OutsideFeeds(text, p) == OutsideFeeds(text, q)
    decreases q - p
  {
    if p < q {
      PlainFeeds(text, p + 1, q);
    }
  }

  /** Without quotes, every line feed is outside a literal. */
  lemma {:induction false} QuoteFreeFeeds(text: string, p: nat)
    requires p <= |text| && forall i :: p <= i < |text| ==> !IsQuote(text[i])
    ensures LineFeeds(text, p) + OutsideFeeds(text, p) == LineFeeds(text, |text|)
    decreases |text| - p
  {
    if p < |text| {
      QuoteFreeFeeds(text, p + 1);
    }
  }

  /** A line feed inside a literal is not outside one: `"` line feed `"` has one line feed and none outside. */
  lemma FeedInLiteral()
    ensures var text := ['"', '\n', '"'];
      LineFeeds(text, |text|) == 1 && OutsideFeeds(text, 0) == 0
  {
    var text := ['"', '\n', '"'];
    assert LiteralEnd(text, 1, '"') == ClosedAt(3);
  }

  lemma {:induction false} SkipWhitespacePlain(text: string, st: LexState)
    requires Pos(text, st)
    ensures Plain(text, st.pos, SkipWhitespace(text, st).pos)
    decreases |text| - st.pos
  {
    if st.pos < |text| && IsBlank(text[st.pos]) {
      SkipWhitespacePlain(text, Advance(text, st));
    }
  }

  lemma {:induction false} MeasureIndentPlain(text: string, st: LexState, level: nat)
    requires Pos(text, st)
    ensures Plain(text, st.pos, MeasureIndent(text, st, level).1.pos)
    decreases |text| - st.pos
  {
    if st.pos < |text| && IsBlank(text[st.pos]) {
      MeasureIndentPlain(text, Advance(text, st), level + (if text[st.pos] == ' ' then 1 else 4));
    }
  }

  lemma ReadNumeralPlain(text: string, st: LexState, value: string, hasDot: bool)
    requires Pos(text, st) && IsNumeral(value) && Dots(value) == (if hasDot then 1 else 0)
    ensures Plain(text, st.pos, ReadNumeral(text, st, value, hasDot).2.pos)
  {
    var r := ReadNumeral(text, st, value, hasDot);
    ReadNumeralSpan(text, st, value, hasDot);
    forall k | st.pos <= k < r.2.pos
      ensures !IsQuote(text[k]) && text[k] != '\n'
    {
      assert text[k] == r.0[|value| + (k - st.pos)];
    }
  }

  lemma {:induction false} ReadWordPlain(text: string, st: LexState, value: string)
    requires Pos(text, st)
    ensures Plain(text, st.pos, ReadWord(text, st, value).1.pos)
    decreases |text| - st.pos
  {
    if st.pos < |text| && IsWordChar(text[st.pos]) {
      ReadWordPlain(text, Advance(text, st), value + [text[st.pos]]);
    }
  }

  /** The indentation step emits no NEWLINE, reads no line feed, and passes no line feed outside a literal. */
  lemma HandleIndentationNewlines(text: string, st: LexState)
    requires Pos(text, st) && |st.stack| > 0
    ensures var r := HandleIndentation(text, st);
      r.Ok? ==> r.value.line == st.line && Count(r.value.tokens, NEWLINE) == Count(st.tokens, NEWLINE)
    ensures var r := HandleIndentation(text, st);
      r.Ok? ==> OutsideFeeds(text, r.value.pos) == OutsideFeeds(text, st.pos)
  {
    var m := MeasureIndent(text, st, 0);
    var level, st1 := m.0, m.1;
    MeasureIndentPlain(text, st, 0);
    PlainFeeds(text, st.pos, st1.pos);
    if level > Top(st1.stack) {
      CountSnoc(st1.tokens, Token(INDENT, NoValue, st1.line, st1.column), NEWLINE);
    } else if level < Top(st1.stack) {
      PopDeeperOthers(st1, level, NEWLINE);
    }
  }

  /** Popping the levels deeper than w leaves w on top exactly when w was on the stack. */
  lemma PopDeeperFinds(st: LexState, w: int)
    requires ValidStack(st.stack) && 0 <= w
    ensures var r := PopDeeper(st, w);
      |r.stack| > 0 && (Top(r.stack) == w <==> w in st.stack)
  {
    PopDeeperStack(st, w);
    var n := |PopDeeper(st, w).stack|;
    if w in st.stack {
      var k :| 0 <= k < |st.stack| && st.stack[k] == w;
      assert k < n;
      assert k == n - 1;
    }
  }

  /**
   * The indentation step fails, with SyntaxError "Invalid indentation",
   * exactly when the line dedents to a width that is not on the stack; otherwise the stack afterwards ends at that width,
   * pushed on top when the line indents deeper.
   */
  lemma HandleIndentationFails(text: string, st: LexState)
    requires Pos(text, st) && ValidStack(st.stack)
    ensures var w := MeasureIndent(text, st, 0).0;
      HandleIndentation(text, st).Err? <==> (w < Top(st.stack) && w !in st.stack)
    ensures var r := HandleIndentation(text, st);
      r.Err? ==> r.error.SyntaxError? && IsSuffix("Invalid indentation", r.error.message)
    ensures var w := MeasureIndent(text, st, 0).0;
      var r := HandleIndentation(text, st);
      r.Ok? ==> Top(r.value.stack) == w && (w > Top(st.stack) ==> r.value.stack == st.stack + [w])
  {
    var m := MeasureIndent(text, st, 0);
    PopDeeperFinds(m.1, m.0);
  }

  /** One token step keeps the lexer's invariant. */
  lemma ScanTokenShape(text: string, st: LexState)
    requires Wf(text, st)
    ensures var r := ScanToken(text, st);
      r.Ok? ==> Wf(text, r.value.0)
  {
    if st.pos < |text| {
      var c := text[st.pos];
      var tok, st1;
      if c == '\n' {
        tok := Token(NEWLINE, Text("\n"), st.line, st.column);
        assert ScanToken(text, st) == Ok((Advance(text, Emit(st, tok)), true));
        EmitShape(st, tok);
        return;
      } else if IsBlank(c) {
        return;
      } else if IsQuote(c) {
        var s := ReadString(text, st);
        if s.Err? {
          return;
        }
        tok, st1 := Token(STRING, Text(s.value.0), s.value.1.line, s.value.1.column), s.value.1;
        assert ScanToken(text, st) == Ok((Emit(st1, tok), false));
      } else if IsDigit(c) {
        var n := ReadNumber(text, st);
        tok, st1 := Token(NUMBER, n.0, n.1.line, n.1.column), n.1;
        assert ScanToken(text, st) == Ok((Emit(st1, tok), false));
      } else if IsAlpha(c) || c == '_' {
        var w := ReadWord(text, st, "");
        var word := Lower(w.0);
        tok, st1 := Token(WordType(word), Text(word), w.1.line, w.1.column), w.1;
        assert ScanToken(text, st) == Ok((Emit(st1, tok), false));
      } else {
        tok := Token(if c in SingleCharTokens then SingleCharTokens[c] else UNKNOWN, Text([c]), st.line, st.column);
        assert ScanToken(text, st) == Ok((Advance(text, Emit(st, tok)), false));
        EmitShape(st, tok);
        return;
      }
      EmitShape(st1, tok);
    }
  }

  /** The NEWLINE tokens emitted so far plus the line feeds still ahead outside literals. */
  function Pending(text: string, st: LexState): nat
  {
    Count(st.tokens, NEWLINE) + OutsideFeeds(text, st.pos)
  }

  /** A round that passes plain characters and emits one token other than NEWLINE keeps Pending. */
  lemma PlainRound(text: string, st: LexState, st1: LexState, tok: Token)
    requires Plain(text, st.pos, st1.pos) && st1.tokens == st.tokens && tok.tokenType != NEWLINE
    ensures Pending(text, Emit(st1, tok)) == Pending(text, st)
  {
    PlainFeeds(text, st.pos, st1.pos);
    CountSnoc(st1.tokens, tok, NEWLINE);
  }

  /** A line feed round emits one NEWLINE and passes that line feed. */
  lemma NewlineRound(text: string, st: LexState)
    requires Pos(text, st) && st.pos < |text| && text[st.pos] == '\n'
    ensures var r := ScanToken(text, st);
      r.Ok? ==> Pending(text, r.value.0) == Pending(text, st)
  {
    var tok := Token(NEWLINE, Text("\n"), st.line, st.column);
    assert ScanToken(text, st) == Ok((Advance(text, Emit(st, tok)), true));
    CountSnoc(st.tokens, tok, NEWLINE);
  }

  /** A round over spaces and tabs emits nothing. */
  lemma BlankRound(text: string, st: LexState)
    requires Pos(text, st) && st.pos < |text| && IsBlank(text[st.pos])
    ensures var r := ScanToken(text, st);
      r.Ok? ==> Pending(text, r.value.0) == Pending(text, st)
  {
    assert ScanToken(text, st) == Ok((SkipWhitespace(text, st), false));
    SkipWhitespacePlain(text, st);
    PlainFeeds(text, st.pos, SkipWhitespace(text, st).pos);
  }

  /** An operator or an unrecognised character passes one character that is neither a quote nor a line feed. */
  lemma CharRound(text: string, st: LexState)
    requires Pos(text, st) && st.pos < |text|
    requires var c := text[st.pos]; c != '\n' && !IsBlank(c) && !IsQuote(c) && !IsDigit(c) && !IsAlpha(c) && c != '_'
    ensures var r := ScanToken(text, st);
      r.Ok? ==> Pending(text, r.value.0) == Pending(text, st)
  {
    var c := text[st.pos];
    var tok := Token(if c in SingleCharTokens then SingleCharTokens[c] else UNKNOWN, Text([c]), st.line, st.column);
    assert ScanToken(text, st) == Ok((Advance(text, Emit(st, tok)), false));
    CountSnoc(st.tokens, tok, NEWLINE);
  }

  /** A string round passes one whole literal and emits a STRING token. */
  lemma StringRound(text: string, st: LexState)
    requires Pos(text, st) && st.pos < |text| && IsQuote(text[st.pos])
    ensures var r := ScanToken(text, st);
      r.Ok? ==> Pending(text, r.value.0) == Pending(text, st)
  {
    var c := text[st.pos];
    var s := ReadString(text, st);
    if s.Ok? {
      ReadStringFromEnd(text, Advance(text, st), c, "");
      var st1 := s.value.1;
      var tok := Token(STRING, Text(s.value.0), st1.line, st1.column);
      assert ScanToken(text, st) == Ok((Emit(st1, tok), false));
      CountSnoc(st1.tokens, tok, NEWLINE);
    }
  }

  /** A number round passes digits and dots only. */
  lemma NumberRound(text: string, st: LexState)
    requires Pos(text, st) && st.pos < |text| && IsDigit(text[st.pos])
    ensures var r := ScanToken(text, st);
      r.Ok? ==> Pending(text, r.value.0) == Pending(text, st)
  {
    var n := ReadNumber(text, st);
    ReadNumeralPlain(text, st, "", false);
    var tok := Token(NUMBER, n.0, n.1.line, n.1.column);
    assert ScanToken(text, st) == Ok((Emit(n.1, tok), false));
    PlainRound(text, st, n.1, tok);
  }

  /** A word round passes letters, digits and underscores only. */
  lemma WordRound(text: string, st: LexState)
    requires Pos(text, st) && st.pos < |text| && (IsAlpha(text[st.pos]) || text[st.pos] == '_')
    ensures var r := ScanToken(text, st);
      r.Ok? ==> Pending(text, r.value.0) == Pending(text, st)
  {
    var w := ReadWord(text, st, "");
    ReadWordPlain(text, st, "");
    var word := Lower(w.0);
    var tok := Token(WordType(word), Text(word), w.1.line, w.1.column);
    assert ScanToken(text, st) == Ok((Emit(w.1, tok), false));
    PlainRound(text, st, w.1, tok);
  }

  /**
   * One round of the loop keeps Pending: a line feed round emits one
   * NEWLINE, a string round passes a whole literal, and the other rounds pass
   * no line feed.
   */
  lemma ScanTokenNewlines(text: string, st: LexState)
    requires Pos(text, st)
    ensures var r := ScanToken(text, st);
      r.Ok? ==> Pending(text, r.value.0) == Pending(text, st)
  {
    if st.pos < |text| {
      var c := text[st.pos];
      if c == '\n' {
        NewlineRound(text, st);
      } else if IsBlank(c) {
        BlankRound(text, st);
      } else if IsQuote(c) {
        StringRound(text, st);
      } else if IsDigit(c) {
        NumberRound(text, st);
      } else if IsAlpha(c) || c == '_' {
        WordRound(text, st);
      } else {
        CharRound(text, st);
      }
    }
  }

  /** The main loop keeps the lexer's invariant. */
  lemma {:induction false} TokenizeFromShape(text: string, st: LexState, atLineStart: bool)
    requires Wf(text, st)
    ensures var r := TokenizeFrom(text, st, atLineStart);
      r.Ok? ==> Wf(text, r.value)
    decreases |text| - st.pos, if atLineStart then 1 else 0
  {
    if st.pos < |text| {
      var st1 := st;
      if atLineStart {
        HandleIndentationShape(text, st);
        var h := HandleIndentation(text, st);
        if h.Err? {
          return;
        }
        st1 := h.value;
        if st1.pos < |text| && text[st1.pos] == '\n' {
          TokenizeFromShape(text, st1, false);
          return;
        }
      }
      ScanTokenShape(text, st1);
      var s := ScanToken(text, st1);
      if s.Ok? {
        TokenizeFromShape(text, s.value.0, s.value.1);
      }
    }
  }

  /** The main loop emits one NEWLINE per line feed it passes outside string literals. */
  lemma {:induction false} TokenizeFromNewlines(text: string, st: LexState, atLineStart: bool)
    requires Pos(text, st) && |st.stack| > 0
    ensures var r := TokenizeFrom(text, st, atLineStart);
      r.Ok? ==> Count(r.value.tokens, NEWLINE) == Count(st.tokens, NEWLINE) + OutsideFeeds(text, st.pos)
    decreases |text| - st.pos, if atLineStart then 1 else 0
  {
    if st.pos < |text| {
      var st1 := st;
      if atLineStart {
        HandleIndentationNewlines(text, st);
        var h := HandleIndentation(text, st);
        if h.Err? {
          return;
        }
        st1 := h.value;
        if st1.pos < |text| && text[st1.pos] == '\n' {
          TokenizeFromNewlines(text, st1, false);
          return;
        }
      }
      ScanTokenNewlines(text, st1);
      var s := ScanToken(text, st1);
      if s.Ok? {
        TokenizeFromNewlines(text, s.value.0, s.value.1);
      }
    }
  }

  /** Popping one level above the bottom, with its DEDENT, keeps the shape. */
  lemma PopOneShape(st: LexState)
    requires Shape(st.tokens, st.stack) && |st.stack| > 1
    ensures Shape(st.tokens + [Token(DEDENT, NoValue, st.line, st.column)], st.stack[..|st.stack| - 1])
  {
    var tok := Token(DEDENT, NoValue, st.line, st.column);
    PrefixValid(st.stack, |st.stack| - 1);
    CountSnoc(st.tokens, tok, INDENT);
    CountSnoc(st.tokens, tok, DEDENT);
    CountSnoc(st.tokens, tok, EOF);
  }

  /** The closing DEDENTs keep the shape and leave only the bottom level, balancing every INDENT. */
  lemma {:induction false} FinalDedentsShape(st: LexState)
    requires Shape(st.tokens, st.stack)
    ensures var r := FinalDedents(st);
      Shape(r.tokens, r.stack) && Count(r.tokens, INDENT) == Count(r.tokens, DEDENT)
    decreases |st.stack|
  {
    if |st.stack| > 1 {
      PopOneShape(st);
      FinalDedentsShape(Emit(st.(stack := st.stack[..|st.stack| - 1]), Token(DEDENT, NoValue, st.line, st.column)));
    }
  }

  /** The closing DEDENTs add no NEWLINE. */
  lemma {:induction false} FinalDedentsNewlines(st: LexState)
    ensures Count(FinalDedents(st).tokens, NEWLINE) == Count(st.tokens, NEWLINE)
    decreases |st.stack|
  {
    if |st.stack| > 1 {
      var tok := Token(DEDENT, NoValue, st.line, st.column);
      CountSnoc(st.tokens, tok, NEWLINE);
      FinalDedentsNewlines(Emit(st.(stack := st.stack[..|st.stack| - 1]), tok));
    }
  }

  lemma StartWf(text: string)
    ensures Wf(text, Start)
  {
  }

  /** The tokens `tokenize` returns: the main loop's, the closing DEDENTs and EOF. */
  lemma RunTokens(text: string, st: LexState)
    requires Pos(text, st) && |st.stack| > 0
    ensures var r := TokenizeFrom(text, st, true);
      r.Ok? ==> var st1 := FinalDedents(r.value);
        Run(text, st) == Ok(st1.tokens + [Token(EOF, NoValue, st1.line, st1.column)])
  {
  }

  /** The closing DEDENTs and the EOF complete a well-shaped token list. */
  lemma FinishBalanced(st: LexState)
    requires Shape(st.tokens, st.stack)
    ensures var st1 := FinalDedents(st);
      var ts := st1.tokens + [Token(EOF, NoValue, st1.line, st1.column)];
      Count(ts, EOF) == 1 && Count(ts, INDENT) == Count(ts, DEDENT)
  {
    FinalDedentsShape(st);
    var st1 := FinalDedents(st);
    var eof := Token(EOF, NoValue, st1.line, st1.column);
    CountSnoc(st1.tokens, eof, EOF);
    CountSnoc(st1.tokens, eof, INDENT);
    CountSnoc(st1.tokens, eof, DEDENT);
  }

  /**
   * From any state the lexer can be in, a successful `tokenize` ends with its
   * only EOF token and holds as many DEDENT tokens as INDENT tokens.
   */
  lemma RunBalanced(text: string, st: LexState)
    requires Wf(text, st)
    ensures var r := Run(text, st);
      r.Ok? ==> Count(r.value, EOF) == 1 && Count(r.value, INDENT) == Count(r.value, DEDENT)
  {
    TokenizeFromShape(text, st, true);
    RunTokens(text, st);
    var r := TokenizeFrom(text, st, true);
    if r.Ok? {
      FinishBalanced(r.value);
    }
  }

  /**
   * A successful tokenization ends with its only EOF token and holds as many
   * DEDENT tokens as INDENT tokens.
   */
  lemma TokenizeBalanced(text: string)
    ensures var r := Tokenize(text);
      r.Ok? ==> Count(r.value, EOF) == 1 && Count(r.value, INDENT) == Count(r.value, DEDENT)
  {
    StartWf(text);
    RunBalanced(text, Start);
  }

  /** The closing DEDENTs and the EOF add no NEWLINE to what the main loop produced. */
  lemma RunKeepsNewlines(text: string, st: LexState)
    requires Pos(text, st) && |st.stack| > 0
    ensures var r := TokenizeFrom(text, st, true);
      Run(text, st).Ok? <==> r.Ok?
    ensures var r := TokenizeFrom(text, st, true);
      r.Ok? ==> Count(Run(text, st).value, NEWLINE) == Count(r.value.tokens, NEWLINE)
  {
    RunTokens(text, st);
    var r := TokenizeFrom(text, st, true);
    if r.Ok? {
      FinalDedentsNewlines(r.value);
      var st1 := FinalDedents(r.value);
      CountSnoc(st1.tokens, Token(EOF, NoValue, st1.line, st1.column), NEWLINE);
    }
  }

  /** A run adds one NEWLINE per line feed the lexer still has to read outside string literals. */
  lemma RunNewlines(text: string, st: LexState)
    requires Pos(text, st) && |st.stack| > 0
    ensures var r := Run(text, st);
      r.Ok? ==> Count(r.value, NEWLINE) == Count(st.tokens, NEWLINE) + OutsideFeeds(text, st.pos)
  {
    TokenizeFromNewlines(text, st, true);
    RunKeepsNewlines(text, st);
  }

  /**
   * Every line feed outside string literals yields exactly one NEWLINE token;
   * a line feed inside a literal yields none.
   */
  lemma TokenizeNewlines(text: string)
    ensures var r := Tokenize(text);
      r.Ok? ==> Count(r.value, NEWLINE) == OutsideFeeds(text, 0)
  {
    RunNewlines(text, Start);
  }

  /** In text without quotes, every line feed yields exactly one NEWLINE token. */
  lemma TokenizeNewlinesQuoteFree(text: string)
    requires forall i :: 0 <= i < |text| ==> !IsQuote(text[i])
    ensures var r := Tokenize(text);
      r.Ok? ==> Count(r.value, NEWLINE) == LineFeeds(text, |text|)
  {
    TokenizeNewlines(text);
    QuoteFreeFeeds(text, 0);
  }

  /** A character no rule recognises becomes an UNKNOWN token and lexing carries on to EOF. */
  lemma StrayCharacter(c: char)
    requires !IsBlank(c) && c != '\n' && !IsQuote(c) && !IsDigit(c) && !IsAlpha(c) && c != '_'
    requires c !in SingleCharTokens
    ensures Tokenize([c]) == Ok([Token(UNKNOWN, Text([c]), 1, 1), Token(EOF, NoValue, 1, 2)])
  {
    var text := [c];
    assert MeasureIndent(text, Start, 0) == (0, Start);
    assert HandleIndentation(text, Start) == Ok(Start);
    var st1 := Advance(text, Emit(Start, Token(UNKNOWN, Text([c]), 1, 1)));
    assert ScanToken(text, Start) == Ok((st1, false));
    assert TokenizeFrom(text, Start, true) == Ok(st1);
    assert st1.line == 1 && st1.column == 2 && st1.stack == [0];
    assert FinalDedents(st1) == st1;
    assert st1.tokens == [Token(UNKNOWN, Text([c]), 1, 1)];
    assert Tokenize(text) == Ok(st1.tokens + [Token(EOF, NoValue, 1, 2)]);
    assert st1.tokens + [Token(EOF, NoValue, 1, 2)] == [Token(UNKNOWN, Text([c]), 1, 1), Token(EOF, NoValue, 1, 2)];
  }
}
