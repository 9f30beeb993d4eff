/**
 * The tokenizer of convo/lexer.py as functions over a snapshot of the lexer's
 * fields. Each function takes the state before a step of `Lexer` and returns
 * the state after it; the class in lexer.dfy is proved to follow them.
 */
module Scanner {

  import opened Wrappers
  import opened Text
  import opened Tokens

  /**
   * A raised exception: the lexer's own SyntaxError, or a Python error the
   * code does not intend (a None where a str is needed).
   */
  datatype LexError = SyntaxError(message: string) | HostFault(reason: string)

  /** The fields of a Lexer: pos, line, column, tokens and indent_stack. */
  datatype LexState = LexState(pos: nat, line: int, column: int, tokens: seq<Token>, stack: seq<int>)

  /** The fields as `Lexer.__init__` sets them. */
  const Start := LexState(0, 1, 1, [], [0])

  const NoneConcat := "TypeError: can only concatenate str (not \"NoneType\") to str"
  const NoneIn := "TypeError: 'in <string>' requires string as left operand, not NoneType"

  /** Number of tokens of type t. */
  function Count(ts: seq<Token>, t: TokenType): nat
  {
    if ts == [] then 0 else Count(ts[..|ts| - 1], t) + (if ts[|ts| - 1].tokenType == t then 1 else 0)
  }

  /** Number of line feeds among the first n characters of text. */
  function LineFeeds(text: string, n: nat): nat
    requires n <= |text|
  {
    if n == 0 then 0 else LineFeeds(text, n - 1) + (if text[n - 1] == '\n' then 1 else 0)
  }

  /** An indentation stack: starts at 0 and strictly increases. */
  predicate ValidStack(stack: seq<int>)
  {
    |stack| > 0 && stack[0] == 0 && forall i, j :: 0 <= i < j < |stack| ==> stack[i] < stack[j]
  }

  function Top(stack: seq<int>): int
    requires |stack| > 0
  {
    stack[|stack| - 1]
  }

  /** The line counter counts the line feeds read so far. */
  predicate Pos(text: string, st: LexState)
  {
    st.pos <= |text| && st.line == 1 + LineFeeds(text, st.pos)
  }

  /**
   * What holds of the tokens and the stack at every step: the stack is
   * valid, every INDENT emitted is matched by a DEDENT or by a level still on
   * the stack, and no EOF has been emitted yet.
   */
  predicate Shape(tokens: seq<Token>, stack: seq<int>)
  {
    && ValidStack(stack)
    && Count(tokens, INDENT) == Count(tokens, DEDENT) + |stack| - 1
    && Count(tokens, EOF) == 0
  }

  /** What holds of every state the lexer passes through. */
  predicate Wf(text: string, st: LexState)
  {
    Pos(text, st) && Shape(st.tokens, st.stack)
  }

  /** `Lexer.error`: the SyntaxError carrying the current position. */
  function Error(st: LexState, message: string): LexError
  {
    SyntaxError("Line " + IntToString(st.line) + ", Column " + IntToString(st.column) + ": " + message)
  }

  /** `Lexer.peek`. */
  function Peek(text: string, st: LexState, offset: nat): Option<char>
  {
    if st.pos + offset < |text| then Some(text[st.pos + offset]) else None
  }

  /** `Lexer.advance`: one character forward, a line feed starting a new line. */
  function Advance(text: string, st: LexState): (r: LexState)
    requires Pos(text, st)
    ensures Pos(text, r)
    ensures r.tokens == st.tokens && r.stack == st.stack
    ensures st.pos < |text| ==> r.pos == st.pos + 1
    ensures st.pos < |text| && text[st.pos] != '\n' ==> r.line == st.line
    ensures st.pos < |text| && text[st.pos] == '\n' ==> r.line == st.line + 1
    ensures st.pos == |text| ==> r == st
  {
    if st.pos < |text| then
      if text[st.pos] == '\n' then st.(pos := st.pos + 1, line := st.line + 1, column := 1)
      else st.(pos := st.pos + 1, column := st.column + 1)
    else st
  }

  /** Appends one token. */
  function Emit(st: LexState, tok: Token): LexState
  {
    st.(tokens := st.tokens + [tok])
  }

  lemma CountSnoc(ts: seq<Token>, tok: Token, t: TokenType)
    ensures Count(ts + [tok], t) == Count(ts, t) + (if tok.tokenType == t then 1 else 0)
  {
    assert (ts + [tok])[..|ts|] == ts;
  }

  /** Appending a token that is not INDENT, DEDENT or EOF keeps the shape. */
  lemma EmitShape(st: LexState, tok: Token)
    requires Shape(st.tokens, st.stack) && tok.tokenType !in {INDENT, DEDENT, EOF}
    ensures Shape(st.tokens + [tok], st.stack)
  {
    CountSnoc(st.tokens, tok, INDENT);
    CountSnoc(st.tokens, tok, DEDENT);
    CountSnoc(st.tokens, tok, EOF);
  }

  predicate IsBlank(c: char) { c == ' ' || c == '\t' }

  /** `Lexer.skip_whitespace`: skips spaces and tabs. */
  function SkipWhitespace(text: string, st: LexState): (r: LexState)
    requires Pos(text, st)
    ensures Pos(text, r) && st.pos <= r.pos && r.tokens == st.tokens && r.stack == st.stack && r.line == st.line
    decreases |text| - st.pos
  {
    if st.pos < |text| && IsBlank(text[st.pos]) then SkipWhitespace(text, Advance(text, st)) else st
  }

  /** The character a backslash escape stands for in `Lexer.read_string`. */
  function Unescape(next: char, quote: char): char
  {
    if next == 'n' then '\n'
    else if next == 't' then '\t'
    else if next == '\\' then '\\'
    else if next == quote then quote
    else next
  }

  /**
   * The loop of `Lexer.read_string` from state st with `value` read so far:
   * the decoded text and the state after the closing quote.
   */
  function ReadStringFrom(text: string, st: LexState, quote: char, value: string): (r: Result<(string, LexState), LexError>)
    requires Pos(text, st)
    ensures r.Ok? ==> Pos(text, r.value.1) && st.pos < r.value.1.pos
    ensures r.Ok? ==> r.value.1.tokens == st.tokens && r.value.1.stack == st.stack
    decreases |text| - st.pos
  {
    if st.pos < |text| && text[st.pos] != quote then
      var c := text[st.pos];
      var st1 := Advance(text, st);
      if c == '\\' then
        if st1.pos < |text| then ReadStringFrom(text, Advance(text, st1), quote, value + [Unescape(text[st1.pos], quote)])
        else Err(HostFault(NoneConcat))
      else ReadStringFrom(text, st1, quote, value + [c])
    else if st.pos == |text| then Err(Error(st, "Unterminated string"))
    else Ok((value, Advance(text, st)))
  }

  /** `Lexer.read_string`, called on the opening quote. */
  function ReadString(text: string, st: LexState): (r: Result<(string, LexState), LexError>)
    requires Pos(text, st) && st.pos < |text|
    ensures r.Ok? ==> Pos(text, r.value.1) && st.pos + 2 <= r.value.1.pos
    ensures r.Ok? ==> r.value.1.tokens == st.tokens && r.value.1.stack == st.stack
  {
    ReadStringFrom(text, Advance(text, st), text[st.pos], "")
  }

  /** Number of dots in s. */
  function Dots(s: string): nat
  {
    if s == [] then 0 else Dots(s[..|s| - 1]) + (if s[|s| - 1] == '.' then 1 else 0)
  }

  predicate IsNumeral(s: string)
  {
    forall i :: 0 <= i < |s| ==> IsDigit(s[i]) || s[i] == '.'
  }

  /**
   * The loop of `Lexer.read_number`: digits and dots, stopping before a
   * second dot. Returns the numeral, whether it has a dot, and the state.
   */
  function ReadNumeral(text: string, st: LexState, value: string, hasDot: bool): (r: (string, bool, LexState))
    requires Pos(text, st)
    requires IsNumeral(value) && Dots(value) == (if hasDot then 1 else 0)
    ensures Pos(text, r.2) && st.pos <= r.2.pos && r.2.tokens == st.tokens && r.2.stack == st.stack && r.2.line == st.line
    ensures IsNumeral(r.0) && Dots(r.0) == (if r.1 then 1 else 0)
    decreases |text| - st.pos
  {
    if st.pos < |text| && (IsDigit(text[st.pos]) || text[st.pos] == '.') then
      if text[st.pos] == '.' && hasDot then (value, hasDot, st)
      else
        var c := text[st.pos];
        assert (value + [c])[..|value|] == value;
        ReadNumeral(text, Advance(text, st), value + [c], hasDot || c == '.')
    else (value, hasDot, st)
  }

  /** Number of dots is zero exactly when every character is a digit. */
  lemma {:induction false} NoDotsAllDigits(s: string)
    requires IsNumeral(s) && Dots(s) == 0
    ensures forall i :: 0 <= i < |s| ==> IsDigit(s[i])
    decreases |s|
  {
    if s != [] {
      NoDotsAllDigits(s[..|s| - 1]);
      assert forall i :: 0 <= i < |s| - 1 ==> s[i] == s[..|s| - 1][i];
    }
  }

  /** `Lexer.read_number`: an int, or a float when the numeral has a dot. */
  function ReadNumber(text: string, st: LexState): (r: (TokenValue, LexState))
    requires Pos(text, st) && st.pos < |text| && IsDigit(text[st.pos])
    ensures Pos(text, r.1) && st.pos < r.1.pos && r.1.tokens == st.tokens && r.1.stack == st.stack && r.1.line == st.line
  {
    var n := ReadNumeral(text, st, "", false);
    if n.1 then (Dotted(n.0), n.2)
    else
      NoDotsAllDigits(n.0);
      (Whole(DigitsValue(n.0)), n.2)
  }

  predicate IsWordChar(c: char) { IsAlnum(c) || c == '_' }

  /** `Lexer.read_identifier`: letters, digits and underscores. */
  function ReadWord(text: string, st: LexState, value: string): (r: (string, LexState))
    requires Pos(text, st)
    ensures Pos(text, r.1) && st.pos <= r.1.pos && r.1.tokens == st.tokens && r.1.stack == st.stack && r.1.line == st.line
    decreases |text| - st.pos
  {
    if st.pos < |text| && IsWordChar(text[st.pos]) then
      ReadWord(text, Advance(text, st), value + [text[st.pos]])
    else (value, st)
  }

  /** Indentation width of a run of blanks: a space is 1, a tab is 4. */
  function Width(ws: string): nat
  {
    if ws == [] then 0 else (if ws[0] == ' ' then 1 else 4) + Width(ws[1..])
  }

  /** The counting loop of `Lexer.handle_indentation`. */
  function MeasureIndent(text: string, st: LexState, level: nat): (r: (nat, LexState))
    requires Pos(text, st)
    ensures Pos(text, r.1) && st.pos <= r.1.pos && r.1.tokens == st.tokens && r.1.stack == st.stack && r.1.line == st.line
    decreases |text| - st.pos
  {
    if st.pos < |text| && IsBlank(text[st.pos]) then
      MeasureIndent(text, Advance(text, st), level + (if text[st.pos] == ' ' then 1 else 4))
    else (level, st)
  }

  /** The DEDENT loop of `Lexer.handle_indentation`: pops every level deeper than `level`. */
  function PopDeeper(st: LexState, level: int): (r: LexState)
    ensures r.pos == st.pos && r.line == st.line && r.column == st.column
    ensures |r.stack| <= |st.stack|
    decreases |st.stack|
  {
    if |st.stack| > 0 && Top(st.stack) > level then
      PopDeeper(Emit(st.(stack := st.stack[..|st.stack| - 1]), Token(DEDENT, NoValue, st.line, st.column)), level)
    else st
  }

  /** `Lexer.handle_indentation`: measures the line's indentation and adjusts the stack. */
  function HandleIndentation(text: string, st: LexState): (r: Result<LexState, LexError>)
    requires Pos(text, st) && |st.stack| > 0
    ensures r.Ok? ==> Pos(text, r.value) && st.pos <= r.value.pos && |r.value.stack| > 0
  {
    var m := MeasureIndent(text, st, 0);
    var level, st1 := m.0, m.1;
    var current := Top(st1.stack);
    if level > current then
      Ok(Emit(st1.(stack := st1.stack + [level]), Token(INDENT, NoValue, st1.line, st1.column)))
    else if level < current then
      var st2 := PopDeeper(st1, level);
      if |st2.stack| == 0 || Top(st2.stack) != level then Err(Error(st2, "Invalid indentation"))
      else Ok(st2)
    else Ok(st1)
  }

  const Keywords: map<string, TokenType> := map[
    "say" := SAY, "let" := LET, "be" := BE, "define" := DEFINE, "with" := WITH,
    "call" := CALL, "if" := IF, "then" := THEN, "else" := ELSE, "while" := WHILE,
    "do" := DO, "and" := AND, "or" := OR, "not" := NOT, "equals" := EQUALS,
    "is" := EQUALS, "greater" := GREATER, "than" := IDENTIFIER, "less" := LESS]

  /** `keywords.get(word, TokenType.IDENTIFIER)`. */
  function WordType(word: string): (t: TokenType)
    ensures t !in {NEWLINE, INDENT, DEDENT, EOF}
  {
    if word in Keywords then Keywords[word] else IDENTIFIER
  }

  const SingleCharTokens: map<char, TokenType> := map[
    '+' := PLUS, '-' := MINUS, '*' := MULTIPLY, '/' := DIVIDE,
    ':' := COLON, ',' := COMMA, '(' := LPAREN, ')' := RPAREN]

  predicate IsQuote(c: char) { c == '"' || c == '\'' }

  /**
   * One pass of the `tokenize` loop after the indentation step: reads the
   * token that starts at the current character. Returns the new state and
   * the new value of `at_line_start`.
   */
  function ScanToken(text: string, st: LexState): (r: Result<(LexState, bool), LexError>)
    requires Pos(text, st)
    ensures r.Ok? ==> Pos(text, r.value.0) && st.pos < r.value.0.pos && r.value.0.stack == st.stack
  {
    if st.pos >= |text| then Err(HostFault(NoneIn))
    else
      var c := text[st.pos];
      if c == '\n' then
        Ok((Advance(text, Emit(st, Token(NEWLINE, Text("\n"), st.line, st.column))), true))
      else if IsBlank(c) then
        Ok((SkipWhitespace(text, st), false))
      else if IsQuote(c) then
        var s :- ReadString(text, st);
        Ok((Emit(s.1, Token(STRING, Text(s.0), s.1.line, s.1.column)), false))
      else if IsDigit(c) then
        var n := ReadNumber(text, st);
        Ok((Emit(n.1, Token(NUMBER, n.0, n.1.line, n.1.column)), false))
      else if IsAlpha(c) || c == '_' then
        var w := ReadWord(text, st, "");
        var word := Lower(w.0);
        Ok((Emit(w.1, Token(WordType(word), Text(word), w.1.line, w.1.column)), false))
      else if c in SingleCharTokens then
        Ok((Advance(text, Emit(st, Token(SingleCharTokens[c], Text([c]), st.line, st.column))), false))
      else
        Ok((Advance(text, Emit(st, Token(UNKNOWN, Text([c]), st.line, st.column))), false))
  }

  /** The main loop of `Lexer.tokenize`, from state st with `at_line_start` given. */
  function TokenizeFrom(text: string, st: LexState, atLineStart: bool): (r: Result<LexState, LexError>)
    requires Pos(text, st) && |st.stack| > 0
    ensures r.Ok? ==> Pos(text, r.value) && r.value.pos == |text| && |r.value.stack| > 0
    decreases |text| - st.pos, if atLineStart then 1 else 0
  {
    if st.pos >= |text| then Ok(st)
    else if atLineStart then
      var st1 :- HandleIndentation(text, st);
      if st1.pos < |text| && text[st1.pos] == '\n' then TokenizeFrom(text, st1, false)
      else
        var s :- ScanToken(text, st1);
        TokenizeFrom(text, s.0, s.1)
    else
      var s :- ScanToken(text, st);
      TokenizeFrom(text, s.0, s.1)
  }

  /** The closing loop of `tokenize`: one DEDENT per level left above the bottom one. */
  function FinalDedents(st: LexState): (r: LexState)
    ensures r.pos == st.pos && r.line == st.line && r.column == st.column
    ensures |r.stack| <= 1 && (|st.stack| > 0 ==> r.stack == st.stack[..1])
    decreases |st.stack|
  {
    if |st.stack| > 1 then
      FinalDedents(Emit(st.(stack := st.stack[..|st.stack| - 1]), Token(DEDENT, NoValue, st.line, st.column)))
    else st
  }

  /**
   * `Lexer.tokenize` called on a lexer in state st: the token list, or the
   * error raised on the way.
   */
  function Run(text: string, st: LexState): (r: Result<seq<Token>, LexError>)
    requires Pos(text, st) && |st.stack| > 0
    ensures r.Ok? ==> |r.value| > 0 && r.value[|r.value| - 1].tokenType == EOF
  {
    var st1 :- TokenizeFrom(text, st, true);
    var st2 := FinalDedents(st1);
    Ok(st2.tokens + [Token(EOF, NoValue, st2.line, st2.column)])
  }

  /** `Lexer(text).tokenize()`: tokenizing with a fresh lexer. */
  function Tokenize(text: string): (r: Result<seq<Token>, LexError>)
    ensures r.Ok? ==> |r.value| > 0 && r.value[|r.value| - 1].tokenType == EOF
  {
    Run(text, Start)
  }
}
