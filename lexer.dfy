/**
 * The `Lexer` class of convo/lexer.py. Its fields are updated in place,
 * character by character; every method is proved to move the fields exactly
 * as the matching function of module Scanner says, so the properties proved
 * there (ScannerFacts, ReaderFacts) hold of the class.
 *
 * A Python exception raised by a method becomes an `Err` result; the fields
 * are not specified after one, since the lexer is abandoned then.
 */
module LexerClass {

  import opened Wrappers
  import opened Text
  import opened Tokens
  import opened Scanner

  class Lexer {
    const text: string
    var pos: nat
    var line: int
    var column: int
    var tokens: seq<Token>
    var indentStack: seq<int>

    /** The fields as one value. */
    function State(): LexState
      reads this
    {
      LexState(pos, line, column, tokens, indentStack)
    }

    /** The line counter agrees with the text read so far. */
    predicate Valid()
      reads this
    {
      Pos(text, State())
    }

    constructor (text: string)
      ensures this.text == text && State() == Start && Valid()
    {
      this.text := text;
      pos := 0;
      line := 1;
      column := 1;
      tokens := [];
      indentStack := [0];
    }

    method Peek(offset: nat) returns (c: Option<char>)
      ensures c == Scanner.Peek(text, State(), offset)
    {
      if pos + offset < |text| {
        c := Some(text[pos + offset]);
      } else {
        c := None;
      }
    }

    method Advance() returns (c: Option<char>)
      requires Valid()
      modifies this
      ensures c == Scanner.Peek(text, old(State()), 0)
      ensures State() == Scanner.Advance(text, old(State())) && Valid()
    {
      if pos < |text| {
        var ch := text[pos];
        pos := pos + 1;
        if ch == '\n' {
          line := line + 1;
          column := 1;
        } else {
          column := column + 1;
        }
        c := Some(ch);
      } else {
        c := None;
      }
    }

    method SkipWhitespace()
      requires Valid()
      modifies this
      ensures State() == Scanner.SkipWhitespace(text, old(State())) && Valid()
    {
      while pos < |text| && IsBlank(text[pos])
        invariant Valid()
        invariant Scanner.SkipWhitespace(text, State()) == Scanner.SkipWhitespace(text, old(State()))
        decreases |text| - pos
      {
        var _ := Advance();
      }
    }

    /** Reads the string literal whose opening quote is the current character. */
    method ReadString() returns (r: Result<string, LexError>)
      requires Valid() && pos < |text|
      modifies this
      ensures var spec := Scanner.ReadString(text, old(State()));
        && (r.Ok? <==> spec.Ok?)
        && (r.Ok? ==> r.value == spec.value.0 && State() == spec.value.1 && Valid())
        && (r.Err? ==> r.error == spec.error)
    {
      var q := Advance();
      var quote := q.value;
      var value := "";
      while pos < |text| && text[pos] != quote
        invariant Valid()
        invariant ReadStringFrom(text, State(), quote, value) == Scanner.ReadString(text, old(State()))
        decreases |text| - pos
      {
        var c := Advance();
        if c.value == '\\' {
          var next := Advance();
          if next.None? {
            return Err(HostFault(NoneConcat));
          }
          value := value + [Unescape(next.value, quote)];
        } else {
          value := value + [c.value];
        }
      }
      if pos == |text| {
        return Err(Error(State(), "Unterminated string"));
      }
      var _ := Advance();
      return Ok(value);
    }

    /** Reads the numeral starting at the current digit. */
    method ReadNumber() returns (v: TokenValue)
      requires Valid() && pos < |text| && IsDigit(text[pos])
      modifies this
      ensures (v, State()) == Scanner.ReadNumber(text, old(State())) && Valid()
    {
      var value := "";
      var hasDot := false;
      while pos < |text| && (IsDigit(text[pos]) || text[pos] == '.')
        invariant Valid()
        invariant IsNumeral(value) && Dots(value) == (if hasDot then 1 else 0)
        invariant ReadNumeral(text, State(), value, hasDot) == ReadNumeral(text, old(State()), "", false)
        decreases |text| - pos
      {
        if text[pos] == '.' {
          if hasDot {
            break;
          }
          hasDot := true;
        }
        var c := Advance();
        assert (value + [c.value])[..|value|] == value;
        value := value + [c.value];
      }
      if hasDot {
        v := Dotted(value);
      } else {
        NoDotsAllDigits(value);
        v := Whole(DigitsValue(value));
      }
    }

    method ReadIdentifier() returns (value: string)
      requires Valid()
      modifies this
      ensures (value, State()) == ReadWord(text, old(State()), "") && Valid()
    {
      value := "";
      while pos < |text| && IsWordChar(text[pos])
        invariant Valid()
        invariant ReadWord(text, State(), value) == ReadWord(text, old(State()), "")
        decreases |text| - pos
      {
        var c := Advance();
        value := value + [c.value];
      }
    }

    /** Measures the indentation of the line and emits INDENT or DEDENT tokens. */
    method HandleIndentation() returns (r: Result<(), LexError>)
      requires Valid() && |indentStack| > 0
      modifies this
      ensures var spec := Scanner.HandleIndentation(text, old(State()));
        && (r.Ok? <==> spec.Ok?)
        && (r.Ok? ==> State() == spec.value && Valid())
        && (r.Err? ==> r.error == spec.error)
    {
      var level := 0;
      while pos < |text| && IsBlank(text[pos])
        invariant Valid() && tokens == old(tokens) && indentStack == old(indentStack)
        invariant MeasureIndent(text, State(), level) == MeasureIndent(text, old(State()), 0)
        decreases |text| - pos
      {
        if text[pos] == ' ' {
          level := level + 1;
        } else {
          level := level + 4;
        }
        var _ := Advance();
      }
      var current := indentStack[|indentStack| - 1];
      if level > current {
        indentStack := indentStack + [level];
        tokens := tokens + [Token(INDENT, NoValue, line, column)];
      } else if level < current {
        ghost var measured := State();
        while |indentStack| > 0 && indentStack[|indentStack| - 1] > level
          invariant Valid() && pos == measured.pos
          invariant PopDeeper(State(), level) == PopDeeper(measured, level)
          decreases |indentStack|
        {
          indentStack := indentStack[..|indentStack| - 1];
          tokens := tokens + [Token(DEDENT, NoValue, line, column)];
        }
        if |indentStack| == 0 || indentStack[|indentStack| - 1] != level {
          return Err(Error(State(), "Invalid indentation"));
        }
      }
      return Ok(());
    }

    /**
     * One pass of the `tokenize` loop after the indentation step; the result
     * is the new value of `at_line_start`.
     */
    method ScanToken() returns (r: Result<bool, LexError>)
      requires Valid()
      modifies this
      ensures var spec := Scanner.ScanToken(text, old(State()));
        && (r.Ok? <==> spec.Ok?)
        && (r.Ok? ==> r.value == spec.value.1 && State() == spec.value.0 && Valid())
        && (r.Err? ==> r.error == spec.error)
    {
      var peeked := Peek(0);
      if peeked.None? {
        return Err(HostFault(NoneIn));
      }
      var c := peeked.value;
      if c == '\n' {
        tokens := tokens + [Token(NEWLINE, Text("\n"), line, column)];
        var _ := Advance();
        return Ok(true);
      }
      if IsBlank(c) {
        SkipWhitespace();
        return Ok(false);
      }
      if IsQuote(c) {
        var s := ReadString();
        if s.Err? {
          return Err(s.error);
        }
        tokens := tokens + [Token(STRING, Text(s.value), line, column)];
        return Ok(false);
      }
      if IsDigit(c) {
        var v := ReadNumber();
        tokens := tokens + [Token(NUMBER, v, line, column)];
        return Ok(false);
      }
      if IsAlpha(c) || c == '_' {
        var w := ReadIdentifier();
        var word := Lower(w);
        tokens := tokens + [Token(WordType(word), Text(word), line, column)];
        return Ok(false);
      }
      if c in SingleCharTokens {
        tokens := tokens + [Token(SingleCharTokens[c], Text([c]), line, column)];
        var _ := Advance();
        return Ok(false);
      }
      tokens := tokens + [Token(UNKNOWN, Text([c]), line, column)];
      var _ := Advance();
      return Ok(false);
    }

    /** `tokenize`: the whole text, then the closing DEDENTs and EOF. */
    method Tokenize() returns (r: Result<seq<Token>, LexError>)
      requires Valid() && |indentStack| > 0
      modifies this
      ensures r == Run(text, old(State()))
      ensures r.Ok? ==> tokens == r.value
    {
      var atLineStart := true;
      while pos < |text|
        invariant Valid() && |indentStack| > 0
        invariant TokenizeFrom(text, State(), atLineStart) == TokenizeFrom(text, old(State()), true)
        decreases |text| - pos, if atLineStart then 1 else 0
      {
        if atLineStart {
          var h := HandleIndentation();
          if h.Err? {
            return Err(h.error);
          }
          atLineStart := false;
          if pos < |text| && text[pos] == '\n' {
            continue;
          }
        }
        var s := ScanToken();
        if s.Err? {
          return Err(s.error);
        }
        atLineStart := s.value;
      }
      ghost var scanned := State();
      while |indentStack| > 1
        invariant FinalDedents(State()) == FinalDedents(scanned)
        decreases |indentStack|
      {
        indentStack := indentStack[..|indentStack| - 1];
        tokens := tokens + [Token(DEDENT, NoValue, line, column)];
      }
      tokens := tokens + [Token(EOF, NoValue, line, column)];
      return Ok(tokens);
    }
  }
}
