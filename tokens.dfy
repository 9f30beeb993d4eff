/** Token kinds and tokens produced by the lexer (convo/lexer.py, TokenType and Token). */
module Tokens {

  import opened Wrappers
  import opened Text

  datatype TokenType =
    | STRING | NUMBER | IDENTIFIER
    | SAY | LET | BE | DEFINE | WITH | CALL | IF | THEN | ELSE | WHILE | DO
    | PLUS | MINUS | MULTIPLY | DIVIDE | EQUALS | NOT_EQUALS | GREATER | LESS | AND | OR | NOT
    | COLON | COMMA | LPAREN | RPAREN | NEWLINE | INDENT | DEDENT
    | EOF | UNKNOWN

  /**
   * The payload of a token. Python stores `None`, a str, an int, or a float;
   * a float is kept as the numeral text it was read from (Dotted).
   */
  datatype TokenValue = NoValue | Text(s: string) | Whole(i: int) | Dotted(numeral: string)

  datatype Token = Token(tokenType: TokenType, value: TokenValue, line: int, column: int)

  /** `TokenType.name`, used by the parser's "Expected NAME" messages. */
  function TypeName(t: TokenType): string
  {
    match t
    case STRING => "STRING"
    case NUMBER => "NUMBER"
    case IDENTIFIER => "IDENTIFIER"
    case SAY => "SAY"
    case LET => "LET"
    case BE => "BE"
    case DEFINE => "DEFINE"
    case WITH => "WITH"
    case CALL => "CALL"
    case IF => "IF"
    case THEN => "THEN"
    case ELSE => "ELSE"
    case WHILE => "WHILE"
    case DO => "DO"
    case PLUS => "PLUS"
    case MINUS => "MINUS"
    case MULTIPLY => "MULTIPLY"
    case DIVIDE => "DIVIDE"
    case EQUALS => "EQUALS"
    case NOT_EQUALS => "NOT_EQUALS"
    case GREATER => "GREATER"
    case LESS => "LESS"
    case AND => "AND"
    case OR => "OR"
    case NOT => "NOT"
    case COLON => "COLON"
    case COMMA => "COMMA"
    case LPAREN => "LPAREN"
    case RPAREN => "RPAREN"
    case NEWLINE => "NEWLINE"
    case INDENT => "INDENT"
    case DEDENT => "DEDENT"
    case EOF => "EOF"
    case UNKNOWN => "UNKNOWN"
  }

  /** Drops leading zeros, keeping at least one digit. */
  function TrimLeadingZeros(s: string): string
  {
    if |s| > 1 && s[0] == '0' then TrimLeadingZeros(s[1..]) else if s == [] then "0" else s
  }

  /** Drops trailing zeros, keeping at least one digit. */
  function TrimTrailingZeros(s: string): string
  {
    if |s| > 1 && s[|s| - 1] == '0' then TrimTrailingZeros(s[..|s| - 1]) else if s == [] then "0" else s
  }

  /**
   * Python's str(float(numeral)) for a numeral `digits.digits` that Python
   * prints in fixed notation (a value of at least 1e-4 and below 1e16, with
   * no more significant digits than a float keeps): the integer part loses
   * its leading zeros and the fraction its trailing zeros.
   */
  function FloatText(numeral: string): string
  {
    match FindFrom(numeral, ".", 0)
    case Some(i) => TrimLeadingZeros(numeral[..i]) + "." + TrimTrailingZeros(numeral[i + 1..])
    case None => numeral
  }

  /** Python's str() of a token payload, as an f-string renders it. */
  function ValueText(v: TokenValue): string
  {
    match v
    case NoValue => "None"
    case Text(s) => s
    case Whole(i) => IntToString(i)
    case Dotted(numeral) => FloatText(numeral)
  }
}
