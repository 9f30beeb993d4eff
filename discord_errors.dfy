/**
 * The configuration check and the error reporting of
 * convo/modules/discord_error_handling.py: `validate_discord_config`, the
 * classification of exception messages in `handle_discord_error`,
 * `get_discord_help` and the validation gate of `safe_create_discord_bot`.
 * Logging, timestamps and tracebacks are left out; a wrapped call is given
 * as its outcome, a value returned or an exception raised.
 */
module DiscordErrors {

  import opened Wrappers
  import opened Text

  /* ---------- Configuration check ---------- */

  /** The `intents` keyword argument: absent, not a dict, or a dict whose `message_content` entry is truthy or not (a missing entry is false). */
  datatype Intents = NoIntents | NotADict | IntentsDict(messageContent: bool)

  /** The dict `validate_discord_config` returns. */
  datatype Validation = Validation(valid: bool, errors: seq<string>, warnings: seq<string>)

  const TokenRequired: string := "Discord bot token is required"
  const TokenTooShort: string := "Discord token appears to be too short"
  const TokenPrefix: string := "Discord token should typically start with 'Bot ' for bot tokens"
  const ContentIntent: string := "Message content intent requires verification for large bots"

  /** `bool(token)`: a token that is neither None nor empty. */
  predicate TokenGiven(token: Option<string>)
  {
    token.Some? && token.value != ""
  }

  /** The warning the token check adds, if any: the three branches of the if/elif chain. */
  function TokenWarnings(token: Option<string>): (w: seq<string>)
    ensures |w| <= 1
  {
    if !TokenGiven(token) then []
    else if |token.value| < 50 then [TokenTooShort]
    else if !(IsPrefix("Bot ", token.value) || IsPrefix("Bearer ", token.value)) then [TokenPrefix]
    else []
  }

  /** The warning the intents check adds, if any. */
  function IntentWarnings(intents: Intents): (w: seq<string>)
    ensures |w| <= 1
  {
    if intents.IntentsDict? && intents.messageContent then [ContentIntent] else []
  }

  /**
   * `validate_discord_config(token, intents=...)`: the errors and warnings
   * lists are built by appending; the configuration is valid iff there is
   * no error, which is iff a token is given.
   */
  method ValidateDiscordConfig(token: Option<string>, intents: Intents) returns (v: Validation)
    ensures v.valid <==> v.errors == []
    ensures v.valid <==> TokenGiven(token)
    ensures !TokenGiven(token) ==> v.errors == [TokenRequired]
    ensures v.warnings == TokenWarnings(token) + IntentWarnings(intents)
  {
    var errors: seq<string> := [];
    var warnings: seq<string> := [];
    if !TokenGiven(token) {
      errors := errors + [TokenRequired];
    } else if |token.value| < 50 {
      warnings := warnings + [TokenTooShort];
    } else if !(IsPrefix("Bot ", token.value) || IsPrefix("Bearer ", token.value)) {
      warnings := warnings + [TokenPrefix];
    }
    if intents.IntentsDict? {
      if intents.messageContent {
        warnings := warnings + [ContentIntent];
      }
    }
    v := Validation(|errors| == 0, errors, warnings);
  }

  /* ---------- Classifying failures ---------- */

  const LibMissing: string := "DISCORD_LIB_MISSING"
  const InvalidToken: string := "DISCORD_INVALID_TOKEN"
  const PermissionError: string := "DISCORD_PERMISSION_ERROR"
  const RateLimit: string := "DISCORD_RATE_LIMIT"
  const ConnectionError: string := "DISCORD_CONNECTION_ERROR"
  const UnknownError: string := "DISCORD_UNKNOWN_ERROR"
  const ConfigInvalid: string := "DISCORD_CONFIG_INVALID"

  /** An `Exception` raised by the wrapped call: an ImportError or any other, with its `str(e)`. */
  datatype Raised = ImportFailure(text: string) | OtherFailure(text: string)

  /** What a wrapped call does: return a value or raise. */
  datatype Outcome<T> = Returned(value: T) | Threw(raised: Raised)

  /** The `{"error": True, "message": ..., "code": ...}` dict, with the "help" entry the validation gate adds, given by its topic. */
  datatype Report = Report(message: string, code: string, help: Option<HelpTopic>)

  /** The message families, tested in this order. */
  predicate IsAuthFailure(m: string) { Contains(m, "Invalid Token") || Contains(m, "Unauthorized") }
  predicate IsPermissionFailure(m: string) { Contains(m, "Forbidden") || Contains(m, "Missing Permissions") }
  predicate IsRateLimited(m: string) { Contains(m, "Rate limit") || Contains(m, "Too Many Requests") }
  predicate IsNetworkFailure(m: string) { Contains(m, "Connection") || Contains(m, "Network") }

  /** The error code chosen for the message of an exception other than ImportError. */
  function Classify(m: string): (code: string)
    ensures code in {InvalidToken, PermissionError, RateLimit, ConnectionError, UnknownError}
  {
    if IsAuthFailure(m) then InvalidToken
    else if IsPermissionFailure(m) then PermissionError
    else if IsRateLimited(m) then RateLimit
    else if IsNetworkFailure(m) then ConnectionError
    else UnknownError
  }

  /** The user-facing message reported for a classified failure. */
  function Explain(code: string, m: string): (text: string)
    ensures code !in {InvalidToken, PermissionError, RateLimit, ConnectionError} ==>
      IsPrefix("Discord operation failed: ", text) && IsSuffix(m, text)
  {
    if code == InvalidToken then "Invalid Discord bot token. Check your DISCORD_TOKEN environment variable."
    else if code == PermissionError then "Discord bot lacks required permissions for this action."
    else if code == RateLimit then "Discord API rate limit exceeded. Please wait before retrying."
    else if code == ConnectionError then "Failed to connect to Discord API. Check your internet connection."
    else "Discord operation failed: " + m
  }

  /** A known code is explained by a fixed message that does not depend on the exception's text. */
  lemma ExplainIgnoresMessage(code: string, m1: string, m2: string)
    requires code in {InvalidToken, PermissionError, RateLimit, ConnectionError}
    ensures Explain(code, m1) == Explain(code, m2)
  {
  }

  /** The report `handle_discord_error`'s wrapper returns for an exception. */
  function ReportFor(e: Raised): (r: Report)
    ensures r.help.None?
    ensures e.ImportFailure? ==> r.code == LibMissing
    ensures e.OtherFailure? ==> r.code == Classify(e.text)
  {
    match e
    case ImportFailure(_) => Report("Discord.py library not available. Install with: pip install discord.py", LibMissing, None)
    case OtherFailure(m) =>
      var code := Classify(m);
      Report(Explain(code, m), code, None)
  }

  /** `handle_discord_error(func)(...)`: the value the call returns, or the report of what it raised; it never raises itself. */
  function Guard<T>(call: Outcome<T>): (r: Result<T, Report>)
    ensures call.Returned? ==> r == Ok(call.value)
    ensures call.Threw? ==> r == Err(ReportFor(call.raised))
  {
    match call
    case Returned(v) => Ok(v)
    case Threw(e) => Err(ReportFor(e))
  }

  /* ---------- Help texts ---------- */

  /**
   * The texts `get_discord_help` chooses among, one per known code and a
   * general one; each stands for its multi-line troubleshooting text.
   */
  datatype HelpTopic = LibMissingTopic | InvalidTokenTopic | PermissionTopic | RateLimitTopic | ConnectionTopic | GeneralTopic

  /** `get_discord_help(error_code)`, as the topic of the text it returns: the code's own for the five known codes, the general one for any other code, an empty one or None. */
  function DiscordHelp(code: Option<string>): (topic: HelpTopic)
    ensures topic == GeneralTopic <==>
      code.None? || code.value !in {LibMissing, InvalidToken, PermissionError, RateLimit, ConnectionError}
  {
    if code.None? || code.value == "" then GeneralTopic
    else if code.value == LibMissing then LibMissingTopic
    else if code.value == InvalidToken then InvalidTokenTopic
    else if code.value == PermissionError then PermissionTopic
    else if code.value == RateLimit then RateLimitTopic
    else if code.value == ConnectionError then ConnectionTopic
    else GeneralTopic
  }

  /* ---------- The validation gate ---------- */

  /** `", ".join(parts)`. */
  function JoinComma(parts: seq<string>): string
  {
    if parts == [] then "" else if |parts| == 1 then parts[0] else parts[0] + ", " + JoinComma(parts[1..])
  }

  /**
   * `safe_create_discord_bot(token, intents=...)`: an invalid configuration
   * is reported with code DISCORD_CONFIG_INVALID and the token help, and no
   * bot is created; otherwise the creation is attempted, and when it raises
   * it is attempted once more under `handle_discord_error`. `first` and
   * `retry` are the outcomes of those two attempts.
   */
  method SafeCreateDiscordBot<T>(token: Option<string>, intents: Intents, first: Outcome<T>, retry: Outcome<T>) returns (r: Result<T, Report>)
    ensures !TokenGiven(token) ==>
      r == Err(Report("Configuration validation failed: " + TokenRequired, ConfigInvalid, Some(InvalidTokenTopic)))
    ensures TokenGiven(token) && first.Returned? ==> r == Ok(first.value)
    ensures TokenGiven(token) && first.Threw? ==> r == Guard(retry)
  {
    var validation := ValidateDiscordConfig(token, intents);
    if !validation.valid {
      return Err(Report("Configuration validation failed: " + JoinComma(validation.errors), ConfigInvalid, Some(DiscordHelp(Some(InvalidToken)))));
    }
    match first
    case Returned(bot) => r := Ok(bot);
    case Threw(_) => r := Guard(retry);
  }

  /* ---------- Properties ---------- */

  /** The token warnings: only "too short" below 50 characters, only the prefix warning for a longer token with neither prefix, none otherwise. */
  lemma TokenWarningCases(t: string)
    ensures t != "" && |t| < 50 ==> TokenWarnings(Some(t)) == [TokenTooShort]
    ensures |t| >= 50 && !IsPrefix("Bot ", t) && !IsPrefix("Bearer ", t) ==> TokenWarnings(Some(t)) == [TokenPrefix]
    ensures |t| >= 50 && (IsPrefix("Bot ", t) || IsPrefix("Bearer ", t)) ==> TokenWarnings(Some(t)) == []
    ensures TokenWarnings(None) == [] && TokenWarnings(Some("")) == []
  {
  }

  /** The message-content intent adds its warning exactly when set, and never touches validity or errors. */
  lemma IntentOnlyWarns(token: Option<string>, intents: Intents)
    ensures ContentIntent in TokenWarnings(token) + IntentWarnings(intents) <==> intents.IntentsDict? && intents.messageContent
  {
    var w := TokenWarnings(token);
    assert ContentIntent !in w by {
      assert ContentIntent != TokenTooShort && ContentIntent != TokenPrefix by {
        assert |ContentIntent| == 59 && |TokenTooShort| == 37 && |TokenPrefix| == 63;
      }
    }
  }

  /**
   * The first matching family decides the code: each code is chosen exactly
   * when its family matches and no earlier one does, and the unknown code
   * when none matches.
   */
  lemma ClassifyFirstFamily(m: string)
    ensures Classify(m) == InvalidToken <==> IsAuthFailure(m)
    ensures Classify(m) == PermissionError <==> !IsAuthFailure(m) && IsPermissionFailure(m)
    ensures Classify(m) == RateLimit <==> !IsAuthFailure(m) && !IsPermissionFailure(m) && IsRateLimited(m)
    ensures Classify(m) == ConnectionError <==>
      !IsAuthFailure(m) && !IsPermissionFailure(m) && !IsRateLimited(m) && IsNetworkFailure(m)
    ensures Classify(m) == UnknownError <==>
      !IsAuthFailure(m) && !IsPermissionFailure(m) && !IsRateLimited(m) && !IsNetworkFailure(m)
  {
    CodesDistinct();
  }

  /** The codes are told apart by their ninth character (and the two starting DISCORD_CON by their twelfth); none is empty. */
  lemma CodesDistinct()
    ensures LibMissing[8] == 'L' && InvalidToken[8] == 'I' && PermissionError[8] == 'P' && RateLimit[8] == 'R'
    ensures ConnectionError[8] == 'C' && UnknownError[8] == 'U' && ConfigInvalid[8] == 'C'
    ensures ConnectionError[11] == 'N' && ConfigInvalid[11] == 'F'
  {
  }

  /** A code gets a text of its own exactly when it is one of the five known codes; every other code, the empty one and None get the general text. */
  lemma HelpIsSpecific(code: Option<string>)
    ensures DiscordHelp(code) != GeneralTopic <==>
      code.Some? && code.value in {LibMissing, InvalidToken, PermissionError, RateLimit, ConnectionError}
    ensures code == Some(InvalidToken) ==> DiscordHelp(code) == InvalidTokenTopic
  {
    CodesDistinct();
  }

  /** Every code the wrapper reports has its own help text; only the unknown code falls back to the general text. */
  lemma ReportedCodesHaveHelp(e: Raised)
    ensures DiscordHelp(Some(ReportFor(e).code)) != GeneralTopic <==> ReportFor(e).code != UnknownError
  {
    CodesDistinct();
    var code := if e.ImportFailure? then LibMissing else Classify(e.text);
    assert ReportFor(e).code == code;
    HelpForReported(code);
  }

  lemma HelpForReported(code: string)
    requires code == LibMissing || code == InvalidToken || code == PermissionError || code == RateLimit
      || code == ConnectionError || code == UnknownError
    ensures DiscordHelp(Some(code)) != GeneralTopic <==> code != UnknownError
  {
    CodesDistinct();
  }

  /** An unclassified message is carried into the report, after a fixed preamble. */
  lemma UnknownKeepsMessage(m: string)
    requires Classify(m) == UnknownError
    ensures ReportFor(OtherFailure(m)).message == "Discord operation failed: " + m
  {
    CodesDistinct();
  }
}
