/**
 * The pure parts and the guards of convo/modules/discord_bot.py: the
 * message-condition matcher of ConvoDiscordBot, the DiscordModule that holds
 * the current bot, `reply_with` and the message attribute getters. The
 * discord.py client, its event loop and network sends are not modelled.
 */
module DiscordBot {

  import opened Wrappers
  import opened Text
  import opened Handlers

  /* ---------- The message-condition matcher ---------- */

  /** How many characters `\s+` can take at index i: the whitespace run starting there. */
  function SpaceRun(c: string, i: nat): (w: nat)
    requires i <= |c|
    ensures i + w <= |c|
    ensures forall k :: i <= k < i + w ==> IsSpace(c[k])
    ensures i + w < |c| ==> !IsSpace(c[i + w])
  {
    var rest := TrimStart(c[i..]);
    assert rest != [] ==> c[i + |c[i..]| - |rest|] == rest[0];
    |c[i..]| - |rest|
  }

  /** What the pattern `kw\s+"([^"]*)"` captures when it matches at index p, None when it does not match there. */
  function MatchAt(c: string, kw: string, p: nat): (r: Option<string>)
    requires p <= |c|
    ensures r.Some? ==> OccursAt(kw, c, p) && p + |kw| + 1 + |r.value| + 2 <= |c|
  {
    if !IsPrefix(kw, c[p..]) then None
    else
      assert c[p..][..|kw|] == c[p..p + |kw|];
      var w := SpaceRun(c, p + |kw|);
      var quote := p + |kw| + w;
      if w == 0 || quote == |c| || c[quote] != '"' then None
      else
        match FindFrom(c, "\"", quote + 1)
        case None => None
        case Some(close) => Some(c[quote + 1..close])
  }

  /** One of the four patterns `kw\s+"..."` matches somewhere in the condition. */
  predicate AnyPatternMatches(cond: string)
  {
    Search(cond, "contains").Some? || Search(cond, "starts with").Some?
    || Search(cond, "ends with").Some? || Search(cond, "equals").Some?
  }

  /** `re.search`: the capture of the leftmost match at or after p. */
  function SearchFrom(c: string, kw: string, p: nat): (r: Option<string>)
    requires p <= |c|
    ensures r.Some? ==> exists q :: p <= q <= |c| && MatchAt(c, kw, q) == r
    ensures r.None? ==> forall q :: p <= q <= |c| ==> MatchAt(c, kw, q).None?
    decreases |c| - p
  {
    var m := MatchAt(c, kw, p);
    if m.Some? then m
    else if p == |c| then None
    else SearchFrom(c, kw, p + 1)
  }

  /** The capture of `re.search(kw + r'\s+"([^"]*)"', c)`. */
  function Search(c: string, kw: string): (r: Option<string>)
    ensures r.Some? ==> Contains(c, kw)
    ensures r.None? <==> forall q :: 0 <= q <= |c| ==> MatchAt(c, kw, q).None?
  {
    SearchFrom(c, kw, 0)
  }

  /**
   * The test a lower-cased, stripped condition makes of lower-cased
   * content: the first keyword present selects it, and a failed extraction
   * or no keyword gives false.
   */
  function Decide(cond: string, text: string): (holds: bool)
    ensures holds ==> Contains(cond, "contains") || Contains(cond, "starts with") || Contains(cond, "ends with") || Contains(cond, "equals")
    ensures holds ==> AnyPatternMatches(cond)
  {
    if Contains(cond, "contains") then
      var m := Search(cond, "contains");
      m.Some? && Contains(text, m.value)
    else if Contains(cond, "starts with") then
      var m := Search(cond, "starts with");
      m.Some? && IsPrefix(m.value, text)
    else if Contains(cond, "ends with") then
      var m := Search(cond, "ends with");
      m.Some? && IsSuffix(m.value, text)
    else if Contains(cond, "equals") then
      var m := Search(cond, "equals");
      m.Some? && text == m.value
    else false
  }

  /** `_check_message_condition(condition, message)` with the message's content. */
  function CheckMessageCondition(condition: string, content: string): (holds: bool)
    ensures holds ==> AnyPatternMatches(Strip(Lower(condition)))
  {
    Decide(Strip(Lower(condition)), Lower(content))
  }

  /**
   * The evidently intended test: the first keyword whose whole pattern
   * `kw\s+"..."` matches selects the test, so a keyword that only occurs
   * inside the quoted text does not take the decision away from the one
   * written in front of it.
   */
  function DecideByPattern(cond: string, text: string): (holds: bool)
    ensures holds ==> AnyPatternMatches(cond)
    ensures Search(cond, "contains").Some? ==> (holds <==> Contains(text, Search(cond, "contains").value))
  {
    var c := Search(cond, "contains");
    if c.Some? then Contains(text, c.value)
    else
      var s := Search(cond, "starts with");
      if s.Some? then IsPrefix(s.value, text)
      else
        var e := Search(cond, "ends with");
        if e.Some? then IsSuffix(e.value, text)
        else
          var q := Search(cond, "equals");
          q.Some? && text == q.value
  }

  /** `_check_message_condition` with the branch chosen by the pattern that matches. */
  function CheckConditionByPattern(condition: string, content: string): (holds: bool)
    ensures holds ==> AnyPatternMatches(Strip(Lower(condition)))
  {
    DecideByPattern(Strip(Lower(condition)), Lower(content))
  }

  /* ---------- The bot and the module that holds it ---------- */

  const NoBot: string := "No bot created. Use 'Create bot' first."
  const LibraryMissing: string := "discord.py library not installed. Run: pip install discord.py"
  const TokenMissing: string := "Bot token is required"

  /** A message listener: its event type, its condition and its action. */
  datatype BotEvent = BotEvent(eventType: string, condition: Option<string>, action: Handler)

  /** A command: its name, description and action. */
  datatype BotCommand = BotCommand(name: string, description: string, action: Handler)

  /** ConvoDiscordBot: the lists of listeners and commands it keeps beside the discord.py client. */
  class Bot {
    const token: string
    const prefix: string
    var events: seq<BotEvent>
    var commands: seq<BotCommand>

    constructor (token: string, prefix: string := "!")
      ensures this.token == token && this.prefix == prefix
      ensures events == [] && commands == []
    {
      this.token := token;
      this.prefix := prefix;
      events := [];
      commands := [];
    }

    /** `add_message_listener`: a message event with the condition goes last. */
    method AddMessageListener(condition: string, action: Handler)
      modifies this
      ensures events == old(events) + [BotEvent("message", Some(condition), action)]
      ensures commands == old(commands)
    {
      events := events + [BotEvent("message", Some(condition), action)];
    }

    /** `add_command`: the command goes last; its registration with discord.py is not modelled. */
    method AddCommand(name: string, description: string, action: Handler)
      modifies this
      ensures commands == old(commands) + [BotCommand(name, description, action)]
      ensures events == old(events)
    {
      commands := commands + [BotCommand(name, description, action)];
    }

    /** `start`: refuses an empty token; otherwise it hands over to the client, which is not modelled. */
    method Start() returns (r: Result<(), string>)
      ensures r.Err? <==> token == ""
      ensures r.Err? ==> r.error == TokenMissing
    {
      if token == "" {
        return Err(TokenMissing);
      }
      return Ok(());
    }
  }

  /** DiscordModule: the bot that `create_bot` made last, which the other operations need. */
  class DiscordModule {
    var currentBot: Bot?

    constructor ()
      ensures currentBot == null
    {
      currentBot := null;
    }

    /**
     * `create_bot`: a new bot becomes the current one; without the library it raises and nothing changes.
     * The prefix defaults to "!", as in Python.
     */
    method CreateBot(libraryAvailable: bool, token: string, prefix: string := "!") returns (r: Result<Bot, string>)
      modifies this
      ensures !libraryAvailable ==> r == Err(LibraryMissing) && currentBot == old(currentBot)
      ensures libraryAvailable ==> r.Ok? && fresh(r.value) && currentBot == r.value
      ensures libraryAvailable ==> r.value.token == token && r.value.prefix == prefix
      ensures libraryAvailable ==> r.value.events == [] && r.value.commands == []
    {
      if !libraryAvailable {
        return Err(LibraryMissing);
      }
      var bot := new Bot(token, prefix);
      currentBot := bot;
      return Ok(bot);
    }

    /** `listen_for_messages`: raises while there is no bot, else adds the listener to the current bot. */
    method ListenForMessages(condition: string, action: Handler) returns (r: Result<(), string>)
      modifies currentBot
      ensures currentBot == null <==> r.Err?
      ensures r.Err? ==> r.error == NoBot
      ensures currentBot != null ==>
        currentBot.events == old(currentBot.events) + [BotEvent("message", Some(condition), action)]
      ensures currentBot != null ==> currentBot.commands == old(currentBot.commands)
    {
      if currentBot == null {
        return Err(NoBot);
      }
      currentBot.AddMessageListener(condition, action);
      return Ok(());
    }

    /** `add_command`: raises while there is no bot, else adds the command to the current bot. */
    method AddCommand(name: string, description: string, action: Handler) returns (r: Result<(), string>)
      modifies currentBot
      ensures currentBot == null <==> r.Err?
      ensures r.Err? ==> r.error == NoBot
      ensures currentBot != null ==>
        currentBot.commands == old(currentBot.commands) + [BotCommand(name, description, action)]
      ensures currentBot != null ==> currentBot.events == old(currentBot.events)
    {
      if currentBot == null {
        return Err(NoBot);
      }
      currentBot.AddCommand(name, description, action);
      return Ok(());
    }

    /** `start_bot`: raises while there is no bot, else starts the current one. */
    method StartBot() returns (r: Result<(), string>)
      ensures currentBot == null ==> r == Err(NoBot)
      ensures currentBot != null ==> (r.Err? <==> currentBot.token == "")
    {
      if currentBot == null {
        return Err(NoBot);
      }
      r := currentBot.Start();
    }
  }

  /** `reply_with(text)`: a reply function that ignores its arguments and gives the text. */
  function ReplyWith<A(!new)>(text: string): (reply: seq<A> -> string)
    ensures forall args :: reply(args) == text
  {
    args => text
  }

  /* ---------- Message attributes ---------- */

  /** The attributes of a message object that the getters look for; None where the object lacks one. */
  datatype Author = Author(displayName: Option<string>)
  datatype Message = Message(author: Option<Author>, content: Option<string>)

  /** `get_user_name`: the author's display name, "User" when the message has no author or the author no display name. */
  function UserName(m: Message): (name: string)
    ensures m.author.Some? && m.author.value.displayName.Some? ==> name == m.author.value.displayName.value
    ensures m.author.None? || m.author.value.displayName.None? ==> name == "User"
  {
    if m.author.Some? && m.author.value.displayName.Some? then m.author.value.displayName.value else "User"
  }

  /** `get_message_content`: the content, "" when the message has none. */
  function MessageContent(m: Message): (text: string)
    ensures m.content.Some? ==> text == m.content.value
    ensures m.content.None? ==> text == ""
  {
    if m.content.Some? then m.content.value else ""
  }
}
