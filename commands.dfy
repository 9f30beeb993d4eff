/**
 * CommandRegistry of convo/modules/discord/commands.py: a dict from command
 * names to their handlers, updated in place.
 */
module DiscordCommands {

  import opened Wrappers
  import opened Handlers

  class CommandRegistry {
    /** `self.commands`. */
    var commands: map<string, Handler>
    /** The keys of `self.commands` in insertion order. */
    var names: seq<string>

    ghost predicate Valid()
      reads this
    {
      KeyOrder(names, commands.Keys)
    }

    constructor ()
      ensures Valid()
      ensures commands == map[] && names == []
    {
      commands := map[];
      names := [];
    }

    /** Binds a name to a handler, replacing any earlier handler of that name. */
    method AddCommand(name: string, handler: Handler)
      requires Valid()
      modifies this
      ensures Valid()
      ensures commands == old(commands)[name := handler]
      ensures names == Insert(old(names), old(commands).Keys, name)
    {
      names := Insert(names, commands.Keys, name);
      commands := commands[name := handler];
    }

    /** The handler of a name, None when the name was never added. */
    function GetCommand(name: string): (r: Option<Handler>)
      reads this
      ensures r.Some? <==> name in commands
      ensures r.Some? ==> r.value == commands[name]
    {
      if name in commands then Some(commands[name]) else None
    }

    /** The command names, each once, in the order they were first added. */
    function AllCommands(): (r: seq<string>)
      requires Valid()
      reads this
      ensures Distinct(r)
      ensures forall n :: n in r <==> n in commands
    {
      names
    }
  }

  /* ---------- A run of add_command calls ---------- */

  /** The dict after the calls `add_command(n, h)` for each (n, h) of `adds`, in order. */
  function Replay(commands: map<string, Handler>, adds: seq<(string, Handler)>): (r: map<string, Handler>)
    ensures adds != [] ==> adds[|adds| - 1].0 in r && r[adds[|adds| - 1].0] == adds[|adds| - 1].1
    ensures forall n :: n in commands && (forall k :: 0 <= k < |adds| ==> adds[k].0 != n) ==> n in r && r[n] == commands[n]
    decreases |adds|
  {
    if adds == [] then commands else Replay(commands[adds[0].0 := adds[0].1], adds[1..])
  }

  /** The key order after the same calls. */
  function ReplayNames(names: seq<string>, commands: map<string, Handler>, adds: seq<(string, Handler)>): seq<string>
    requires KeyOrder(names, commands.Keys)
    decreases |adds|
  {
    if adds == [] then names
    else ReplayNames(Insert(names, commands.Keys, adds[0].0), commands[adds[0].0 := adds[0].1], adds[1..])
  }

  /** The names added. */
  function AddedNames(adds: seq<(string, Handler)>): set<string>
  {
    set a | a in adds :: a.0
  }

  /** The calls keep the key order: each key listed once, exactly the keys of the dict. */
  lemma {:induction false} ReplayKeepsOrder(names: seq<string>, commands: map<string, Handler>, adds: seq<(string, Handler)>)
    requires KeyOrder(names, commands.Keys)
    ensures KeyOrder(ReplayNames(names, commands, adds), Replay(commands, adds).Keys)
    decreases |adds|
  {
    if adds != [] {
      var n, h := adds[0].0, adds[0].1;
      assert commands[n := h].Keys == commands.Keys + {n};
      ReplayKeepsOrder(Insert(names, commands.Keys, n), commands[n := h], adds[1..]);
    }
  }

  /** After the calls the keys are the earlier ones and the names added: on a fresh registry, exactly the distinct names added. */
  lemma {:induction false} ReplayKeys(commands: map<string, Handler>, adds: seq<(string, Handler)>)
    ensures Replay(commands, adds).Keys == commands.Keys + AddedNames(adds)
    decreases |adds|
  {
    if adds != [] {
      var n, h := adds[0].0, adds[0].1;
      ReplayKeys(commands[n := h], adds[1..]);
      assert adds == [adds[0]] + adds[1..];
      assert AddedNames(adds) == {n} + AddedNames(adds[1..]);
    }
  }

  /** A name not among the calls keeps what it had: another name's add leaves it alone, and a name never added stays unbound. */
  lemma {:induction false} ReplayKeepsOthers(commands: map<string, Handler>, adds: seq<(string, Handler)>, other: string)
    requires other !in AddedNames(adds)
    ensures other in Replay(commands, adds) <==> other in commands
    ensures other in commands ==> Replay(commands, adds)[other] == commands[other]
    decreases |adds|
  {
    if adds != [] {
      assert adds[0] in adds;
      assert AddedNames(adds[1..]) <= AddedNames(adds) by {
        forall a | a in adds[1..] ensures a in adds { }
      }
      ReplayKeepsOthers(commands[adds[0].0 := adds[0].1], adds[1..], other);
    }
  }

  /** The last add of a name wins. */
  lemma {:induction false} LastAddWins(commands: map<string, Handler>, before: seq<(string, Handler)>, name: string, h: Handler, after: seq<(string, Handler)>)
    requires name !in AddedNames(after)
    ensures name in Replay(commands, before + [(name, h)] + after)
    ensures Replay(commands, before + [(name, h)] + after)[name] == h
    decreases |before|
  {
    if before == [] {
      assert [(name, h)] + after == [(name, h)] + after;
      assert ([(name, h)] + after)[1..] == after;
      ReplayKeepsOthers(commands[name := h], after, name);
    } else {
      assert (before + [(name, h)] + after)[1..] == before[1..] + [(name, h)] + after;
      LastAddWins(commands[before[0].0 := before[0].1], before[1..], name, h, after);
    }
  }
}
