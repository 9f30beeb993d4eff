/**
 * EventRegistry of convo/modules/discord/events.py: a dict from event names
 * to the lists of handlers registered for them, changed in place.
 */
module DiscordEvents {

  import opened Handlers

  /** `events.get(event, [])`: the handlers of an event, none for an unknown one. */
  function HandlersOf(events: map<string, seq<Handler>>, event: string): (hs: seq<Handler>)
    ensures event in events ==> hs == events[event]
    ensures event !in events ==> hs == []
  {
    if event in events then events[event] else []
  }

  /** The index of the first occurrence of h. */
  function FirstIndex(hs: seq<Handler>, h: Handler): (i: nat)
    requires h in hs
    ensures i < |hs| && hs[i] == h
    ensures h !in hs[..i]
  {
    if hs[0] == h then 0
    else
      var j := FirstIndex(hs[1..], h);
      assert hs[..j + 1] == [hs[0]] + hs[1..][..j];
      j + 1
  }

  /** `list.remove(h)`: the list without its first h. */
  function RemoveFirst(hs: seq<Handler>, h: Handler): (r: seq<Handler>)
    requires h in hs
    ensures |r| == |hs| - 1 && multiset(r) == multiset(hs) - multiset{h}
  {
    var i := FirstIndex(hs, h);
    assert hs == hs[..i] + [hs[i]] + hs[i + 1..];
    hs[..i] + hs[i + 1..]
  }

  /** The dict after `add_event_handler(event, h)`. */
  function WithHandler(events: map<string, seq<Handler>>, event: string, h: Handler): (r: map<string, seq<Handler>>)
    ensures r.Keys == events.Keys + {event}
    ensures HandlersOf(r, event) == HandlersOf(events, event) + [h]
    ensures forall e :: e != event ==> HandlersOf(r, e) == HandlersOf(events, e)
  {
    events[event := HandlersOf(events, event) + [h]]
  }

  /** The dict after a `remove_event_handler(event, h)` that finds h. */
  function WithoutHandler(events: map<string, seq<Handler>>, event: string, h: Handler): map<string, seq<Handler>>
    requires h in HandlersOf(events, event)
  {
    events[event := RemoveFirst(events[event], h)]
  }

  /** The dict after `clear_event_handlers(event)`. */
  function Cleared(events: map<string, seq<Handler>>, event: string): map<string, seq<Handler>>
  {
    if event in events then events[event := []] else events
  }

  class EventRegistry {
    /** `self.events`. */
    var events: map<string, seq<Handler>>
    /** The keys of `self.events` in insertion order. */
    var names: seq<string>

    ghost predicate Valid()
      reads this
    {
      KeyOrder(names, events.Keys)
    }

    constructor ()
      ensures Valid()
      ensures events == map[] && names == []
    {
      events := map[];
      names := [];
    }

    /** Registers a handler at the end of the event's list, creating the list first when the event is new. */
    method AddEventHandler(event: string, handler: Handler)
      requires Valid()
      modifies this
      ensures Valid()
      ensures events == WithHandler(old(events), event, handler)
      ensures names == Insert(old(names), old(events).Keys, event)
    {
      if event !in events {
        names := Insert(names, events.Keys, event);
        events := events[event := []];
      }
      events := events[event := events[event] + [handler]];
    }

    /** Removes the first occurrence of the handler; false, with nothing changed, when the event has no such handler. */
    method RemoveEventHandler(event: string, handler: Handler) returns (removed: bool)
      requires Valid()
      modifies this
      ensures Valid()
      ensures removed <==> handler in HandlersOf(old(events), event)
      ensures removed ==> events == WithoutHandler(old(events), event, handler)
      ensures !removed ==> events == old(events)
      ensures names == old(names)
    {
      if event in events && events[event] != [] && handler in events[event] {
        events := events[event := RemoveFirst(events[event], handler)];
        removed := true;
      } else {
        removed := false;
      }
    }

    /** The handlers of an event; an unknown event gives [] and is not added. */
    function GetHandlers(event: string): (r: seq<Handler>)
      reads this
      ensures event !in events ==> r == []
      ensures event in events ==> r == events[event]
    {
      HandlersOf(events, event)
    }

    /** The registered event names, each once, in the order they were first added. */
    function ListEvents(): (r: seq<string>)
      requires Valid()
      reads this
      ensures Distinct(r)
      ensures forall n :: n in r <==> n in events
    {
      names
    }

    /** Empties the handler list of a known event, which stays registered; an unknown event is left alone. */
    method ClearEventHandlers(event: string)
      requires Valid()
      modifies this
      ensures Valid()
      ensures events == Cleared(old(events), event)
      ensures names == old(names)
    {
      if event in events {
        events := events[event := []];
      }
    }

    /** Forgets every event. */
    method ClearAll()
      modifies this
      ensures Valid()
      ensures events == map[] && names == []
    {
      events := map[];
      names := [];
    }
  }

  /* ---------- Properties of the registry operations ---------- */

  /** `remove` takes out exactly the first occurrence: the list is the result with h put back at that place. */
  lemma RemoveFirstSpec(hs: seq<Handler>, h: Handler)
    requires h in hs
    ensures var r := RemoveFirst(hs, h);
      && |r| == |hs| - 1
      && multiset(r) == multiset(hs) - multiset{h}
      && exists i :: 0 <= i <= |r| && hs == r[..i] + [h] + r[i..] && h !in r[..i]
  {
    var i := FirstIndex(hs, h);
    var r := RemoveFirst(hs, h);
    assert r[..i] == hs[..i];
    assert r[i..] == hs[i + 1..];
    assert hs == hs[..i] + [h] + hs[i + 1..];
    calc {
      multiset(hs);
      multiset(hs[..i]) + multiset{h} + multiset(hs[i + 1..]);
      multiset(r) + multiset{h};
    }
  }

  /** Adding appends at the end and keeps duplicates; the event is registered afterwards. */
  lemma AddAppends(events: map<string, seq<Handler>>, event: string, h: Handler)
    ensures event in WithHandler(events, event, h)
    ensures HandlersOf(WithHandler(events, event, h), event) == HandlersOf(events, event) + [h]
    ensures |HandlersOf(WithHandler(events, event, h), event)| == |HandlersOf(events, event)| + 1
  {
  }

  /** Add, remove and clear on one event leave every other event, and its handlers, as they were. */
  lemma OtherEventsUntouched(events: map<string, seq<Handler>>, event: string, other: string, h: Handler)
    requires other != event
    ensures (other in WithHandler(events, event, h) <==> other in events)
      && HandlersOf(WithHandler(events, event, h), other) == HandlersOf(events, other)
    ensures h in HandlersOf(events, event) ==>
      (other in WithoutHandler(events, event, h) <==> other in events)
      && HandlersOf(WithoutHandler(events, event, h), other) == HandlersOf(events, other)
    ensures (other in Cleared(events, event) <==> other in events)
      && HandlersOf(Cleared(events, event), other) == HandlersOf(events, other)
  {
  }

  /** Removing a handler just added to a list without it gives the list back. */
  lemma AddThenRemove(events: map<string, seq<Handler>>, event: string, h: Handler)
    requires h !in HandlersOf(events, event)
    ensures h in HandlersOf(WithHandler(events, event, h), event)
    ensures HandlersOf(WithoutHandler(WithHandler(events, event, h), event, h), event) == HandlersOf(events, event)
  {
    var hs := HandlersOf(events, event);
    var i := FirstIndex(hs + [h], h);
    assert forall j :: 0 <= j < |hs| ==> (hs + [h])[j] == hs[j];
    assert i == |hs|;
    assert (hs + [h])[..i] == hs;
  }

  /** With h registered twice, removing it takes out the earlier copy and the later one stays. */
  lemma RemoveKeepsDuplicate(events: map<string, seq<Handler>>, event: string, h: Handler)
    requires h in HandlersOf(events, event)
    ensures h in HandlersOf(WithoutHandler(WithHandler(events, event, h), event, h), event)
  {
    var hs := HandlersOf(events, event) + [h];
    var i := FirstIndex(hs, h);
    assert i < |hs| - 1 by {
      var k :| 0 <= k < |hs| - 1 && hs[k] == h;
      assert hs[..k + 1][k] == h;
    }
    var r := RemoveFirst(hs, h);
    assert r[|r| - 1] == hs[|hs| - 1];
  }

  /** Clearing keeps the event registered, with no handlers, and changes nothing for an unknown one. */
  lemma ClearKeepsName(events: map<string, seq<Handler>>, event: string)
    ensures event in Cleared(events, event) <==> event in events
    ensures HandlersOf(Cleared(events, event), event) == []
    ensures event !in events ==> Cleared(events, event) == events
  {
  }
}
