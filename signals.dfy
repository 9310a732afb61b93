/**
 * tracking/signals.py: one signal per UI event code, and a registry of event
 * names in which every name stands for itself.
 */
module Signals {
  import opened Wrappers
  import opened Models

  /** A `django.dispatch.Signal`, kept opaque: only the arguments it declares. */
  datatype Signal = Signal(providingArgs: seq<string>)

  /** The codes of `TrackingEvent.EVENT_CHOICES`. */
  function EventCodes(): set<string>
  {
    set i | 0 <= i < |EventChoices| :: EventChoices[i].0
  }

  /** The codes are exactly the six UI events. */
  lemma SixEventCodes()
    ensures EventCodes() == {"click", "hover", "scroll", "focus", "submit", "change"}
    ensures |EventCodes()| == 6
  {
    assert EventChoices[0].0 == "click" && EventChoices[1].0 == "hover";
    assert EventChoices[2].0 == "scroll" && EventChoices[3].0 == "focus";
    assert EventChoices[4].0 == "submit" && EventChoices[5].0 == "change";
    assert EventCodes() == {"click", "hover", "scroll", "focus", "submit", "change"};
  }

  /** `_Events`. */
  class Events {
    var events: map<string, Signal>
    var registered: map<string, string>
    /** Every name ever passed to `NewName`. */
    ghost var passed: set<string>

    ghost predicate Valid()
      reads this
    {
      && events.Keys == EventCodes()
      && registered.Keys == passed
      && forall name :: name in registered ==> registered[name] == name
    }

    /** `_Events.__init__`: a signal per event code, and nothing registered. */
    constructor()
      ensures Valid() && registered == map[] && passed == {}
      ensures forall code :: code in events ==> events[code] == Signal(["data", "user"])
    {
      events := map i | 0 <= i < |EventChoices| :: EventChoices[i].0 := Signal(["data", "user"]);
      registered := map[];
      passed := {};
    }

    /** `get(key)`: the signal of an event code; `None` for any other key. */
    function Get(key: string): (r: Option<Signal>)
      reads this
      requires Valid()
      ensures r.Some? <==> key in EventCodes()
    {
      if key in events then Some(events[key]) else None
    }

    /** `new_name(name)`: `registered.setdefault(name, name)`. */
    method NewName(name: string) returns (r: string)
      requires Valid()
      modifies this`registered, this`passed
      ensures Valid()
      ensures r == name
      ensures registered == old(registered)[name := name] && passed == old(passed) + {name}
    {
      if name in registered {
        r := registered[name];
      } else {
        registered := registered[name := name];
        r := name;
      }
      passed := passed + {name};
    }

    /** `registered_name(name)`: the name itself once registered, otherwise `None`. */
    function RegisteredName(name: string): (r: Option<string>)
      reads this
      requires Valid()
      ensures r == Some(name) <==> name in passed
      ensures r == None <==> name !in passed
    {
      if name in registered then Some(registered[name]) else None
    }
  }

  /** Registering a name twice: both calls answer the name, and the second changes nothing. */
  method NewNameTwice(events: Events, name: string) returns (first: string, second: string)
    requires events.Valid()
    modifies events`registered, events`passed
    ensures events.Valid() && first == name && second == name
    ensures events.registered == old(events.registered)[name := name]
    ensures events.RegisteredName(name) == Some(name)
  {
    first := events.NewName(name);
    second := events.NewName(name);
  }
}
