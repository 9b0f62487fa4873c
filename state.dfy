/**
  The building blocks of a role's state machine (src/core/entity/state.py):
  actions, transitions, events and the State object, whose `status` and
  `description` are the only fields ever assigned after construction.
*/
module States {
  import opened Wrappers
  import opened Dicts
  import Text

  /** `StateStatus`. */
  datatype StateStatus = NotStarted | InProgress | Completed

  /** An action authorised for an event; the description defaults to None. */
  datatype Action = Action(name: string, description: Option<string> := None)

  /** An edge to the state named `to`; no condition and priority 0 by default. */
  datatype Transition = Transition(to: string, condition: Option<string> := None, priority: int := 0)

  /** A recognised event of a state and the actions authorised for it. */
  datatype Event = Event(description: string, actions: seq<Action>)

  /** The names of the listed actions, in order. */
  function ActionNames(actions: seq<Action>): (r: seq<string>)
    ensures |r| == |actions|
    ensures forall i :: 0 <= i < |r| ==> r[i] == actions[i].name
  {
    seq(|actions|, i requires 0 <= i < |actions| => actions[i].name)
  }

  lemma DataclassDefaults(to: string, name: string)
    ensures Transition(to).condition == None && Transition(to).priority == 0
    ensures Action(name).description == None
  {
  }

  /**
    A transition `_init_agent` may follow: Python's `not t.condition` holds for
    None and for the empty string, and the priority must be above zero.
  */
  predicate IsAutoAdvance(t: Transition) {
    (t.condition == None || t.condition == Some("")) && t.priority > 0
  }

  /** `_check_condition(t.condition, eventName)`: the condition equals the event name. */
  predicate MatchesEvent(t: Transition, eventName: string): (r: bool)
    ensures t.condition.None? ==> !r
    ensures r ==> t.condition.value == eventName
  {
    t.condition == Some(eventName)
  }

  /** A transition answers to at most one event: the one its condition names. */
  lemma MatchesOneEvent(t: Transition, e1: string, e2: string)
    requires MatchesEvent(t, e1) && MatchesEvent(t, e2)
    ensures e1 == e2
  {
  }

  /**
    `min([t for t in ts if IsAutoAdvance(t)], key=priority)` as an index into
    `ts`: the lowest priority among the auto-advance transitions, the first of
    them on a tie (Python's `min` keeps the first minimum it meets).
  */
  function LowestAutoAdvance(ts: seq<Transition>): (r: Option<nat>)
    ensures r.None? <==> forall j :: 0 <= j < |ts| ==> !IsAutoAdvance(ts[j])
    ensures r.Some? ==> r.value < |ts| && IsAutoAdvance(ts[r.value])
    ensures r.Some? ==> forall j :: 0 <= j < |ts| && IsAutoAdvance(ts[j]) ==> ts[r.value].priority <= ts[j].priority
    ensures r.Some? ==> forall j :: 0 <= j < r.value && IsAutoAdvance(ts[j]) ==> ts[j].priority > ts[r.value].priority
  {
    if ts == [] then None
    else
      var last := |ts| - 1;
      match LowestAutoAdvance(ts[..last])
      case None => if IsAutoAdvance(ts[last]) then Some(last) else None
      case Some(i) =>
        if IsAutoAdvance(ts[last]) && ts[last].priority < ts[i].priority then Some(last) else Some(i)
  }

  /**
    `max([t for t in ts if MatchesEvent(t, e)], key=priority)` as an index into
    `ts`: the highest priority among the transitions conditioned on the event,
    the first of them on a tie (Python's `max` keeps the first maximum it meets).
  */
  function HighestMatching(ts: seq<Transition>, eventName: string): (r: Option<nat>)
    ensures r.None? <==> forall j :: 0 <= j < |ts| ==> !MatchesEvent(ts[j], eventName)
    ensures r.Some? ==> r.value < |ts| && MatchesEvent(ts[r.value], eventName)
    ensures r.Some? ==> forall j :: 0 <= j < |ts| && MatchesEvent(ts[j], eventName) ==> ts[j].priority <= ts[r.value].priority
    ensures r.Some? ==> forall j :: 0 <= j < r.value && MatchesEvent(ts[j], eventName) ==> ts[j].priority < ts[r.value].priority
  {
    if ts == [] then None
    else
      var last := |ts| - 1;
      match HighestMatching(ts[..last], eventName)
      case None => if MatchesEvent(ts[last], eventName) then Some(last) else None
      case Some(i) =>
        if MatchesEvent(ts[last], eventName) && ts[last].priority > ts[i].priority then Some(last) else Some(i)
  }

  /** The line `get_formatted_event_list` writes for the event at 1-based position `index`. */
  function EventLine(index: nat, eventName: string, event: Event): string {
    Text.DecimalString(index) + ". Event: " + eventName + ", Description: " + event.description + "\n"
  }

  /** One line per event, in the map's order, numbered from 1. */
  function EventLines(events: Dict<string, Event>): (r: seq<string>)
    ensures |r| == |events.keys|
    ensures forall k :: 0 <= k < |r| ==> r[k] == EventLine(k + 1, events.keys[k], events.entries[events.keys[k]])
  {
    seq(|events.keys|, k requires 0 <= k < |events.keys| =>
      EventLine(k + 1, events.keys[k], events.entries[events.keys[k]]))
  }

  /** What `get_formatted_event_list` returns: the lines joined, then stripped. */
  function EventListText(events: Dict<string, Event>): string {
    Text.Strip(Text.Concat(EventLines(events)))
  }

  lemma {:induction false} EmptyEventList(events: Dict<string, Event>)
    requires events.keys == []
    ensures EventListText(events) == ""
  {
    assert EventLines(events) == [];
  }

  /**
    With at least one event the text opens with the first event's line up to
    its description: the leading "1" and the trailing ':' are not whitespace,
    so stripping leaves that part alone.
  */
  lemma {:induction false} EventListStartsWithFirst(events: Dict<string, Event>)
    requires events.keys != []
    ensures var text := EventListText(events);
            var head := "1. Event: " + events.keys[0] + ", Description:";
            |head| <= |text| && text[..|head|] == head
  {
    var lines := EventLines(events);
    var head := "1. Event: " + events.keys[0] + ", Description:";
    FirstLineShape(events, head);
    ConcatStartsWithFirst(lines);
    var raw := Text.Concat(lines);
    PrefixOfPrefix(raw, lines[0], head);
    assert raw[0] == '1';
    assert !Text.IsSpace(raw[0]);
    assert Text.StripLeft(raw) == raw;
    StrippedKeepsPrefix(raw, head);
  }

  lemma FirstLineShape(events: Dict<string, Event>, head: string)
    requires events.keys != [] && head == "1. Event: " + events.keys[0] + ", Description:"
    ensures var line := EventLines(events)[0];
            |head| <= |line| && line[..|head|] == head && head[0] == '1' && head[|head| - 1] == ':'
  {
    assert Text.Digit(1) == '1';
    assert Text.DecimalString(1) == "1";
    var line := EventLines(events)[0];
    assert line == head + (" " + events.entries[events.keys[0]].description + "\n");
  }

  lemma PrefixOfPrefix(s: string, p: string, q: string)
    requires |p| <= |s| && s[..|p|] == p
    requires |q| <= |p| && p[..|q|] == q
    ensures |q| <= |s| && s[..|q|] == q
  {
    assert s[..|q|] == s[..|p|][..|q|];
  }

  lemma {:induction false} ConcatStartsWithFirst(parts: seq<string>)
    requires parts != []
    ensures |parts[0]| <= |Text.Concat(parts)| && Text.Concat(parts)[..|parts[0]|] == parts[0]
  {
    if |parts| > 1 {
      var init := parts[..|parts| - 1];
      ConcatStartsWithFirst(init);
      assert init[0] == parts[0];
    } else {
      assert parts[..0] == [];
    }
  }

  /** Right-stripping keeps a prefix that ends in a non-space character. */
  lemma StrippedKeepsPrefix(s: string, head: string)
    requires head != [] && |head| <= |s| && s[..|head|] == head && !Text.IsSpace(head[|head| - 1])
    ensures var r := Text.StripRight(s); |head| <= |r| && r[..|head|] == head
  {
    var r := Text.StripRight(s);
    assert s[|head| - 1] == head[|head| - 1];
    assert r == s[..|r|];
  }

  /** A state of a role, `State` in the source. */
  class State {
    const name: string
    const stateType: string
    var description: string
    const eventActions: Dict<string, Event>
    const transitions: seq<Transition>
    var status: StateStatus

    constructor (name: string, stateType: string, description: string,
                 eventActions: Dict<string, Event>, transitions: seq<Transition>,
                 status: StateStatus := NotStarted)
      ensures this.name == name && this.stateType == stateType
      ensures this.description == description && this.eventActions == eventActions
      ensures this.transitions == transitions && this.status == status
    {
      this.name := name;
      this.stateType := stateType;
      this.description := description;
      this.eventActions := eventActions;
      this.transitions := transitions;
      this.status := status;
    }

    /** The actions authorised for an event, in their listed order; none for an unknown event. */
    function GetActionsForEvent(event: string): (r: seq<Action>)
      ensures event !in eventActions.entries ==> r == []
      ensures event in eventActions.entries ==> r == eventActions.entries[event].actions
    {
      match Get(eventActions, event)
      case Some(e) => e.actions
      case None => []
    }

    /** Sets the status and nothing else. */
    method UpdateStatus(newStatus: StateStatus)
      modifies this`status
      ensures status == newStatus
    {
      status := newStatus;
    }

    method MarkCompleted()
      modifies this`status
      ensures status == Completed
    {
      status := Completed;
    }

    function FormattedCurrentState(): (r: string)
      reads this`description
      ensures r == "State Name: " + name + ", Description: " + description
    {
      "State Name: " + name + ", Description: " + description
    }

    /** Accumulates one numbered line per event in map order, then strips the text. */
    method FormattedEventList() returns (r: string)
      ensures r == EventListText(eventActions)
    {
      var lines := EventLines(eventActions);
      var acc := "";
      var i := 0;
      while i < |eventActions.keys|
        invariant 0 <= i <= |eventActions.keys|
        invariant acc == Text.Concat(lines[..i])
      {
        var event := eventActions.keys[i];
        acc := acc + EventLine(i + 1, event, eventActions.entries[event]);
        assert lines[..i + 1][..i] == lines[..i];
        i := i + 1;
      }
      assert lines[..i] == lines;
      r := Text.Strip(acc);
    }

    /**
      Python's `==` on the `State` dataclass: field by field, with the event map
      compared as a dict (order-insensitive) and the transitions as a list.
    */
    predicate SameValue(other: State): (r: bool)
      reads this, other
      ensures other == this ==> r
      ensures r ==> name == other.name && status == other.status
    {
      && name == other.name
      && stateType == other.stateType
      && description == other.description
      && eventActions.entries == other.eventActions.entries
      && transitions == other.transitions
      && status == other.status
    }
  }
}
