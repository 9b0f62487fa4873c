/**
  A role: the state machine an agent follows (src/core/entity/role.py). The
  Role record itself is never changed after it is built; the parser that builds
  it from an already-loaded template fills its own state map and then sets each
  state's description in place.
*/
module Roles {
  import opened Wrappers
  import opened Dicts
  import opened States

  /** `Role`: its states by name (in template order), the initial state and the end states. */
  datatype Role = Role(name: string, states: Dict<string, State>, initState: State?, endStates: seq<State>) {

    /** What `Role.from_template` guarantees: every state is stored under its own name, and the
        initial and end states are states of the map. */
    ghost predicate WellFormed() {
      && (forall k :: k in states.entries ==> states.entries[k].name == k)
      && (initState != null ==> initState in states.entries.Values)
      && (forall i :: 0 <= i < |endStates| ==> endStates[i] in states.entries.Values)
    }

    /** `get_state`: the stored state, or None (null) for an unknown name. */
    function GetState(stateName: string): (r: State?)
      ensures r == null <==> stateName !in states.entries
      ensures r != null ==> r == states.entries[stateName]
    {
      if stateName in states.entries then states.entries[stateName] else null
    }

    /**
      The loop of `get_next_states`: the stored state for each transition
      target, in transition order, skipping targets the role does not have.
    */
    function ExistingTargets(ts: seq<Transition>): (r: seq<State>)
      ensures |r| <= |ts|
    {
      if ts == [] then []
      else
        var last := ts[|ts| - 1];
        var init := ExistingTargets(ts[..|ts| - 1]);
        if last.to in states.entries then init + [states.entries[last.to]] else init
    }

    /** `get_next_states`: nothing for an unknown state, else the existing targets of its transitions. */
    function GetNextStates(stateName: string): (r: seq<State>)
      ensures stateName !in states.entries ==> r == []
      ensures stateName in states.entries ==> r == ExistingTargets(states.entries[stateName].transitions)
    {
      var current := GetState(stateName);
      if current == null then [] else ExistingTargets(current.transitions)
    }

    /** `get_event_description`: None for an unknown state or event, else the event's description. */
    function GetEventDescription(stateName: string, eventName: string): (r: Option<string>)
      ensures r.Some? <==> stateName in states.entries && eventName in states.entries[stateName].eventActions.entries
      ensures r.Some? ==> r.value == states.entries[stateName].eventActions.entries[eventName].description
    {
      var state := GetState(stateName);
      if state == null then None
      else match Get(state.eventActions, eventName)
        case Some(event) => Some(event.description)
        case None => None
    }
  }

  /** `Role.__init__`: `end_states or []`, so a missing list of end states becomes empty. */
  function MakeRole(name: string, states: Dict<string, State>, initState: State?, endStates: Option<seq<State>>): (r: Role)
    ensures r.name == name && r.states == states && r.initState == initState
    ensures endStates.None? ==> r.endStates == []
    ensures endStates.Some? ==> r.endStates == endStates.value
  {
    Role(name, states, initState, if endStates.Some? then endStates.value else [])
  }

  /** Some transition of `ts` targets the stored state `s`. */
  ghost predicate IsTargetOf(role: Role, ts: seq<Transition>, s: State) {
    exists j :: 0 <= j < |ts| && ts[j].to in role.states.entries && s == role.states.entries[ts[j].to]
  }

  /** The next states are exactly the stored states some transition targets; dangling targets are dropped. */
  lemma {:induction false} ExistingTargetsMembers(role: Role, ts: seq<Transition>)
    ensures forall i :: 0 <= i < |role.ExistingTargets(ts)| ==> IsTargetOf(role, ts, role.ExistingTargets(ts)[i])
    ensures forall j :: 0 <= j < |ts| && ts[j].to in role.states.entries ==> role.states.entries[ts[j].to] in role.ExistingTargets(ts)
  {
    if ts != [] {
      var entries := role.states.entries;
      var n := |ts| - 1;
      var init := ts[..n];
      ExistingTargetsMembers(role, init);
      var r0 := role.ExistingTargets(init);
      var r := role.ExistingTargets(ts);
      assert r == r0 + (if ts[n].to in entries then [entries[ts[n].to]] else []);
      forall i | 0 <= i < |r|
        ensures IsTargetOf(role, ts, r[i])
      {
        if i < |r0| {
          assert IsTargetOf(role, init, r0[i]);
          var j :| 0 <= j < |init| && init[j].to in entries && r0[i] == entries[init[j].to];
          assert ts[j] == init[j];
        } else {
          assert ts[n].to in entries && r[i] == entries[ts[n].to];
        }
      }
      forall j | 0 <= j < |ts| && ts[j].to in entries
        ensures entries[ts[j].to] in r
      {
        if j < n {
          assert init[j] == ts[j];
        }
      }
    }
  }

  /** The dropped dangling targets split along the transition list, so the kept targets keep their order. */
  lemma {:induction false} ExistingTargetsAppend(role: Role, a: seq<Transition>, b: seq<Transition>)
    ensures role.ExistingTargets(a + b) == role.ExistingTargets(a) + role.ExistingTargets(b)
    decreases |b|
  {
    if b == [] {
      assert a + b == a;
    } else {
      var b' := b[..|b| - 1];
      ExistingTargetsAppend(role, a, b');
      assert (a + b)[..|a + b| - 1] == a + b';
      assert (a + b)[|a + b| - 1] == b[|b| - 1];
    }
  }

  /** `next_state.name == state_name` in `transition_to`: the first of the states with that name, if any. */
  function FirstNamed(candidates: seq<State>, stateName: string): (r: State?)
    ensures r == null <==> forall i :: 0 <= i < |candidates| ==> candidates[i].name != stateName
    ensures r != null ==> exists i :: 0 <= i < |candidates| && candidates[i] == r && r.name == stateName &&
                                     forall j :: 0 <= j < i ==> candidates[j].name != stateName
  {
    if candidates == [] then null
    else if candidates[0].name == stateName then candidates[0]
    else
      var r := FirstNamed(candidates[1..], stateName);
      assert forall i :: 1 <= i < |candidates| ==> candidates[1..][i - 1] == candidates[i];
      r
  }

  /**
    In a well-formed role a named move out of a stored state succeeds exactly
    when one of its transitions targets that name and the role has such a
    state, and it lands on that stored state.
  */
  lemma NamedMove(role: Role, from: string, target: string)
    requires role.WellFormed()
    ensures var r := FirstNamed(role.GetNextStates(from), target);
            r != null <==> from in role.states.entries && target in role.states.entries &&
                           exists j :: 0 <= j < |role.states.entries[from].transitions| &&
                                       role.states.entries[from].transitions[j].to == target
    ensures var r := FirstNamed(role.GetNextStates(from), target);
            r != null ==> r == role.states.entries[target]
  {
    var next := role.GetNextStates(from);
    var r := FirstNamed(next, target);
    if from in role.states.entries {
      var ts := role.states.entries[from].transitions;
      ExistingTargetsMembers(role, ts);
      if r != null {
        var i :| 0 <= i < |next| && next[i] == r && r.name == target;
        assert IsTargetOf(role, ts, next[i]);
        var j :| 0 <= j < |ts| && ts[j].to in role.states.entries && next[i] == role.states.entries[ts[j].to];
        assert role.states.entries[ts[j].to].name == ts[j].to;
      }
      if target in role.states.entries && exists j :: 0 <= j < |ts| && ts[j].to == target {
        var j :| 0 <= j < |ts| && ts[j].to == target;
        assert role.states.entries[target] in next;
        assert role.states.entries[target].name == target;
      }
    }
  }

  /** Every state listed by `values()` is a state of the map. */
  lemma StoredValues(states: Dict<string, State>)
    ensures forall s :: s in Values(states) ==> s in states.entries.Values
  {
    forall s | s in Values(states)
      ensures s in states.entries.Values
    {
      var i :| 0 <= i < |Values(states)| && Values(states)[i] == s;
      assert states.keys[i] in states.entries;
    }
  }

  /** The last state of type "start" in iteration order, or null when there is none. */
  function LastStart(ss: seq<State>): (r: State?)
    ensures r == null <==> forall i :: 0 <= i < |ss| ==> ss[i].stateType != "start"
    ensures r != null ==> r in ss && r.stateType == "start"
  {
    if ss == [] then null
    else if ss[|ss| - 1].stateType == "start" then ss[|ss| - 1]
    else
      var init := ss[..|ss| - 1];
      assert forall i :: 0 <= i < |init| ==> init[i] == ss[i];
      LastStart(init)
  }

  /** Position `i` holds a "start" state and no later position does. */
  ghost predicate IsLastStart(ss: seq<State>, i: int) {
    0 <= i < |ss| && ss[i].stateType == "start" && forall j :: i < j < |ss| ==> ss[j].stateType != "start"
  }

  /** The state chosen is the one at the last "start" position: a later start state replaces an earlier one. */
  lemma {:induction false} LastStartIsLast(ss: seq<State>)
    requires LastStart(ss) != null
    ensures exists i :: IsLastStart(ss, i) && ss[i] == LastStart(ss)
  {
    var n := |ss| - 1;
    if ss[n].stateType == "start" {
      assert IsLastStart(ss, n);
    } else {
      var init := ss[..n];
      LastStartIsLast(init);
      var i :| IsLastStart(init, i) && init[i] == LastStart(init);
      assert forall j :: i < j < n ==> init[j] == ss[j];
      assert IsLastStart(ss, i) && ss[i] == init[i];
    }
  }

  /** Every state of type "end", in iteration order. */
  function EndStatesOf(ss: seq<State>): (r: seq<State>)
    ensures |r| <= |ss|
    ensures forall i :: 0 <= i < |r| ==> r[i].stateType == "end" && r[i] in ss
    ensures forall i :: 0 <= i < |ss| && ss[i].stateType == "end" ==> ss[i] in r
  {
    if ss == [] then []
    else
      var init := EndStatesOf(ss[..|ss| - 1]);
      assert forall i :: 0 <= i < |ss| - 1 ==> ss[..|ss| - 1][i] == ss[i];
      if ss[|ss| - 1].stateType == "end" then init + [ss[|ss| - 1]] else init
  }

  /** End states are collected in order: the selection splits along the state list. */
  lemma {:induction false} EndStatesAppend(a: seq<State>, b: seq<State>)
    ensures EndStatesOf(a + b) == EndStatesOf(a) + EndStatesOf(b)
    decreases |b|
  {
    if b == [] {
      assert a + b == a;
    } else {
      var b' := b[..|b| - 1];
      EndStatesAppend(a, b');
      assert (a + b)[..|a + b| - 1] == a + b';
    }
  }

  /** The loop of `Role.from_template` that picks the initial state and gathers the end states. */
  method SelectInitAndEnd(states: Dict<string, State>) returns (init: State?, ends: seq<State>)
    ensures init == LastStart(Values(states))
    ensures ends == EndStatesOf(Values(states))
  {
    var ss := Values(states);
    init, ends := null, [];
    var i := 0;
    while i < |states.keys|
      invariant 0 <= i <= |states.keys|
      invariant init == LastStart(ss[..i])
      invariant ends == EndStatesOf(ss[..i])
    {
      var state := states.entries[states.keys[i]];
      assert ss[..i + 1][..i] == ss[..i];
      if state.stateType == "start" {
        init := state;
      } else if state.stateType == "end" {
        ends := ends + [state];
      }
      i := i + 1;
    }
    assert ss[..i] == ss;
  }

  /** One entry of the loaded template's `states` list. */
  datatype StateRecord = StateRecord(
    name: string,
    stateType: string,
    transitions: seq<Transition>,
    eventActions: Dict<string, seq<Action>>)

  /** A role template after loading: its `role` block, `states` list and `properties` block. */
  datatype RoleTemplate = RoleTemplate(
    role: map<string, string>,
    states: seq<StateRecord>,
    properties: map<string, map<string, string>>)

  /** `properties.get(event, {}).get("description", "")`. */
  function EventDescription(properties: map<string, map<string, string>>, eventName: string): (r: string)
    ensures eventName in properties && "description" in properties[eventName] ==> r == properties[eventName]["description"]
    ensures !(eventName in properties && "description" in properties[eventName]) ==> r == ""
  {
    if eventName in properties && "description" in properties[eventName] then properties[eventName]["description"] else ""
  }

  /** The `event_actions` map the parser builds for one state: same events in the same order, each given its description. */
  function BuildEvents(eventActions: Dict<string, seq<Action>>, properties: map<string, map<string, string>>): (r: Dict<string, Event>)
    ensures r.keys == eventActions.keys
    ensures forall e :: e in r.entries <==> e in eventActions.entries
    ensures forall e :: e in r.entries ==> r.entries[e] == Event(EventDescription(properties, e), eventActions.entries[e])
  {
    PyDict(eventActions.keys, map e | e in eventActions.entries :: Event(EventDescription(properties, e), eventActions.entries[e]))
  }

  /** The names of the records, each once, in order of first appearance (the key order of the parser's dict). */
  function StateOrder(records: seq<StateRecord>): (r: seq<string>)
    ensures forall k :: k in r <==> exists i :: 0 <= i < |records| && records[i].name == k
  {
    if records == [] then []
    else
      var init := StateOrder(records[..|records| - 1]);
      assert forall i :: 0 <= i < |records| - 1 ==> records[..|records| - 1][i] == records[i];
      var last := records[|records| - 1].name;
      if last in init then init else init + [last]
  }

  /** Record `i` is the first one with that name. */
  ghost predicate IsFirstNamed(records: seq<StateRecord>, stateName: string, i: int) {
    0 <= i < |records| && records[i].name == stateName && forall j :: 0 <= j < i ==> records[j].name != stateName
  }

  /** No name occurs twice. */
  predicate NoRepeats(names: seq<string>) {
    forall a, b :: 0 <= a < b < |names| ==> names[a] != names[b]
  }

  /** Of any two names, the earlier one has the earlier first record. */
  ghost predicate InFirstAppearanceOrder(records: seq<StateRecord>, names: seq<string>) {
    forall a, b, i, j :: 0 <= a < b < |names| && IsFirstNamed(records, names[a], i) && IsFirstNamed(records, names[b], j) ==> i < j
  }

  /** A name already met in a prefix was first met there. */
  lemma FirstInPrefix(records: seq<StateRecord>, n: nat, stateName: string, i: int)
    requires n <= |records| && IsFirstNamed(records, stateName, i)
    requires exists k :: 0 <= k < n && records[k].name == stateName
    ensures i < n && IsFirstNamed(records[..n], stateName, i)
  {
  }

  /**
    The dict's keys come without repetition, and a name comes before another
    exactly when its first record does.
  */
  lemma {:induction false} StateOrderIsFirstAppearance(records: seq<StateRecord>)
    ensures NoRepeats(StateOrder(records))
    ensures InFirstAppearanceOrder(records, StateOrder(records))
  {
    if records != [] {
      var n := |records| - 1;
      var init := records[..n];
      var r0 := StateOrder(init);
      var r := StateOrder(records);
      StateOrderIsFirstAppearance(init);
      assert forall k :: 0 <= k < n ==> init[k] == records[k];
      assert r == if records[n].name in r0 then r0 else r0 + [records[n].name];
      assert forall a :: 0 <= a < |r0| ==> r[a] == r0[a];
      forall a, b | 0 <= a < b < |r|
        ensures r[a] != r[b]
      {
        if b < |r0| {
          assert r0[a] != r0[b];
        } else {
          assert r == r0 + [records[n].name];
          assert r[a] in r0 && r[b] !in r0;
        }
      }
      forall a, b, i, j | 0 <= a < b < |r| && IsFirstNamed(records, r[a], i) && IsFirstNamed(records, r[b], j)
        ensures i < j
      {
        assert r[a] in r0;
        FirstInPrefix(records, n, r[a], i);
        if b < |r0| {
          assert r[b] in r0;
          FirstInPrefix(records, n, r[b], j);
        } else {
          assert r[b] == records[n].name && r[b] !in r0;
          assert forall k :: 0 <= k < n ==> init[k].name != r[b];
        }
      }
    }
  }

  /** The last record with the given name: a later state of the same name replaces an earlier one. */
  function LastNamed(records: seq<StateRecord>, stateName: string): (r: Option<StateRecord>)
    ensures r.None? <==> forall i :: 0 <= i < |records| ==> records[i].name != stateName
    ensures r.Some? ==> r.value.name == stateName
  {
    if records == [] then None
    else if records[|records| - 1].name == stateName then Some(records[|records| - 1])
    else
      var init := records[..|records| - 1];
      assert forall i :: 0 <= i < |init| ==> init[i] == records[i];
      LastNamed(init, stateName)
  }

  /** Record `i` has the name and no later record has it. */
  ghost predicate IsLastNamed(records: seq<StateRecord>, stateName: string, i: int) {
    0 <= i < |records| && records[i].name == stateName && forall j :: i < j < |records| ==> records[j].name != stateName
  }

  /** LastNamed picks a record of that name after which no record has that name. */
  lemma {:induction false} LastNamedIsLast(records: seq<StateRecord>, stateName: string)
    requires LastNamed(records, stateName).Some?
    ensures exists i :: IsLastNamed(records, stateName, i) && records[i] == LastNamed(records, stateName).value
  {
    var n := |records| - 1;
    if records[n].name == stateName {
      assert IsLastNamed(records, stateName, n);
    } else {
      var init := records[..n];
      LastNamedIsLast(init, stateName);
      var i :| IsLastNamed(init, stateName, i) && init[i] == LastNamed(init, stateName).value;
      assert forall j :: i < j < n ==> init[j] == records[j];
      assert IsLastNamed(records, stateName, i) && records[i] == init[i];
    }
  }

  /** The state built from a record, before the description pass. */
  predicate BuiltFrom(s: State, record: StateRecord, properties: map<string, map<string, string>>)
    reads s`status
  {
    && s.name == record.name
    && s.stateType == record.stateType
    && s.transitions == record.transitions
    && s.eventActions == BuildEvents(record.eventActions, properties)
    && s.status == NotStarted
  }

  /** True when every stored state named in the properties has a "description" entry there. */
  predicate DescriptionsPresent(records: seq<StateRecord>, properties: map<string, map<string, string>>) {
    forall i :: 0 <= i < |records| && records[i].name in properties ==> "description" in properties[records[i].name]
  }

  /** `RoleTemplateParser`, given the loaded template in place of its path. */
  class RoleTemplateParser {
    const template: RoleTemplate
    var states: Dict<string, State>
    var properties: map<string, map<string, string>>

    constructor (template: RoleTemplate)
      ensures this.template == template && states.keys == [] && properties == map[]
    {
      this.template := template;
      states := Empty();
      properties := map[];
    }

    /** `get_role_name`: the role block's name, "Unnamed Role" by default. */
    function GetRoleName(): (r: string)
      ensures "name" in template.role ==> r == template.role["name"]
      ensures "name" !in template.role ==> r == "Unnamed Role"
    {
      if "name" in template.role then template.role["name"] else "Unnamed Role"
    }

    /**
      `parse`: one fresh State per record, stored under its name (a later
      record of the same name replaces the earlier one in the first one's
      place), then each state named in the properties takes its description
      from there. A named state whose properties lack "description" raises
      KeyError('description').
    */
    method Parse() returns (r: Outcome<string>)
      requires states.keys == []
      modifies this
      ensures properties == template.properties
      ensures states.keys == StateOrder(template.states)
      ensures forall k :: k in states.entries ==> states.entries[k].name == k && fresh(states.entries[k])
      ensures forall k :: k in states.entries ==>
                LastNamed(template.states, k).Some? && BuiltFrom(states.entries[k], LastNamed(template.states, k).value, properties)
      ensures r.Pass? <==> DescriptionsPresent(template.states, properties)
      ensures r.Fail? ==> r.error == "description"
      ensures r.Pass? ==> forall k :: k in states.entries ==>
                states.entries[k].description == (if k in properties then properties[k]["description"] else "")
    {
      properties := template.properties;
      states := BuildStates(template.states, properties);
      r := ApplyDescriptions(states, properties);
    }
  }

  /** The first loop of `parse`: a fresh State per record, stored under its name. */
  method BuildStates(records: seq<StateRecord>, properties: map<string, map<string, string>>)
    returns (states: Dict<string, State>)
    ensures states.keys == StateOrder(records)
    ensures forall k :: k in states.entries ==>
              states.entries[k].name == k && fresh(states.entries[k]) && states.entries[k].description == ""
    ensures forall k :: k in states.entries ==>
              LastNamed(records, k).Some? && BuiltFrom(states.entries[k], LastNamed(records, k).value, properties)
  {
    states := Empty();
    var i := 0;
    while i < |records|
      invariant 0 <= i <= |records|
      invariant states.keys == StateOrder(records[..i])
      invariant forall k :: k in states.entries ==>
                  states.entries[k].name == k && fresh(states.entries[k]) && states.entries[k].description == ""
      invariant forall k :: k in states.entries ==>
                  LastNamed(records[..i], k).Some? && BuiltFrom(states.entries[k], LastNamed(records[..i], k).value, properties)
    {
      var record := records[i];
      var events := BuildEvents(record.eventActions, properties);
      var s := new State(record.name, record.stateType, "", events, record.transitions);
      assert records[..i + 1][..i] == records[..i];
      states := Put(states, record.name, s);
      i := i + 1;
    }
    assert records[..i] == records;
  }

  /**
    The second loop of `parse`: in key order, each state named in the
    properties takes the description found there; the first such state whose
    properties lack "description" stops the loop with KeyError('description').
  */
  method ApplyDescriptions(states: Dict<string, State>, properties: map<string, map<string, string>>)
    returns (r: Outcome<string>)
    requires forall k :: k in states.entries ==> states.entries[k].name == k
    modifies states.entries.Values`description
    ensures r.Pass? <==> forall k :: k in states.entries && k in properties ==> "description" in properties[k]
    ensures r.Fail? ==> r.error == "description"
    ensures r.Pass? ==> forall k :: k in states.entries ==>
              states.entries[k].description == (if k in properties then properties[k]["description"] else old(states.entries[k].description))
  {
    var j := 0;
    while j < |states.keys|
      invariant 0 <= j <= |states.keys|
      invariant forall q :: 0 <= q < j ==> var k := states.keys[q];
                  (k in properties ==> "description" in properties[k]) &&
                  states.entries[k].description == (if k in properties then properties[k]["description"] else old(states.entries[k].description))
      invariant forall q :: j <= q < |states.keys| ==>
                  states.entries[states.keys[q]].description == old(states.entries[states.keys[q]].description)
    {
      var k := states.keys[j];
      if k in properties {
        if "description" !in properties[k] {
          return Fail("description");
        }
        states.entries[k].description := properties[k]["description"];
      }
      j := j + 1;
    }
    r := Pass;
  }

  /**
    `Role.from_template` after loading: parse, then take the role name, the
    parsed states, the last "start" state as initial state and every "end"
    state, in map order, as end states.
  */
  method RoleFromTemplate(template: RoleTemplate) returns (r: Result<Role, string>)
    ensures r.Failure? <==> !DescriptionsPresent(template.states, template.properties)
    ensures r.Failure? ==> r.error == "description"
    ensures r.Success? ==> r.value.WellFormed()
    ensures r.Success? ==> r.value.name == (if "name" in template.role then template.role["name"] else "Unnamed Role")
    ensures r.Success? ==> r.value.states.keys == StateOrder(template.states)
    ensures r.Success? ==> r.value.initState == LastStart(Values(r.value.states))
    ensures r.Success? ==> r.value.endStates == EndStatesOf(Values(r.value.states))
    ensures r.Success? ==> forall k :: k in r.value.states.entries ==> fresh(r.value.states.entries[k])
    ensures r.Success? ==> forall k :: k in r.value.states.entries ==>
              && r.value.states.entries[k].name == k
              && LastNamed(template.states, k).Some?
              && BuiltFrom(r.value.states.entries[k], LastNamed(template.states, k).value, template.properties)
              && r.value.states.entries[k].description ==
                   (if k in template.properties then template.properties[k]["description"] else "")
  {
    var parser := new RoleTemplateParser(template);
    var parsed := parser.Parse();
    if parsed.Fail? {
      return Failure(parsed.error);
    }
    var roleName := parser.GetRoleName();
    var states := parser.states;
    var init, ends := SelectInitAndEnd(states);
    var role := MakeRole(roleName, states, init, Some(ends));
    StoredValues(states);
    r := Success(role);
  }
}
