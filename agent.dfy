/**
  The agent (src/core/entity/agent.py): it follows its role's state machine,
  moving on construction along the cheapest unconditional transition and,
  after each turn, along the most preferred transition conditioned on the
  detected event. Intent detection and the action handlers are oracles
  passed in as functions.
*/
module Agents {
  import opened Wrappers
  import opened Dicts
  import opened States
  import opened Roles
  import opened Responses
  import Registry
  import Text

  /** Why `_init_agent` rejects a role, or None when it accepts it. */
  function InitError(role: Role): (r: Option<string>)
    ensures r == Some("Role does not have an initial state") <==> role.initState == null
    ensures r == Some("Role's initial state is not a start state") <==>
            role.initState != null && role.initState.stateType != "start"
    ensures r.None? <==> role.initState != null && role.initState.stateType == "start"
  {
    if role.initState == null then Some("Role does not have an initial state")
    else if role.initState.stateType != "start" then Some("Role's initial state is not a start state")
    else None
  }

  /** Transition `j` is the one `min` picks: auto-advance, lowest priority, first on a tie. */
  ghost predicate FirstLowest(ts: seq<Transition>, j: int) {
    && 0 <= j < |ts|
    && IsAutoAdvance(ts[j])
    && (forall k :: 0 <= k < |ts| && IsAutoAdvance(ts[k]) ==> ts[j].priority <= ts[k].priority)
    && (forall k :: 0 <= k < j && IsAutoAdvance(ts[k]) ==> ts[k].priority > ts[j].priority)
  }

  /** Transition `j` is the one `max` picks: conditioned on the event, highest priority, first on a tie. */
  ghost predicate FirstHighest(ts: seq<Transition>, eventName: string, j: int) {
    && 0 <= j < |ts|
    && MatchesEvent(ts[j], eventName)
    && (forall k :: 0 <= k < |ts| && MatchesEvent(ts[k], eventName) ==> ts[k].priority <= ts[j].priority)
    && (forall k :: 0 <= k < j && MatchesEvent(ts[k], eventName) ==> ts[k].priority < ts[j].priority)
  }

  /** The index `max` picks is the only one meeting FirstHighest. */
  lemma HighestIsChosen(ts: seq<Transition>, eventName: string, j: int)
    requires FirstHighest(ts, eventName, j)
    ensures HighestMatching(ts, eventName) == Some(j)
  {
    var i := HighestMatching(ts, eventName).value;
    assert !(i < j) && !(j < i);
  }

  /**
    Where `_init_agent` leaves the agent after accepting `init`: the target of
    the chosen auto-advance transition when the role has that state, else
    `init` itself.
  */
  function AutoAdvance(role: Role, init: State): (r: State)
    ensures (forall j :: 0 <= j < |init.transitions| ==> !IsAutoAdvance(init.transitions[j])) ==> r == init
    ensures forall j :: FirstLowest(init.transitions, j) ==>
              r == (if init.transitions[j].to in role.states.entries then role.states.entries[init.transitions[j].to] else init)
  {
    match LowestAutoAdvance(init.transitions)
    case None => init
    case Some(i) =>
      var next := role.GetState(init.transitions[i].to);
      if next != null then next else init
  }

  /**
    Where `transition_to(target)` leaves an agent in state `s`: the first next
    state with that name, or `s` when there is none.
  */
  function MoveByName(role: Role, s: State, target: string): (r: State)
    ensures r != s ==> r.name == target && r in role.GetNextStates(s.name)
  {
    var t := FirstNamed(role.GetNextStates(s.name), target);
    if t == null then s else t
  }

  /**
    Where `transit_to_next_state` leaves an agent in state `s`: the move by name
    towards the target of the chosen transition.
  */
  function NextOnEvent(role: Role, s: State, eventName: string): (r: State)
    ensures (forall j :: 0 <= j < |s.transitions| ==> !MatchesEvent(s.transitions[j], eventName)) ==> r == s
    ensures forall j :: FirstHighest(s.transitions, eventName, j) ==> r == MoveByName(role, s, s.transitions[j].to)
  {
    assert forall j :: FirstHighest(s.transitions, eventName, j) ==> HighestMatching(s.transitions, eventName) == Some(j) by {
      forall j | FirstHighest(s.transitions, eventName, j)
        ensures HighestMatching(s.transitions, eventName) == Some(j)
      {
        HighestIsChosen(s.transitions, eventName, j);
      }
    }
    match HighestMatching(s.transitions, eventName)
    case None => s
    case Some(i) => MoveByName(role, s, s.transitions[i].to)
  }

  /**
    For a state stored in a well-formed role under its own name, the event
    moves the agent to the chosen transition's target when the role has it,
    and leaves it in place otherwise.
  */
  lemma NextOnEventStored(role: Role, s: State, eventName: string)
    requires role.WellFormed() && s.name in role.states.entries && role.states.entries[s.name] == s
    ensures (forall j :: 0 <= j < |s.transitions| ==> !MatchesEvent(s.transitions[j], eventName)) ==>
            NextOnEvent(role, s, eventName) == s
    ensures forall j :: FirstHighest(s.transitions, eventName, j) ==>
              NextOnEvent(role, s, eventName) ==
              (if s.transitions[j].to in role.states.entries then role.states.entries[s.transitions[j].to] else s)
  {
    forall j | FirstHighest(s.transitions, eventName, j)
      ensures NextOnEvent(role, s, eventName) ==
              (if s.transitions[j].to in role.states.entries then role.states.entries[s.transitions[j].to] else s)
    {
      NamedMove(role, s.name, s.transitions[j].to);
    }
  }

  /** What the turn hands to intent detection, `args` in `interact`. */
  datatype DetectionRequest = DetectionRequest(
    agentName: string,
    agentDescription: string,
    agentGoal: string,
    currentState: string,
    rawQuery: string,
    eventList: string)

  /** What calling a handler does: it returns its text or raises with a message. */
  datatype Invocation = Returned(text: string) | Raised(error: string)

  /** What a turn reaches when nothing raises: the detected event and the handlers' texts in order. */
  datatype Turn = Turn(event: string, texts: seq<string>)

  /**
    The dict `filter_pre_authorized_actions` fills: for each authorised
    action, in order, its handler from the scope when the scope has it.
  */
  function Authorize<H>(actions: seq<Action>, scope: map<string, H>): (r: Dict<string, H>)
    ensures forall k :: k in r.entries <==> k in scope && k in ActionNames(actions)
    ensures forall k :: k in r.entries ==> r.entries[k] == scope[k]
  {
    if actions == [] then Empty()
    else
      var n := |actions| - 1;
      var d := Authorize(actions[..n], scope);
      ActionNamesSnoc(actions);
      if actions[n].name in scope then Put(d, actions[n].name, scope[actions[n].name]) else d
  }

  lemma ActionNamesSnoc(actions: seq<Action>)
    requires actions != []
    ensures ActionNames(actions) == ActionNames(actions[..|actions| - 1]) + [actions[|actions| - 1].name]
  {
  }

  /** Every authorised key is the name of one of the listed actions. */
  lemma AuthorizedKeyNamed<H>(actions: seq<Action>, scope: map<string, H>, a: nat)
    requires a < |Authorize(actions, scope).keys|
    ensures exists i :: 0 <= i < |actions| && actions[i].name == Authorize(actions, scope).keys[a]
  {
    var d := Authorize(actions, scope);
    assert d.keys[a] in d.entries;
    assert d.keys[a] in ActionNames(actions);
  }

  /** One more listed action adds at most its own name, after the keys already there. */
  lemma AuthorizeExtends<H>(actions: seq<Action>, scope: map<string, H>)
    requires actions != []
    ensures var d := Authorize(actions[..|actions| - 1], scope);
            var keys := Authorize(actions, scope).keys;
            && |d.keys| <= |keys| <= |d.keys| + 1
            && keys[..|d.keys|] == d.keys
            && (|keys| == |d.keys| + 1 ==> keys[|d.keys|] == actions[|actions| - 1].name)
  {
  }

  /** The authorised handlers keep the order in which the state lists their actions. */
  lemma {:induction false} AuthorizeOrder<H>(actions: seq<Action>, scope: map<string, H>, a: nat, b: nat)
    requires a < b < |Authorize(actions, scope).keys|
    ensures exists i, j :: 0 <= i < j < |actions| &&
                           actions[i].name == Authorize(actions, scope).keys[a] &&
                           actions[j].name == Authorize(actions, scope).keys[b]
  {
    var n := |actions| - 1;
    var init := actions[..n];
    var d := Authorize(init, scope);
    var keys := Authorize(actions, scope).keys;
    AuthorizeExtends(actions, scope);
    assert keys[a] == d.keys[a];
    if b < |d.keys| {
      assert keys[b] == d.keys[b];
      AuthorizeOrder(init, scope, a, b);
      var i, j :| 0 <= i < j < n && init[i].name == d.keys[a] && init[j].name == d.keys[b];
      assert actions[i] == init[i] && actions[j] == init[j];
    } else {
      AuthorizedKeyNamed(init, scope, a);
      var i :| 0 <= i < n && init[i].name == d.keys[a];
      assert actions[i] == init[i];
    }
  }

  /**
    `filter_pre_authorized_actions` on the state the agent is in: the failing
    attribute accesses of the source become errors.
  */
  function AuthorizedActions<H>(current: State?, eventName: string, scope: map<string, H>): (r: Result<Dict<string, H>, string>)
    ensures current == null ==> r == Failure("'NoneType' object has no attribute 'event_actions'")
    ensures current != null && eventName !in current.eventActions.entries ==>
            r == Failure("'list' object has no attribute 'actions'")
    ensures r.Success? ==> current != null && eventName in current.eventActions.entries
    ensures r.Success? ==> forall k :: k in r.value.entries <==> k in scope && k in ActionNames(current.GetActionsForEvent(eventName))
    ensures r.Success? ==> forall k :: k in r.value.entries ==> r.value.entries[k] == scope[k]
  {
    if current == null then Failure("'NoneType' object has no attribute 'event_actions'")
    else match Get(current.eventActions, eventName)
      case None => Failure("'list' object has no attribute 'actions'")
      case Some(event) => Success(Authorize(event.actions, scope))
  }

  /** Calling the handlers in order: the first one that raises ends the run with its error. */
  function RunAll<H>(handlers: seq<H>, invoke: H -> Invocation): (r: Result<seq<string>, string>)
    ensures r.Success? <==> forall i :: 0 <= i < |handlers| ==> invoke(handlers[i]).Returned?
    ensures r.Success? ==> |r.value| == |handlers| &&
                           forall i :: 0 <= i < |handlers| ==> r.value[i] == invoke(handlers[i]).text
  {
    if handlers == [] then Success([])
    else
      var n := |handlers| - 1;
      match RunAll(handlers[..n], invoke)
      case Failure(e) => Failure(e)
      case Success(texts) =>
        match invoke(handlers[n])
        case Raised(e) => Failure(e)
        case Returned(t) => Success(texts + [t])
  }

  /** The error of a failed run is the one raised by the first handler that raises. */
  lemma {:induction false} RunAllFirstFailure<H>(handlers: seq<H>, invoke: H -> Invocation, i: nat)
    requires i < |handlers| && invoke(handlers[i]).Raised?
    requires forall j :: 0 <= j < i ==> invoke(handlers[j]).Returned?
    ensures RunAll(handlers, invoke) == Failure(invoke(handlers[i]).error)
  {
    var n := |handlers| - 1;
    if i < n {
      assert handlers[..n][i] == handlers[i];
      RunAllFirstFailure(handlers[..n], invoke, i);
    } else {
      assert forall j :: 0 <= j < n ==> handlers[..n][j] == handlers[j];
    }
  }

  /** Calls the handlers one after another and collects their texts, stopping at the first that raises. */
  method RunHandlers<H>(handlers: seq<H>, invoke: H -> Invocation) returns (r: Result<seq<string>, string>)
    ensures r == RunAll(handlers, invoke)
  {
    var responses: seq<string> := [];
    var i := 0;
    while i < |handlers|
      invariant 0 <= i <= |handlers|
      invariant RunAll(handlers[..i], invoke) == Success(responses)
    {
      var outcome := invoke(handlers[i]);
      if outcome.Raised? {
        assert forall j :: 0 <= j < i ==> handlers[..i][j] == handlers[j];
        RunAllFirstFailure(handlers, invoke, i);
        return Failure(outcome.error);
      }
      assert handlers[..i + 1][..i] == handlers[..i];
      responses := responses + [outcome.text];
      i := i + 1;
    }
    assert handlers[..i] == handlers;
    r := Success(responses);
  }

  /** The reply `interact` builds from the turn's outcome. */
  function ResponseFor(plan: Result<Turn, string>): (r: AgentResponse)
    ensures r.success <==> plan.Success?
    ensures plan.Success? ==> r.error == None && r.message == Text.Join(plan.value.texts, "; ")
    ensures plan.Failure? ==> r.message == "An error occurred during interaction." && r.error == Some(plan.error)
  {
    match plan
    case Success(turn) => AgentResponse(Text.Join(turn.texts, "; "), true)
    case Failure(e) => AgentResponse("An error occurred during interaction.", false, Some(e))
  }

  /** `Agent`: the current state and the engagement id are the fields that change. */
  class Agent {
    const name: string
    const description: string
    const goal: string
    const role: Role
    var currentState: State?
    var engagementId: Option<string>

    /** The field assignments of `__init__`; `_init_agent` follows, see Create. */
    constructor (goal: string, agentName: string, description: string, role: Role, engagementId: Option<string> := None)
      ensures this.goal == goal && name == agentName && this.description == description && this.role == role
      ensures currentState == null && this.engagementId == engagementId
    {
      this.goal := goal;
      name := agentName;
      this.description := description;
      this.role := role;
      currentState := null;
      this.engagementId := engagementId;
    }

    /** `Agent(...)`: construct, then run `_init_agent`, whose ValueError becomes a failure. */
    static method Create(goal: string, agentName: string, description: string, role: Role,
                         engagementId: Option<string> := None)
      returns (r: Result<Agent, string>)
      ensures r.Failure? <==> InitError(role).Some?
      ensures r.Failure? ==> r.error == InitError(role).value
      ensures r.Success? ==> fresh(r.value) && r.value.role == role && r.value.name == agentName
      ensures r.Success? ==> r.value.goal == goal && r.value.description == description && r.value.engagementId == engagementId
      ensures r.Success? ==> role.initState != null && r.value.currentState == AutoAdvance(role, role.initState)
    {
      var agent := new Agent(goal, agentName, description, role, engagementId);
      var init := agent.InitAgent();
      if init.Fail? {
        return Failure(init.error);
      }
      r := Success(agent);
    }

    /** `_init_agent`: take the role's initial state, check it, then auto-advance once. */
    method InitAgent() returns (r: Outcome<string>)
      modifies this`currentState
      ensures r.Fail? <==> InitError(role).Some?
      ensures r.Fail? ==> r.error == InitError(role).value && currentState == role.initState
      ensures r.Pass? ==> role.initState != null && currentState == AutoAdvance(role, role.initState)
    {
      currentState := role.initState;
      if currentState == null {
        return Fail("Role does not have an initial state");
      }
      if currentState.stateType != "start" {
        return Fail("Role's initial state is not a start state");
      }
      var transitions := currentState.transitions;
      match LowestAutoAdvance(transitions) {
        case None =>
        case Some(i) =>
          var next := role.GetState(transitions[i].to);
          if next != null {
            currentState := next;
          }
      }
      r := Pass;
    }

    /** `set_state`. */
    method SetState(state: State?)
      modifies this`currentState
      ensures currentState == state
    {
      currentState := state;
    }

    /**
      `transition_to`: move to the first next state with that name; without a
      current state, or without such a next state, stay put and report false.
    */
    method TransitionTo(stateName: string) returns (moved: bool)
      modifies this`currentState
      ensures old(currentState) == null ==> !moved
      ensures old(currentState) != null ==>
                (moved <==> FirstNamed(role.GetNextStates(old(currentState).name), stateName) != null) &&
                currentState == MoveByName(role, old(currentState), stateName)
      ensures !moved ==> currentState == old(currentState)
    {
      if currentState == null {
        return false;
      }
      var nextStates := role.GetNextStates(currentState.name);
      var i := 0;
      while i < |nextStates|
        invariant 0 <= i <= |nextStates|
        invariant forall j :: 0 <= j < i ==> nextStates[j].name != stateName
        invariant currentState == old(currentState)
      {
        if nextStates[i].name == stateName {
          ghost var target := FirstNamed(nextStates, stateName);
          assert target != null;
          currentState := nextStates[i];
          return true;
        }
        i := i + 1;
      }
      moved := false;
    }

    /**
      `transit_to_next_state`: follow the chosen transition conditioned on the
      event, by name; reading the transitions of no state raises.
    */
    method TransitToNextState(eventName: string) returns (r: Outcome<string>)
      modifies this`currentState
      ensures old(currentState) == null ==>
                r == Fail("'NoneType' object has no attribute 'get_transitions'") && currentState == null
      ensures old(currentState) != null ==> r.Pass? && currentState == NextOnEvent(role, old(currentState), eventName)
    {
      if currentState == null {
        return Fail("'NoneType' object has no attribute 'get_transitions'");
      }
      var transitions := currentState.transitions;
      if transitions != [] {
        match HighestMatching(transitions, eventName) {
          case None =>
          case Some(i) =>
            var _ := TransitionTo(transitions[i].to);
        }
      }
      r := Pass;
    }

    /** `filter_pre_authorized_actions`, with the scope's actions taken from the registry. */
    method FilterPreAuthorizedActions<H>(eventName: string, registry: Registry.EventActionRegistry<H>)
      returns (r: Result<Dict<string, H>, string>)
      ensures r == AuthorizedActions(currentState, eventName, registry.ActionsInScope(eventName))
    {
      var actions := registry.ActionsInScope(eventName);
      if currentState == null {
        return Failure("'NoneType' object has no attribute 'event_actions'");
      }
      var found := Get(currentState.eventActions, eventName);
      if found.None? {
        return Failure("'list' object has no attribute 'actions'");
      }
      var authorised := found.value.actions;
      var filtered: Dict<string, H> := Empty();
      var i := 0;
      while i < |authorised|
        invariant 0 <= i <= |authorised|
        invariant filtered == Authorize(authorised[..i], actions)
      {
        var config := authorised[i];
        assert authorised[..i + 1][..i] == authorised[..i];
        if config.name in actions {
          filtered := Put(filtered, config.name, actions[config.name]);
        }
        i := i + 1;
      }
      assert authorised[..i] == authorised;
      r := Success(filtered);
    }

    /**
      The outcome of one turn, read in the state the turn starts from: the
      detection request, the authorised handlers and their texts, or the
      first error raised on the way.
    */
    function Plan<H>(query: string, detect: DetectionRequest -> Result<string, string>,
                     registry: Registry.EventActionRegistry<H>, invoke: H -> Invocation): (r: Result<Turn, string>)
      reads this, currentState, registry
      ensures currentState == null ==> r.Failure?
      ensures r.Success? ==> currentState != null && r.value.event in currentState.eventActions.entries
    {
      if currentState == null then Failure("'NoneType' object has no attribute 'get_formatted_current_state'")
      else
        var request := DetectionRequest(name, description, goal, currentState.FormattedCurrentState(), query,
                                        EventListText(currentState.eventActions));
        match detect(request)
        case Failure(e) => Failure(e)
        case Success(eventName) =>
          match AuthorizedActions(currentState, eventName, registry.ActionsInScope(eventName))
          case Failure(e) => Failure(e)
          case Success(filtered) =>
            match RunAll(Values(filtered), invoke)
            case Failure(e) => Failure(e)
            case Success(texts) => Success(Turn(eventName, texts))
    }

    /**
      The work of a turn, none of which changes anything: render the current
      state and its events, detect the event, filter the authorised handlers
      and run them in order, stopping at the first error raised.
    */
    method RunTurn<H>(query: string, detect: DetectionRequest -> Result<string, string>,
                      registry: Registry.EventActionRegistry<H>, invoke: H -> Invocation)
      returns (r: Result<Turn, string>)
      ensures r == Plan(query, detect, registry, invoke)
    {
      if currentState == null {
        return Failure("'NoneType' object has no attribute 'get_formatted_current_state'");
      }
      var current := currentState;
      var stateText := current.FormattedCurrentState();
      var eventList := current.FormattedEventList();
      var detected := detect(DetectionRequest(name, description, goal, stateText, query, eventList));
      if detected.Failure? {
        return Failure(detected.error);
      }
      var eventName := detected.value;
      var filtered := FilterPreAuthorizedActions(eventName, registry);
      if filtered.Failure? {
        return Failure(filtered.error);
      }
      var texts := RunHandlers(Values(filtered.value), invoke);
      if texts.Failure? {
        return Failure(texts.error);
      }
      r := Success(Turn(eventName, texts.value));
    }

    /**
      `interact`: one turn that never raises. On success the state the turn
      started in is marked completed before the event's transition is taken;
      on failure nothing changes and the reply carries the error.
    */
    method Interact<H>(query: string, detect: DetectionRequest -> Result<string, string>,
                       registry: Registry.EventActionRegistry<H>, invoke: H -> Invocation)
      returns (resp: AgentResponse)
      modifies this`currentState, currentState
      ensures resp == ResponseFor(old(Plan(query, detect, registry, invoke)))
      ensures old(currentState) != null ==> old(currentState).description == old(currentState.description)
      ensures old(Plan(query, detect, registry, invoke)).Failure? ==>
                currentState == old(currentState) && (currentState != null ==> currentState.status == old(currentState.status))
      ensures old(Plan(query, detect, registry, invoke)).Success? ==>
                old(currentState) != null && old(currentState).status == Completed &&
                currentState == NextOnEvent(role, old(currentState), old(Plan(query, detect, registry, invoke)).value.event)
    {
      var plan := RunTurn(query, detect, registry, invoke);
      if plan.Failure? {
        return ResponseFor(plan);
      }
      var current := currentState;
      current.MarkCompleted();
      var _ := TransitToNextState(plan.value.event);
      resp := AgentResponse(Text.Join(plan.value.texts, "; "), true);
    }

    /**
      `is_in_end_state`: Python's `in` on a list compares with `==`, which for
      the State dataclass is field-by-field equality.
    */
    predicate IsInEndState(): (r: bool)
      reads this, currentState, set i | 0 <= i < |role.endStates| :: role.endStates[i]
      ensures currentState == null ==> !r
      ensures currentState != null && currentState in role.endStates ==> r
    {
      currentState != null && exists i :: 0 <= i < |role.endStates| && currentState.SameValue(role.endStates[i])
    }

    /**
      In a well-formed role no two states share a name, so for a state of the
      role the value comparison agrees with membership of the end-state list.
    */
    lemma EndStateMembership()
      requires role.WellFormed() && currentState != null && currentState in role.states.entries.Values
      ensures IsInEndState() <==> currentState in role.endStates
    {
      var entries := role.states.entries;
      var k :| k in entries && entries[k] == currentState;
      if IsInEndState() {
        var i :| 0 <= i < |role.endStates| && currentState.SameValue(role.endStates[i]);
        var e := role.endStates[i];
        var k' :| k' in entries && entries[k'] == e;
        assert k == currentState.name == e.name == k';
      }
      if currentState in role.endStates {
        var i :| 0 <= i < |role.endStates| && role.endStates[i] == currentState;
        assert currentState.SameValue(role.endStates[i]);
      }
    }
  }
}
