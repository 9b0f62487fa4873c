# MRKL agent: a verified model of the state-machine core

This project models the core of MRKL_agent, a conversational agent driven by a
state machine, and proves properties of that model in Dafny.

- **Roles and states.** A *role* is a set of named *states*. Each state maps
  recognised *events* to the *actions* authorised for them. It also lists
  prioritised *transitions* to other states and carries a status (not started,
  in progress, completed).
- **The agent.** An *agent* follows its role:
  - On construction it starts in the role's initial state, which must exist and
    be of type "start".
  - It then advances once along the lowest-priority unconditional transition.
  - In each *turn* it detects an event in the user's query and runs the
    handlers that are both authorised for that event in the current state and
    registered in the event's scope.
  - After a successful turn it marks the state completed and follows the
    highest-priority transition conditioned on the event.
  - A turn never raises. Any error becomes a failed response.
- **Stores.** Around the agent sit five keyed in-memory stores:
  - the scoped action registry;
  - the engagement store (agent, target and interaction history per
    engagement id);
  - the (event, action) status cache;
  - the prompt-template store, with `str.format` filling;
  - the target's storage list.
- **Schema serialiser.** `function_to_json` builds the JSON schema of a
  function for tool calling.

## Modelling conventions

**Representation**
- One module per source file: `States`, `Roles`, `Agents`, `Registry`,
  `Engagements`, `MemoryCache`, `Prompts`, `Targets`, `Responses`, `Tools`.
- Three shared modules support them:
  - `Wrappers`: Option, Result, and Outcome (pass or fail).
  - `Dicts`: Python's insertion-ordered `dict` as a key sequence plus a map.
  - `Text`: `strip`, `join` and decimal rendering.
- An object whose fields the source assigns after construction is a `class`:
  - `State` (status, description);
  - `Agent` (current state, engagement id);
  - the registry, the cache, the engagement store, the prompt service, the
    target and the role-template parser.
- Records that are never mutated are datatypes: `Role`, `Transition`,
  `Action`, `Event`, `AgentResponse` and the engagement context.
- A raised exception becomes a `Failure`/`Fail` value carrying the argument
  the exception was raised with: `KeyError('description')` is recorded as
  "description", and `KeyError(f"Prompt template not found: {name}")` as that
  message. Where the source itself turns an exception into text (`str(e)` in
  `interact`, the f-string that re-raises a formatting KeyError), that text is
  what is modelled. The source's `None` becomes `None` or `null`.

**Oracles and parameters**
- Intent detection is a function `DetectionRequest -> Result<string, string>`.
  The request holds the six arguments `interact` assembles.
- Calling a handler is a function from the handler to `Returned(text)` or
  `Raised(error)`.
- Handlers and task statuses are opaque type parameters.
- The engagement id that `uuid4` would produce is a parameter, and it must be
  absent from the store.
- A directory listing is a parameter: `None` for a directory that does not
  exist, otherwise the files with their already-parsed YAML content.

**Behaviour modelled as the code has it**
- An exception raised by one handler aborts the whole turn. The turn's
  response is then a failure, not a partial result.
- An event that intent detection returns but the current state does not list
  makes the filter read `.actions` from the default `[]`. The turn fails with
  the error `'list' object has no attribute 'actions'`.
- `interact` with no current state fails with the `AttributeError` text of its
  first attribute access.
- The agent reads the actions of a scope with `get_actions_from_scope`, which
  the registry class does not define. The model reads the scope's inner map,
  or an empty map for an unknown scope (`ActionsInScope`).
- `TaskStatus` is imported from a module that does not define it. It is an
  opaque type parameter of the cache.

## Model

| member | source | states |
|---|---|---|
| Dicts.Put | src/core/entity/agent.py:227-230 | assigning a key sets its value; a new key goes to the end of the key order, an existing key keeps its place |
| Dicts.Values | src/core/entity/agent.py:184 | the values are listed in key-insertion order, one per key |
| Dicts.PutNested | src/service/event_action_registry.py:41-43 | `m[outer][inner] = v` after creating a missing inner dict: that pair maps to v, the outer keys grow by at most `outer`, and every other pair keeps its presence and value |
| Text.StripLeft | src/core/entity/state.py:105 | the result is a suffix, everything removed is whitespace, and the result does not start with whitespace |
| Text.StripRight | src/core/entity/state.py:105 | the result is a prefix, everything removed is whitespace, and the result does not end with whitespace |
| Text.Join | src/core/entity/agent.py:195 | joining no parts gives "", and joining one part gives that part |
| Text.JoinSnoc | src/core/entity/agent.py:195 | joining one more part appends the separator and that part, so the parts appear in order, separated once each |
| Text.DecimalString | src/core/entity/state.py:103 | a non-empty string of decimal digits with no leading zero |
| Text.DecimalStringValue | src/core/entity/state.py:103 | the digits denote the number: read back in base ten they give n |
| States.DataclassDefaults | src/core/entity/state.py:19-29 | a Transition defaults to no condition and priority 0; an Action's description defaults to None |
| States.MatchesEvent | src/core/entity/agent.py:233-247 | `_check_condition`: a transition without a condition matches no event, and a matching transition's condition is the event name |
| States.MatchesOneEvent | src/core/entity/agent.py:233-247 | a transition matches at most one event name |
| States.LowestAutoAdvance | src/core/entity/agent.py:139-145 | none exactly when no transition is unconditional with positive priority; otherwise an index of such a transition with minimal priority, and no earlier one has that priority (Python's `min` keeps the first minimum) |
| States.HighestMatching | src/core/entity/agent.py:210-215 | none exactly when no transition's condition equals the event name; otherwise an index of such a transition with maximal priority, and no earlier one has that priority |
| States.EventLines | src/core/entity/state.py:100-104 | the k-th event in map order gives the line "k. Event: name, Description: description" followed by a newline |
| States.EmptyEventList | src/core/entity/state.py:94-105 | a state with no events formats its event list as "" |
| States.EventListStartsWithFirst | src/core/entity/state.py:100-105 | with at least one event, the stripped text still starts with "1. Event: <first event>, Description:" |
| States.State.constructor | src/core/entity/state.py:51-72 | every field takes its argument; the status defaults to NotStarted |
| States.State.GetActionsForEvent | src/core/entity/state.py:74-84 | the event's actions in their listed order, or [] for an event the state does not list |
| States.State.UpdateStatus | src/core/entity/state.py:86-92 | the status becomes exactly the new value and no other field changes |
| States.State.MarkCompleted | src/core/entity/state.py:111-113 | the status becomes Completed and no other field changes |
| States.State.FormattedCurrentState | src/core/entity/state.py:107-109 | the text is exactly "State Name: <name>, Description: <description>" |
| States.State.SameValue | src/core/entity/state.py:40-49 | the dataclass `==`: a state equals itself, and equal states agree on name and status |
| States.State.FormattedEventList | src/core/entity/state.py:94-105 | the loop's accumulated text, once stripped, is the stripped concatenation of the numbered event lines |
| Roles.Role.GetState | src/core/entity/role.py:81-90 | the state stored under the name, or null exactly when the name is unknown |
| Roles.Role.GetNextStates | src/core/entity/role.py:92-111 | [] for an unknown state; otherwise the existing targets of its transitions |
| Roles.ExistingTargetsMembers | src/core/entity/role.py:105-111 | every next state is the stored target of some transition, and every transition whose target exists contributes that stored state; dangling targets are dropped |
| Roles.ExistingTargetsAppend | src/core/entity/role.py:105-111 | the next states of concatenated transition lists are the concatenation of their next states, so transition order is kept |
| Roles.Role.GetEventDescription | src/core/entity/role.py:113-128 | None exactly when the state is unknown or does not list the event; otherwise that event's description |
| Roles.MakeRole | src/core/entity/role.py:22-33 | name, states and initial state are stored as given; missing end states become [] |
| Roles.FirstNamed | src/core/entity/agent.py:113-117 | null exactly when no candidate has the name; otherwise the first candidate with that name |
| Roles.NamedMove | src/core/entity/agent.py:113-117 | in a well-formed role, a move by name out of a stored state succeeds exactly when one of its transitions targets that name and the role has that state; the move lands on the stored state |
| Roles.LastStart | src/core/entity/role.py:52-57 | null exactly when no state has type "start"; otherwise one of the states, of type "start" |
| Roles.LastStartIsLast | src/core/entity/role.py:55-57 | the chosen initial state is at the last "start" position in iteration order: a later start state replaces an earlier one |
| Roles.EndStatesOf | src/core/entity/role.py:55-59 | the end states are states of type "end" from the map, and every state of type "end" is among them |
| Roles.EndStatesAppend | src/core/entity/role.py:55-59 | end-state selection distributes over concatenation, so the end states keep map order |
| Roles.SelectInitAndEnd | src/core/entity/role.py:52-59 | the single loop over `states.values()` yields exactly the last start state and the end states in map order |
| Roles.EventDescription | src/core/entity/role.py:160-162 | the properties' "description" for the event when both are present, else "" |
| Roles.BuildEvents | src/core/entity/role.py:156-165 | the same events in the same order, each with the parsed actions and its description from the properties |
| Roles.StateOrder | src/core/entity/role.py:175 | the key order of the parser's dict contains exactly the record names |
| Roles.StateOrderIsFirstAppearance | src/core/entity/role.py:150-175 | the keys have no repeats, and of two keys the earlier one is the one whose first record comes first |
| Roles.LastNamed | src/core/entity/role.py:175 | none exactly when no record has the name; otherwise a record of that name |
| Roles.LastNamedIsLast | src/core/entity/role.py:150-175 | the record kept under a name is the last record with that name |
| Roles.RoleTemplateParser.constructor | src/core/entity/role.py:134-139 | the parser starts with no states and no properties |
| Roles.RoleTemplateParser.GetRoleName | src/core/entity/role.py:194-197 | the role block's name, or "Unnamed Role" when it has none |
| Roles.RoleTemplateParser.Parse | src/core/entity/role.py:141-180 | one fresh state per name, built from the last record of that name in first-appearance order; each state named in the properties takes its description from there, and a missing "description" is KeyError('description'), recorded as "description" |
| Roles.BuildStates | src/core/entity/role.py:150-175 | the first loop of the parser: fresh states with empty descriptions, keyed by name, in first-appearance order, each built from the last record of its name |
| Roles.ApplyDescriptions | src/core/entity/role.py:177-180 | the second loop of the parser: succeeds exactly when every state named in the properties has a "description"; on success those states take it and the others keep theirs |
| Roles.RoleFromTemplate | src/core/entity/role.py:45-63 | on success the role is well formed, its keys are the state names in first-appearance order, each state is fresh and built from the last record of its name (not started, with its description from the properties or ""), the initial state is the last start state and the end states are in map order; it fails with the parser's KeyError exactly when a "description" is missing |
| Responses.AgentResponse.ToString | src/core/entity/response.py:19-27 | with a non-empty error the text is "Error: " followed by the error; otherwise it is the message |
| Responses.DefaultResponse | src/core/entity/response.py:7-17 | by default a response is a success with no error and renders as its message |
| Responses.ErrorRendering | src/core/entity/response.py:19-27 | a response with a non-empty error never renders as the bare error text |
| Registry.Unregistered | src/service/event_action_registry.py:70-74 | removing a registered pair removes exactly that pair; every scope stays, and every other pair keeps its handler |
| Registry.LoadModuleEntries | src/service/event_action_registry.py:31-34 | loading a module adds exactly its public callables (callable, name not starting with "_") under the module's name |
| Registry.LoadAllEntries | src/service/event_action_registry.py:26-34 | from an empty registry, a (scope, name) pair is registered exactly when a module of that name exports a public callable of that name |
| Registry.LoadModuleValues | src/service/event_action_registry.py:31-34 | after loading a module, a name it exports holds the handler of its last public callable of that name; every other entry keeps its handler |
| Registry.LoadAllValues | src/service/event_action_registry.py:26-34 | after loading all modules, an exported (scope, name) holds the handler of the last public callable of that scope and name in load order; an entry no module exports keeps its handler |
| Registry.EventActionRegistry.constructor | src/service/event_action_registry.py:18-21 | the registry starts empty and then holds what loading the extension modules registers |
| Registry.EventActionRegistry.LoadFromExt | src/service/event_action_registry.py:23-37 | the nested loop registers every public callable of every module, in order, under the module's name |
| Registry.EventActionRegistry.Register | src/service/event_action_registry.py:39-43 | the pair maps to the handler, a missing scope is created, and every other pair is unchanged |
| Registry.EventActionRegistry.GetAction | src/service/event_action_registry.py:45-58 | the registered handler, or None for an unknown scope or an unknown name within a scope |
| Registry.EventActionRegistry.Unregister | src/service/event_action_registry.py:60-77 | removes exactly that pair when it is registered; otherwise raises the KeyError text and changes nothing |
| Registry.EventActionRegistry.ActionsInScope | src/core/entity/agent.py:220-222 | the scope's actions are exactly the names `get_action` finds in that scope, with the same handlers |
| Agents.InitError | src/core/entity/agent.py:130-134 | construction fails with "Role does not have an initial state" when there is no initial state, and with "Role's initial state is not a start state" when its type is not "start"; it succeeds otherwise |
| Agents.HighestIsChosen | src/core/entity/agent.py:215 | the transition `max` picks is the unique first transition of maximal priority among those matching the event |
| Agents.AutoAdvance | src/core/entity/agent.py:136-148 | with no auto-advance transition the agent stays in the initial state; otherwise it moves to the target of the first lowest-priority one when the role has that state, and stays otherwise |
| Agents.MoveByName | src/core/entity/agent.py:110-118 | a move either stays put or lands on a next state bearing the requested name |
| Agents.NextOnEvent | src/core/entity/agent.py:205-216 | with no transition conditioned on the event the state is unchanged; otherwise the agent moves by name towards the target of the first highest-priority one |
| Agents.NextOnEventStored | src/core/entity/agent.py:205-216 | for a state of a well-formed role, the event leads to the stored target of the chosen transition when it exists, and leaves the agent in place otherwise |
| Agents.Authorize | src/core/entity/agent.py:227-231 | the filtered dict has exactly the authorised action names that the scope registers, each mapped to the scope's handler |
| Agents.AuthorizeOrder | src/core/entity/agent.py:227-231 | the filtered handlers keep the order in which the state lists their actions |
| Agents.AuthorizedActions | src/core/entity/agent.py:218-231 | no current state and an unlisted event fail with the source's AttributeError texts; otherwise the filter's exact result |
| Agents.RunAll | src/core/entity/agent.py:183-186 | succeeds exactly when no handler raises, with one text per handler in order |
| Agents.RunAllFirstFailure | src/core/entity/agent.py:183-186 | a failed run carries the error of the first handler that raises |
| Agents.RunHandlers | src/core/entity/agent.py:183-186 | the loop that calls the handlers in order and stops at the first one that raises computes RunAll |
| Agents.ResponseFor | src/core/entity/agent.py:194-203 | success carries the texts joined by "; " and no error; failure carries "An error occurred during interaction." and the error text |
| Agents.Agent.constructor | src/core/entity/agent.py:27-36 | the field assignments of `__init__`, with no current state yet |
| Agents.Agent.Create | src/core/entity/agent.py:27-37 | construction fails exactly when the role is rejected, with the ValueError text; on success the agent sits in the auto-advanced initial state |
| Agents.Agent.InitAgent | src/core/entity/agent.py:128-148 | rejects a role without an initial start state; otherwise the current state is the auto-advanced initial state |
| Agents.Agent.SetState | src/core/entity/agent.py:93-99 | the current state becomes the given state |
| Agents.Agent.TransitionTo | src/core/entity/agent.py:101-118 | false without a current state; otherwise true exactly when a next state has the name, in which case the agent moves to the first one; on false nothing changes |
| Agents.Agent.TransitToNextState | src/core/entity/agent.py:205-216 | without a current state it raises the AttributeError text; otherwise the agent ends in the state NextOnEvent gives |
| Agents.Agent.FilterPreAuthorizedActions | src/core/entity/agent.py:218-231 | the loop computes AuthorizedActions on the current state and the scope's registered actions |
| Agents.Agent.Plan | src/core/entity/agent.py:162-186 | a turn without a current state fails; a successful turn's event is one the current state lists |
| Agents.Agent.RunTurn | src/core/entity/agent.py:162-186 | detection, filtering and the handler loop, none of which changes anything, compute Plan |
| Agents.Agent.Interact | src/core/entity/agent.py:150-203 | the response is ResponseFor of the turn; a failed turn changes no state; a successful one marks the turn's starting state Completed before moving along the event's transition; no state's description changes |
| Agents.Agent.IsInEndState | src/core/entity/agent.py:120-126 | false without a current state; true whenever the current state is one of the end-state objects (list `in` compares by dataclass equality) |
| Agents.Agent.EndStateMembership | src/core/entity/agent.py:120-126 | for a state of a well-formed role, the dataclass-equality test against the end states agrees with membership in the end-state list |
| Targets.Target.constructor | src/core/entity/target.py:33-44 | name, description and engagement id are stored as given; missing storage becomes [] |
| Targets.Target.AddStorage | src/core/entity/target.py:46-48 | the item is appended at the end, earlier items are unchanged, and `get_storage` then returns it |
| Targets.Target.GetStorage | src/core/entity/target.py:50-52 | the last stored item, or None exactly when storage is empty |
| MemoryCache.ForActionsEffect | src/service/memory_cache_service.py:30-32 | one event's pass sets (event, target) to the status exactly when the event lists the target action, and changes nothing else |
| MemoryCache.ForEventsEffect | src/service/memory_cache_service.py:28-32 | after the first n events, exactly the pairs (e, target) whose event e is among them and lists the target action are set |
| MemoryCache.SetStatusWithStateEffect | src/service/memory_cache_service.py:24-32 | the whole pass sets (e, target) for exactly the state's events that list the target action; an action no event lists leaves the cache unchanged |
| MemoryCache.MemoryCacheService.constructor | src/service/memory_cache_service.py:9-10 | the cache starts empty |
| MemoryCache.MemoryCacheService.SetStatus | src/service/memory_cache_service.py:12-16 | only that (event, action) entry changes, a missing inner map is created, and `get_status` then returns the status |
| MemoryCache.MemoryCacheService.GetStatus | src/service/memory_cache_service.py:18-22 | the stored status, or "Unknown" exactly when the pair was never set |
| MemoryCache.MemoryCacheService.SetStatusWithState | src/service/memory_cache_service.py:24-32 | the nested loops over the state's events and their actions compute the pass SetStatusWithStateEffect describes |
| Engagements.WithInteraction | src/service/user_engagement_service.py:74-82 | the history of that engagement gains exactly one entry at its end; all other engagements and fields are unchanged, and an unknown id changes nothing |
| Engagements.UserEngagementService.constructor | src/service/user_engagement_service.py:13-15 | the store starts empty |
| Engagements.UserEngagementService.CreateEngagement | src/service/user_engagement_service.py:17-61 | on success the new id is stored with a fresh agent and target stamped with it and an empty history, and nothing else changes; a rejected role propagates its ValueError and changes nothing |
| Engagements.UserEngagementService.GetContext | src/service/user_engagement_service.py:63-72 | the stored context, or None exactly for an unknown id |
| Engagements.UserEngagementService.UpdateInteractionHistory | src/service/user_engagement_service.py:74-82 | the store becomes WithInteraction of its old value |
| Engagements.UserEngagementService.DeleteEngagement | src/service/user_engagement_service.py:84-91 | the id is absent afterwards, an absent id changes nothing, and other engagements are unchanged |
| Engagements.UserEngagementService.GetAgentWithEngagementId | src/service/user_engagement_service.py:93-104 | the context's agent, or null exactly for an unknown id |
| Prompts.NameEnd | src/service/prompt_service.py:72 | `str.format`'s field-name scan ends at a '}', ':' or '!', skipping bracketed indexes; otherwise it fails with "unexpected '{' in field name" or "expected '}' before end of string" |
| Prompts.NameEndPlain | src/service/prompt_service.py:72 | a field name without brackets or braces ends at the first '}', ':' or '!' |
| Prompts.NameEndBrace | src/service/prompt_service.py:72 | a '{' inside a field name is rejected |
| Prompts.SpecEnd | src/service/prompt_service.py:72 | a format spec ends at the '}' that balances the field's opening brace: nested braces are counted and the nesting never reaches zero before it; otherwise "unmatched '{' in format spec" |
| Prompts.ParseField | src/service/prompt_service.py:72 | a parsed field ends at a '}' within the text, and its name is the text before the ':' or '!' |
| Prompts.FieldValue | src/service/prompt_service.py:71-74 | the keyword is looked up first: the missing-key error arises exactly for a non-positional keyword (one with a character that is not a decimal digit of any script) without an argument, whatever follows it; success only for a bare keyword, with its argument |
| Prompts.ScriptDigitFieldIsPositional | src/service/prompt_service.py:71-74 | a field named by an Arabic-Indic or fullwidth digit is positional and never filled from a keyword argument of that name |
| Prompts.Format | src/service/prompt_service.py:71-72 | text without braces formats to itself |
| Prompts.NestedSpecField | src/service/prompt_service.py:71-74 | a field with a nested field in its format spec ends at the balancing brace; a missing keyword is still the KeyError naming it |
| Prompts.FieldPiece | src/service/prompt_service.py:71-74 | a braced keyword placeholder is replaced by its argument, or reports the missing keyword, and formatting resumes after its closing brace |
| Prompts.LitPiece | src/service/prompt_service.py:71-72 | a literal character, or a doubled brace, formats to that one character |
| Prompts.FormatRendersPlaceholders | src/service/prompt_service.py:68-74 | formatting a template written with keyword placeholders replaces each placeholder with its argument, and fails with the first placeholder that has none |
| Prompts.Stem | src/service/prompt_service.py:45 | `os.path.splitext(name)[0]`: a template file name loses its ".yaml" or ".yml" extension unless only dots precede it, in which case (like a name without those extensions) it is kept whole |
| Prompts.ClassifiedMembers | src/service/prompt_service.py:41-50 | a name is loaded into the role map (or the other map) exactly when a ".yaml"/".yml" file of that kind has it as stem |
| Prompts.ClassifiedLast | src/service/prompt_service.py:41-50 | a loaded name holds the content of the last such file in listing order |
| Prompts.PromptService.constructor | src/service/prompt_service.py:23-32 | the directory is stored and both maps start empty |
| Prompts.PromptService.Create | src/service/prompt_service.py:23-39 | a missing directory raises "Prompt template directory not found: <dir>"; otherwise the files are loaded into the two maps |
| Prompts.PromptService.LoadPromptTemplates | src/service/prompt_service.py:41-50 | the loop puts templates of type "role" into the role prompts and all others into the prompt templates, keyed by stem |
| Prompts.DuplicateArgument | src/service/prompt_service.py:52 | a keyword argument named `template_name` or `self` is exactly what makes the call raise TypeError |
| Prompts.PromptService.GetPrompt | src/service/prompt_service.py:52-74 | a keyword argument `template_name` or `self` raises TypeError; an unknown name raises "Prompt template not found"; otherwise the prompt ("" when absent) is formatted, a missing keyword raising a KeyError that names it and a malformed template a ValueError |
| Prompts.PromptService.AddTemplate | src/service/prompt_service.py:76-83 | the name maps to the template, replacing any earlier one, and nothing else changes |
| Prompts.PromptService.GetTemplateParameters | src/service/prompt_service.py:85-97 | an unknown name raises KeyError; otherwise the "parameters" entry, None when absent |
| Prompts.PromptService.RemoveTemplate | src/service/prompt_service.py:99-111 | deletes only that name; an unknown name raises KeyError and changes nothing |
| Prompts.PromptService.BuildPromptFromTemplate | src/service/prompt_service.py:113-135 | a keyword argument `template_name` or `self` raises its own TypeError; otherwise merging the arguments over the empty defaults and deferring gives exactly `get_prompt`'s result, errors included |
| Prompts.PromptService.GetStartPromptByRole | src/service/prompt_service.py:137-140 | the role template's prompt, or "you are a helpful agent" for an unknown role |
| Tools.JsonType | src/utils/tools.py:21-41 | str, int, float, bool, list, dict and NoneType map to string, integer, number, boolean, array, object and null; any other annotation, or none, maps to "string"; the result is always one of the seven JSON types |
| Tools.Properties | src/utils/tools.py:38-46 | the properties have exactly one key per parameter name |
| Tools.PropertyOf | src/utils/tools.py:38-46 | each parameter's property is {"type": its JSON type}, unless a later parameter of the same name overwrote it |
| Tools.PropertyOrder | src/utils/tools.py:38-46 | with distinct names the property keys are the parameter names in signature order |
| Tools.Required | src/utils/tools.py:48-52 | `required` holds exactly the names of the parameters without a default: all of them when none has a default, none when all have one, and for one parameter its name exactly when it has no default |
| Tools.RequiredAppend | src/utils/tools.py:48-52 | the list follows the signature: for a signature split in two, it is the first part's list followed by the second's |
| Tools.FunctionToJson | src/utils/tools.py:54-65 | the top level is {"type": "function", "function": ...}; the function's name and description come from the function's name and its docstring (or ""); the parameters schema is {"type": "object", "properties": ..., "required": ...}, with keys in that order |
| Tools.PropertyTypes | src/utils/tools.py:21-46 | in the serialised schema every parameter's property records its mapped JSON type, one of the seven |

## Left out

- Loading YAML templates is not modelled: agent, role and target templates and the prompt files. The model starts from already-parsed records; `Agent.from_template`, `Target.from_template` and the target template parser are not part of this model.
- An empty YAML file, which `safe_load` reads as None, is not modelled; a loaded template is always a record.
- The LLM clients and intent detection are not part of this model. Detection is an oracle parameter of the turn.
- Logging is left out (the error log written in `interact`).
- The singleton `__new__` of the prompt service and the registry is left out; each object is constructed on its own.
- Module import and reflection in `load_from_ext` are left out. The registry receives the extension modules as a list, each with its name and attributes. An import failure (ImportError) is not modelled.
- `inspect.signature` in `function_to_json` is left out. The function's name, docstring and parameters (name, annotation, whether it has a default) are passed in. The ValueError re-raise for callables without a signature, and the unreachable KeyError branch, are not modelled.
- `make_google_place_api_call` is an HTTP request; it is not part of this model.
- The getters that only return a field are read directly: `get_goal`, `get_role`, `get_current_state`, `get_init_state`, `get_end_states`, `get_transitions`, `get_all_states`, `get_properties`, the parser's `get_state`, and the response properties `is_success`, `get_message`, `get_error`.
- `Prompts.Format`: every field is parsed as `str.format` parses it (bracketed indexes, conversions, nested fields inside a format spec), but only bare keyword fields `{name}` and the escapes `{{`/`}}` are filled in. After the keyword is found, attribute access, indexing, conversions and format specs are reported as unsupported instead of being applied; positional fields (a name of decimal digits of any script, per Unicode 15.0), which raise IndexError with no positional arguments, are reported as unsupported too. The KeyError text quotes the missing name with single quotes, as `str` of a KeyError does for a plain name.
- `Prompts.FieldValue`: a missing keyword named inside a nested format spec (the `b` of `{a:{b}}` when `a` is present) is reported as unsupported, not as the KeyError for `b`.
- GetPrompt and BuildPromptFromTemplate: when both `self` and `template_name` are passed as keywords, Python names whichever was passed first; the keyword arguments are a map without order, so the model always names `template_name`.
- The prompt loader takes the directory listing in the order given; `os.listdir` order is not modelled.
- `Roles.RoleTemplateParser.Parse` is modelled on a fresh parser only (its only caller); the parser's state and properties fields are reassigned, not merged.
- List aliasing is not modelled: the target's storage list and the interaction-history list are values, so a caller keeping a reference to a passed-in list does not see later appends.
- Interaction-history entries are maps from string to string, not arbitrary dicts.
- `Engagements.UserEngagementService.CreateEngagement` requires the new id to be unused, standing in for the uniqueness of `uuid4`.
- `Roles.LastStart` states only that the chosen state is a start state of the map; that it is the last one is stated separately by `Roles.LastStartIsLast`.
- `Roles.LastNamed` states only that the chosen record has the name; that it is the last one is stated separately by `Roles.LastNamedIsLast`.
- `Prompts.IsDigit` lists the decimal-digit blocks of Unicode 15.0, the version of Python 3.12. Digits of scripts added in later Unicode versions count as keyword characters here, while a later Python reads them as a position.
