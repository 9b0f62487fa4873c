/**
  The engagement store (src/service/user_engagement_service.py): one
  context per engagement id, each holding the agent, the target and the
  interaction history of one conversation.
*/
module Engagements {
  import opened Wrappers
  import opened Roles
  import opened Agents
  import opened Targets

  /** One entry of the interaction history. */
  type Interaction = map<string, string>

  /** `UnifiedContext` (src/core/entity/unified_context.py): a plain record. */
  datatype UnifiedContext = UnifiedContext(
    agent: Agent,
    target: Target<string>,
    interactionHis: seq<Interaction>,
    engagementId: Option<string>)

  /** The store after `update_interaction_history(id, interaction)`. */
  function WithInteraction(engagements: map<string, UnifiedContext>, id: string, interaction: Interaction)
    : (r: map<string, UnifiedContext>)
    ensures r.Keys == engagements.Keys
    ensures forall k :: k in r && k != id ==> r[k] == engagements[k]
    ensures id in r ==> r[id].interactionHis == engagements[id].interactionHis + [interaction]
    ensures id in r ==> r[id].agent == engagements[id].agent && r[id].target == engagements[id].target &&
                        r[id].engagementId == engagements[id].engagementId
  {
    if id in engagements then
      var context := engagements[id];
      engagements[id := context.(interactionHis := context.interactionHis + [interaction])]
    else engagements
  }

  /** `UserEngagementService`. */
  class UserEngagementService {
    var engagements: map<string, UnifiedContext>

    constructor ()
      ensures engagements == map[]
    {
      engagements := map[];
    }

    /**
      `create_engagement`, with the agent and target built from records in
      place of template files and the new id given by the caller: builds the
      agent (whose ValueError propagates), stamps it and the new target with
      the id, and stores a context with an empty history under the id.
    */
    method CreateEngagement(freshId: string, agentGoal: string, agentName: string, agentDescription: string,
                            role: Role, targetName: string, targetDescription: string)
      returns (r: Result<string, string>)
      requires freshId !in engagements
      modifies this`engagements
      ensures r.Failure? <==> InitError(role).Some?
      ensures r.Failure? ==> r.error == InitError(role).value && engagements == old(engagements)
      ensures r.Success? ==> r.value == freshId && engagements.Keys == old(engagements).Keys + {freshId}
      ensures r.Success? ==> forall k :: k in old(engagements) ==> engagements[k] == old(engagements)[k]
      ensures r.Success? ==>
                var context := engagements[freshId];
                && fresh(context.agent) && fresh(context.target)
                && context.agent.engagementId == Some(freshId)
                && context.target.engagementId == Some(freshId)
                && context.engagementId == Some(freshId)
                && context.interactionHis == []
                && context.agent.name == agentName && context.agent.goal == agentGoal
                && context.agent.description == agentDescription && context.agent.role == role
                && role.initState != null && context.agent.currentState == AutoAdvance(role, role.initState)
                && context.target.name == targetName && context.target.description == targetDescription
                && context.target.storage == []
    {
      var created := Agent.Create(agentGoal, agentName, agentDescription, role);
      if created.Failure? {
        return Failure(created.error);
      }
      var agent := created.value;
      agent.engagementId := Some(freshId);
      var target := new Target<string>(targetName, targetDescription, Some([]), Some(freshId));
      engagements := engagements[freshId := UnifiedContext(agent, target, [], Some(freshId))];
      r := Success(freshId);
    }

    /** `get_context`: the stored context, or None for an unknown id. */
    function GetContext(id: string): (r: Option<UnifiedContext>)
      reads this`engagements
      ensures r.None? <==> id !in engagements
      ensures r.Some? ==> r.value == engagements[id]
    {
      if id in engagements then Some(engagements[id]) else None
    }

    /** `update_interaction_history`: appends to that engagement's history; an unknown id changes nothing. */
    method UpdateInteractionHistory(id: string, interaction: Interaction)
      modifies this`engagements
      ensures engagements == WithInteraction(old(engagements), id, interaction)
    {
      if id in engagements {
        var context := engagements[id];
        engagements := engagements[id := context.(interactionHis := context.interactionHis + [interaction])];
      }
    }

    /** `delete_engagement`: removes the id when present; every other engagement stays. */
    method DeleteEngagement(id: string)
      modifies this`engagements
      ensures id !in engagements
      ensures engagements.Keys == old(engagements).Keys - {id}
      ensures forall k :: k in engagements ==> engagements[k] == old(engagements)[k]
    {
      if id in engagements {
        engagements := engagements - {id};
      }
    }

    /** `get_agent_with_engagement_id`: the context's agent, or None (null) for an unknown id. */
    function GetAgentWithEngagementId(id: string): (r: Agent?)
      reads this`engagements
      ensures r == null <==> id !in engagements
      ensures r != null ==> r == engagements[id].agent
    {
      if id in engagements then engagements[id].agent else null
    }
  }
}
