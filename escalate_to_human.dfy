/** The escalation worker: a fixed hand-off message, and the chat is to end. */
module EscalateToHuman {
  import opened Wrappers
  import opened AgentState
  import SupervisorNode

  const ForwardingText := "I am forwarding you to a human agent..."

  /** `escalate_to_human_agent_node`: the same update whatever the state. */
  function EscalateToHumanAgent(s: State): (u: Update)
    ensures u.messages == [AiMessage(ForwardingText)]
    ensures u.terminateChat == Some(true)
    ensures u.hasPendingMessages == None && u.needUserInput == None && u.worker == None
  {
    NoUpdate.(messages := [AiMessage(ForwardingText)], terminateChat := Some(true))
  }

  /**
   * Merged into any state, the escalation appends its one message and raises
   * `terminate_chat`, nothing else; the supervisor's next decision is therefore `end`.
   */
  lemma EscalationEndsChat(s: State)
    ensures Merge(s, EscalateToHumanAgent(s))
        == s.(messages := s.messages + [AiMessage(ForwardingText)], terminateChat := true)
    ensures SupervisorNode.Supervisor(Merge(s, EscalateToHumanAgent(s))).worker == Some("end")
  {
  }
}
