/** The browsing worker stub: a fixed message, marked pending, and the chat is to end. */
module Browsing {
  import opened Wrappers
  import opened AgentState
  import SupervisorNode

  const ActivatedText := "Browsing Agent activated"

  /** `browsing_agent_node`: the same update whatever the state. */
  function BrowsingAgent(s: State): (u: Update)
    ensures u.messages == [AiMessage(ActivatedText)]
    ensures u.hasPendingMessages == Some(true) && u.terminateChat == Some(true)
    ensures u == NoUpdate.(messages := u.messages, hasPendingMessages := u.hasPendingMessages,
                           terminateChat := u.terminateChat)
  {
    NoUpdate.(messages := [AiMessage(ActivatedText)], hasPendingMessages := Some(true),
              terminateChat := Some(true))
  }

  /**
   * Because the supervisor tests `terminate_chat` before `has_pending_messages`,
   * the state after browsing is routed to `end`, not to the chat node that would
   * deliver the pending message.
   */
  lemma BrowsingEndsBeforeDelivery(s: State)
    ensures Merge(s, BrowsingAgent(s)).hasPendingMessages
    ensures SupervisorNode.Supervisor(Merge(s, BrowsingAgent(s))).worker == Some("end")
  {
  }
}
