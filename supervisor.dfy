/**
 * The live graph's supervisor: a ladder over three flags of the state.  The
 * classification sub-agent that would choose among the workers is disabled in
 * this version of the code, so the last rung always picks `escalate_to_human`.
 */
module SupervisorNode {
  import opened Wrappers
  import opened AgentState

  datatype Priority = Normal | High | Critical

  /** The structured answer the classification sub-agent would give. */
  datatype SupervisorAnalysis = SupervisorAnalysis(agent: string, priority: Priority)

  /** `SupervisorAnalysis()` with every field left at its default. */
  const DefaultAnalysis := SupervisorAnalysis("escalate_to_human", Normal)

  /** `supervisor_node`: sets only `worker` (with an empty message list). */
  function Supervisor(s: State): (u: Update)
    ensures u == NoUpdate.(worker := u.worker)
    ensures u.worker == Some("end") <==> s.terminateChat
    ensures u.worker == Some("chat") <==> !s.terminateChat && (s.needUserInput || s.hasPendingMessages)
    ensures u.worker == Some("escalate_to_human")
        <==> !s.terminateChat && !s.needUserInput && !s.hasPendingMessages
  {
    if s.terminateChat then NoUpdate.(worker := Some("end"))
    else if s.needUserInput || s.hasPendingMessages then NoUpdate.(worker := Some("chat"))
    else NoUpdate.(worker := Some("escalate_to_human"))
  }

  /** The decision reads the three flags and nothing else: not the messages, the user or the task. */
  lemma SupervisorReadsOnlyFlags(s1: State, s2: State)
    requires s1.terminateChat == s2.terminateChat
    requires s1.needUserInput == s2.needUserInput
    requires s1.hasPendingMessages == s2.hasPendingMessages
    ensures Supervisor(s1) == Supervisor(s2)
  {
  }

  /** After the supervisor runs, the state differs from before only in `worker`, which is one of three names. */
  lemma SupervisorOnlyRoutes(s: State)
    ensures Merge(s, Supervisor(s)) == s.(worker := Supervisor(s).worker)
    ensures Supervisor(s).worker.value in {"end", "chat", "escalate_to_human"}
  {
  }
}
