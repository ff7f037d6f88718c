/**
 * The live agent's graph: the scripted user transport, the gate after
 * validation, and the fixed edges.  A thread always enters at validation; a
 * failed task ends it there; otherwise enrichment runs and hands over to the
 * supervisor, which has no outgoing edge in this graph.
 */
module UdaHubGraph {
  import opened Wrappers
  import opened AgentState
  import opened McpToolUtils
  import ValidationNode

  class ListUserInterface {
    const messages: seq<string>
    var i: nat

    constructor(messages: seq<string>)
      ensures this.messages == messages && i == 0
    {
      this.messages := messages;
      i := 0;
    }

    /** `next_message`: the script in order, then `None` forever with the index parked. */
    method NextMessage() returns (r: Option<string>)
      modifies this
      ensures old(i) >= |messages| ==> r == None && i == old(i)
      ensures old(i) < |messages| ==> r == Some(messages[old(i)]) && i == old(i) + 1
    {
      if i >= |messages| {
        return None;
      }
      r := Some(messages[i]);
      i := i + 1;
    }
  }

  /** `_after_validation`: "end" for a failed task, "enrich" otherwise (including no task). */
  function AfterValidation(s: State): (r: string)
    ensures r == "end" <==> s.task.Some? && s.task.value.status == "failed"
    ensures r == "end" || r == "enrich"
  {
    if s.task.Some? && s.task.value.status == "failed" then "end" else "enrich"
  }

  datatype Node = Start | Validation | Enrichment | Supervisor | End

  /** The node after `n` in state `s`; the supervisor and the end have no successor. */
  function Next(n: Node, s: State): (r: Option<Node>)
    ensures r == None <==> n == Supervisor || n == End
    ensures n == Start ==> r == Some(Validation)
    ensures n == Enrichment ==> r == Some(Supervisor)
    ensures n == Validation ==> (r == Some(End) <==> AfterValidation(s) == "end")
  {
    match n
    case Start => Some(Validation)
    case Validation => if AfterValidation(s) == "end" then Some(End) else Some(Enrichment)
    case Enrichment => Some(Supervisor)
    case Supervisor => None
    case End => None
  }

  /**
   * On a fresh thread (no task yet) the gate after validation ends the thread
   * exactly when validation did not validate it: both failures record a failed
   * task, and success records none.
   */
  lemma ValidationGate(
    s: State, tools: seq<Tool>,
    invoke: (Tool, string) -> string, agent: (seq<Tool>, string, string) -> ValidationNode.AgentReply)
    requires !s.isValidated && s.task == None
    requires ValidationNode.Validation(s, tools, invoke, agent).Returned?
    ensures var t := Merge(s, ValidationNode.Validation(s, tools, invoke, agent).update);
      Next(Validation, t) == (if t.isValidated then Some(Enrichment) else Some(End))
  {
    ValidationNode.ValidationOutcome(s, tools, invoke, agent);
  }
}
