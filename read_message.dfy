/**
 * The live graph's read-message node: read exactly one user turn from the
 * transport.  An empty answer, or none at all, ends the chat.
 */
module ReadMessageNode {
  import opened Wrappers
  import opened AgentState
  import opened ChatInterfaces
  import opened ChatOutputNode
  import SupervisorNode

  /** `read_message_node`'s update, given the transport's answer `reply`. */
  function ReadMessageUpdate(s: State, reply: Option<string>): Update {
    NoUpdate.(
      messages := if Answered(reply) then [HumanMessage(reply.value)] else [],
      needUserInput := Some(false),
      terminateChat := Some(if Answered(reply) then s.terminateChat else true))
  }

  /** `read_message_node`: a missing transport raises; otherwise one message is requested. */
  method ReadMessage(s: State, chat: ListChatInterface?) returns (r: NodeResult)
    modifies chat
    ensures chat == null ==> r == Raised(NoChatInterface)
    ensures chat != null ==>
      && r == Returned(ReadMessageUpdate(s, old(chat.Upcoming())))
      && chat.i == (if old(chat.i) < |chat.messages| then old(chat.i) + 1 else old(chat.i))
      && chat.printed == old(chat.printed)
  {
    var terminateChat := s.terminateChat;
    if chat == null {
      return Raised(NoChatInterface);
    }
    var userInput: seq<Message> := [];
    var message := chat.NextMessage();
    if !Answered(message) {
      terminateChat := true;
    } else {
      userInput := userInput + [HumanMessage(message.value)];
    }
    r := Returned(NoUpdate.(
      messages := userInput,
      needUserInput := Some(false),
      terminateChat := Some(terminateChat)));
  }

  /**
   * After the update is merged: exactly one human message was added iff the
   * user answered, the chat ends iff it was ending already or no answer came,
   * input is no longer requested, and nothing else changed.
   */
  lemma ReadMessageMerged(s: State, reply: Option<string>)
    ensures var t := Merge(s, ReadMessageUpdate(s, reply));
      && (Answered(reply) ==> t == s.(messages := s.messages + [HumanMessage(reply.value)], needUserInput := false))
      && (!Answered(reply) ==> t == s.(needUserInput := false, terminateChat := true))
  {
  }

  /** A conversation whose transport runs dry is routed to the end by the supervisor. */
  lemma {:induction false} SilenceEndsChat(s: State, reply: Option<string>)
    requires !Answered(reply)
    ensures SupervisorNode.Supervisor(Merge(s, ReadMessageUpdate(s, reply))).worker == Some("end")
  {
    ReadMessageMerged(s, reply);
  }
}
