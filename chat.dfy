/**
 * The live graph's chat node: deliver the undelivered AI messages, then, when
 * the state asks for user input, read one user turn from the transport.  An
 * empty answer, or none at all, ends the chat.
 */
module ChatNode {
  import opened Wrappers
  import opened AgentState
  import opened ChatInterfaces
  import opened ChatOutputNode

  /**
   * `chat_node`'s update, given the transport's answer `reply` (looked at only
   * when the state asks for input): the user's message if there is one, the
   * new delivery index, both request flags cleared, and `terminate_chat`.
   */
  function ChatUpdate(s: State, reply: Option<string>): Update {
    var asked := s.needUserInput;
    NoUpdate.(
      messages := if asked && Answered(reply) then [HumanMessage(reply.value)] else [],
      lastPrintedIdx := Some(DeliveredIdx(s)),
      hasPendingMessages := Some(false),
      needUserInput := Some(false),
      terminateChat := Some(if asked && !Answered(reply) then true else s.terminateChat))
  }

  /** `chat_node`: a missing transport raises before anything is delivered. */
  method Chat(s: State, chat: ListChatInterface?) returns (r: NodeResult)
    requires s.lastPrintedIdx >= -1
    modifies chat
    ensures chat == null ==> r == Raised(NoChatInterface)
    ensures chat != null ==>
      && r == Returned(ChatUpdate(s, old(chat.Upcoming())))
      && chat.printed == old(chat.printed) + Undelivered(s)
      && chat.i == if s.needUserInput && old(chat.i) < |chat.messages| then old(chat.i) + 1 else old(chat.i)
  {
    if chat == null {
      return Raised(NoChatInterface);
    }
    ghost var upcoming := chat.Upcoming();
    DeliverPending(s, chat);
    var terminateChat := s.terminateChat;
    var userInput: seq<Message> := [];
    if s.needUserInput {
      var message := chat.NextMessage();
      if !Answered(message) {
        terminateChat := true;
      } else {
        userInput := userInput + [HumanMessage(message.value)];
      }
    }
    r := Returned(NoUpdate.(
      messages := userInput,
      lastPrintedIdx := Some(DeliveredIdx(s)),
      hasPendingMessages := Some(false),
      needUserInput := Some(false),
      terminateChat := Some(terminateChat)));
  }

  /**
   * After the chat node's update is merged: nothing is left to deliver, both
   * request flags are cleared, at most the user's one message is added, and
   * the chat ends iff it was ending already or input was asked for and none came.
   */
  lemma {:induction false} ChatMerged(s: State, reply: Option<string>)
    requires s.lastPrintedIdx >= -1
    ensures var t := Merge(s, ChatUpdate(s, reply));
      && Undelivered(t) == []
      && !t.hasPendingMessages && !t.needUserInput
      && t.messages == s.messages + (if s.needUserInput && Answered(reply) then [HumanMessage(reply.value)] else [])
      && (t.terminateChat <==> s.terminateChat || (s.needUserInput && !Answered(reply)))
  {
    var added := ChatUpdate(s, reply).messages;
    AiContentsAppend(s.messages, added);
    assert AiContents(added) == [] by {
      if added != [] {
        assert added[..0] == [];
      }
    }
  }

  /** The transport is read only when input is asked for: otherwise the answer does not matter. */
  lemma ChatReadsOnlyWhenAsked(s: State, reply1: Option<string>, reply2: Option<string>)
    requires !s.needUserInput
    ensures ChatUpdate(s, reply1) == ChatUpdate(s, reply2)
    ensures Merge(s, ChatUpdate(s, reply1)).terminateChat == s.terminateChat
  {
  }
}
