/**
 * The live graph's output node and the delivery loop it shares with the chat
 * node.  `last_printed_idx` counts AI messages, not all messages: it is the
 * index, among the AI messages of the thread, of the last one handed to the
 * transport (-1 before the first).  Delivering the AI messages after it and
 * then storing the AI-message count minus one means every AI message reaches
 * the transport exactly once, in order, and human messages never do.
 */
module ChatOutputNode {
  import opened Wrappers
  import opened AgentState
  import opened ChatInterfaces

  const NoChatInterface := "No chat interface found"

  /** Hand every undelivered AI message of `s` to the transport, in order. */
  method DeliverPending(s: State, chat: ListChatInterface)
    requires s.lastPrintedIdx >= -1
    modifies chat
    ensures chat.printed == old(chat.printed) + Undelivered(s)
    ensures chat.i == old(chat.i)
  {
    var ai := AiContents(s.messages);
    var start := s.lastPrintedIdx + 1;
    if start <= |ai| {
      var k := start;
      while k < |ai|
        invariant start <= k <= |ai|
        invariant chat.printed == old(chat.printed) + ai[start..k]
        invariant chat.i == old(chat.i)
      {
        chat.ReadMessage(ai[k]);
        assert ai[start..k + 1] == ai[start..k] + [ai[k]];
        k := k + 1;
      }
    }
  }

  /** The index the output nodes store: the AI-message count minus one. */
  function DeliveredIdx(s: State): (r: int)
    ensures r >= -1
  {
    |AiContents(s.messages)| - 1
  }

  /** `chat_output_node`'s update: no messages, and the new delivery index. */
  function ChatOutputUpdate(s: State): Update {
    NoUpdate.(lastPrintedIdx := Some(DeliveredIdx(s)))
  }

  /** `chat_output_node`: a missing transport raises; otherwise deliver and record. */
  method ChatOutput(s: State, chat: ListChatInterface?) returns (r: NodeResult)
    requires s.lastPrintedIdx >= -1
    modifies chat
    ensures chat == null ==> r == Raised(NoChatInterface)
    ensures chat != null ==>
      && r == Returned(ChatOutputUpdate(s))
      && chat.printed == old(chat.printed) + Undelivered(s)
      && chat.i == old(chat.i)
  {
    if chat == null {
      return Raised(NoChatInterface);
    }
    DeliverPending(s, chat);
    r := Returned(ChatOutputUpdate(s));
  }

  /** The merged state differs only in the delivery index, and nothing is left to deliver. */
  lemma ChatOutputOnlyRecords(s: State)
    ensures Merge(s, ChatOutputUpdate(s)) == s.(lastPrintedIdx := DeliveredIdx(s))
    ensures Undelivered(Merge(s, ChatOutputUpdate(s))) == []
  {
  }

  /**
   * Exactly once, in order: what this run delivers followed by what the next
   * delivery sees after any update that leaves the index alone is exactly the
   * thread's AI messages after the old index.
   */
  lemma {:induction false} DeliveredOnceInOrder(s: State, u: Update)
    requires s.lastPrintedIdx >= -1 && s.lastPrintedIdx + 1 <= |AiContents(s.messages)|
    requires u.lastPrintedIdx == None
    ensures var t := Merge(Merge(s, ChatOutputUpdate(s)), u);
      && Undelivered(t) == AiContents(u.messages)
      && var all := AiContents(s.messages + u.messages);
      && s.lastPrintedIdx + 1 <= |all|
      && Undelivered(s) + Undelivered(t) == all[s.lastPrintedIdx + 1..]
  {
    var t := Merge(Merge(s, ChatOutputUpdate(s)), u);
    AiContentsAppend(s.messages, u.messages);
    assert t.messages == s.messages + u.messages;
    var a := AiContents(s.messages);
    var b := AiContents(u.messages);
    assert AiContents(t.messages) == a + b;
    assert (a + b)[|a|..] == b;
    assert (a + b)[s.lastPrintedIdx + 1..] == a[s.lastPrintedIdx + 1..] + b;
  }
}
