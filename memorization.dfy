/**
 * The live graph's memorization node.  When the conversation did not come from
 * a stored ticket it summarises the messages added in this session and files
 * a new ticket; either way it hands the state back unchanged.
 *
 * The summariser is a parameter `summarize(messages)`; the ticket store write
 * is returned as the ticket the node asks to be created.
 */
module MemorizationNode {
  import opened Wrappers
  import opened AgentState
  import ValidationNode

  /** `ConversationSummary`: the summariser's answer. */
  datatype ConversationSummary = ConversationSummary(summary: string, tags: seq<string>)

  /** The arguments of `create_ticket`. */
  datatype TicketRequest = TicketRequest(
    accountId: string,
    userId: string,
    channel: string,
    summary: string,
    status: string,
    tags: seq<string>)

  /** What the node does: its update, and the ticket it files, if any. */
  datatype Memorized = Memorized(update: Update, ticket: Option<TicketRequest>)

  /** `state["messages"][loaded_messages_count:]`: the messages after the reloaded ones. */
  function StoredMessages(s: State): (r: seq<Message>)
    ensures |r| == if s.loadedMessagesCount <= |s.messages| then |s.messages| - s.loadedMessagesCount else 0
    ensures r == s.messages[|s.messages| - |r|..]
  {
    if s.loadedMessagesCount <= |s.messages| then s.messages[s.loadedMessagesCount..] else []
  }

  /** `user.get(key, "")`, as text. */
  function UserText(user: UserContext, key: string): string {
    if key in user then ValueText(user[key]) else ""
  }

  /** `memorization_node`. */
  function Memorization(s: State, ticketId: Option<string>, summarize: seq<Message> -> ConversationSummary)
    : (r: Memorized)
    ensures r.update == NoUpdate
    ensures r.ticket.Some? <==> !TicketGiven(ticketId)
    ensures r.ticket.Some? ==>
      var summary := summarize(StoredMessages(s));
      && r.ticket.value.channel == "chat" && r.ticket.value.status == "open"
      && r.ticket.value.summary == summary.summary && r.ticket.value.tags == summary.tags
      && r.ticket.value.accountId == UserText(s.user, "account_id")
      && r.ticket.value.userId == UserText(s.user, "uda_hub_user_id")
  {
    if TicketGiven(ticketId) then Memorized(NoUpdate, None)
    else
      var summary := summarize(StoredMessages(s));
      Memorized(NoUpdate, Some(TicketRequest(
        UserText(s.user, "account_id"),
        UserText(s.user, "uda_hub_user_id"),
        "chat",
        summary.summary,
        "open",
        summary.tags)))
  }

  /**
   * The user id is read under `uda_hub_user_id`, a key validation never writes
   * (it writes `udahub_user_id`), so a ticket filed for a validated user carries
   * the empty user id.
   */
  lemma TicketOfValidatedUserHasNoUserId(
    s: State, ticketId: Option<string>, summarize: seq<Message> -> ConversationSummary,
    accountId: string, externalUserId: string, v: ValidationNode.UserValidationResult)
    requires s.user == ValidationNode.ValidatedUser(accountId, externalUserId, v)
    requires !TicketGiven(ticketId)
    ensures Memorization(s, ticketId, summarize).ticket.value.userId == ""
    ensures Memorization(s, ticketId, summarize).ticket.value.accountId == accountId
  {
    assert "uda_hub_user_id" !in s.user;
  }

  /** Without reloaded messages the whole conversation is summarised. */
  lemma {:induction false} NothingLoadedStoresAll(s: State)
    requires s.loadedMessagesCount == 0
    ensures StoredMessages(s) == s.messages
  {
  }
}
