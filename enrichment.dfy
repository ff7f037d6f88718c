/**
 * The live graph's enrichment node.  It runs once per thread: when the
 * configuration names a ticket it reloads that ticket's stored messages,
 * otherwise it greets the user from the `user` entry validation wrote.
 *
 * The ticket store is a parameter: `history(ticketId)` is what
 * `get_messages_for_ticket` returns.  The node writes the number of reloaded
 * messages into the state it was GIVEN, not into the update it returns; the
 * method hands that mutated input back as a second result, and
 * `LoadedCountNotMerged` shows that the merged state never sees it.
 */
module EnrichmentNode {
  import opened Wrappers
  import opened AgentState
  import ValidationNode

  /** A stored ticket record: `message.get("role")` and `message.get("content")`. */
  datatype TicketMessage = TicketMessage(role: Option<string>, content: Option<string>)

  /** A record with a non-empty content. */
  predicate HasContent(m: TicketMessage) {
    m.content.Some? && m.content.value != ""
  }

  /** The messages one stored record turns into: AI for role "ai", human for role "user", none otherwise. */
  function ConvertOne(m: TicketMessage): (r: seq<Message>)
    ensures |r| <= 1
    ensures r != [] <==> HasContent(m) && (m.role == Some("ai") || m.role == Some("user"))
    ensures r != [] ==> r[0].content == m.content.value && !r[0].SystemMessage?
    ensures r != [] ==> (r[0].AiMessage? <==> m.role == Some("ai"))
  {
    (if m.role == Some("ai") && HasContent(m) then [AiMessage(m.content.value)] else [])
    + (if m.role == Some("user") && HasContent(m) then [HumanMessage(m.content.value)] else [])
  }

  /** The stored records converted in order. */
  function Convert(records: seq<TicketMessage>): (r: seq<Message>)
    ensures |r| <= |records|
    ensures forall i :: 0 <= i < |r| ==> !r[i].SystemMessage?
  {
    if records == [] then []
    else Convert(records[..|records| - 1]) + ConvertOne(records[|records| - 1])
  }

  /** Conversion distributes over concatenation: records are converted one by one, in order. */
  lemma {:induction false} ConvertAppend(a: seq<TicketMessage>, b: seq<TicketMessage>)
    ensures Convert(a + b) == Convert(a) + Convert(b)
    decreases |b|
  {
    if b == [] {
      assert a + b == a;
    } else {
      var ab := a + b;
      assert ab[..|ab| - 1] == a + b[..|b| - 1];
      assert ab[|ab| - 1] == b[|b| - 1];
      ConvertAppend(a, b[..|b| - 1]);
    }
  }

  /** Records that convert to nothing (another role, or empty content) can be dropped. */
  lemma {:induction false} ConvertDropsUnknown(records: seq<TicketMessage>)
    requires forall i :: 0 <= i < |records| ==> ConvertOne(records[i]) == []
    ensures Convert(records) == []
  {
    if records != [] {
      ConvertDropsUnknown(records[..|records| - 1]);
    }
  }

  function WelcomeText(fullName: string, accountName: string): string {
    "Welcome " + fullName + "!\n" + "I am UDA-Hub and I will be helping you on behalf of " + accountName + "."
  }

  function FirstContactText(udaHubUserId: string): string {
    "It seems like I am serving you the first time. I created a new UDA Hub user for you to keep context.\n"
    + "Your user ID with me is " + udaHubUserId + "\n"
  }

  /** `f"{x}"` of an optional stored value. */
  function OptText(o: Option<Value>): string {
    if o.Some? then ValueText(o.value) else "None"
  }

  /** `user.get("account_name", user.get("account_id", ""))`, as text. */
  function AccountName(user: UserContext): string {
    if "account_name" in user then ValueText(user["account_name"])
    else if "account_id" in user then ValueText(user["account_id"])
    else ""
  }

  /** `user.get("udahub_user_created", False) is True`. */
  predicate FirstContact(user: UserContext) {
    Get(user, "udahub_user_created") == Some(Bool(true))
  }

  /**
   * The greeting without a ticket: a welcome iff `full_name` is truthy, then the
   * first-contact notice iff `udahub_user_created` is True, and nothing else.
   */
  function Greeting(user: UserContext): (msgs: seq<Message>)
    ensures |msgs| == (if Truthy(Get(user, "full_name")) then 1 else 0) + (if FirstContact(user) then 1 else 0)
    ensures Truthy(Get(user, "full_name")) ==> msgs[0] == Welcome(user)
    ensures FirstContact(user) ==> msgs[|msgs| - 1] == FirstContactNotice(user)
  {
    (if Truthy(Get(user, "full_name")) then [Welcome(user)] else [])
    + (if FirstContact(user) then [FirstContactNotice(user)] else [])
  }

  function Welcome(user: UserContext): Message
    requires "full_name" in user
  {
    AiMessage(WelcomeText(ValueText(user["full_name"]), AccountName(user)))
  }

  function FirstContactNotice(user: UserContext): Message {
    AiMessage(FirstContactText(OptText(Get(user, "udahub_user_id"))))
  }

  /** The update an enrichment run returns when it is not skipped. */
  function EnrichedUpdate(msgs: seq<Message>): Update {
    NoUpdate.(messages := msgs, isEnriched := Some(true))
  }

  /** `enrichment_node`: returns the update and the input state as the node leaves it. */
  method Enrichment(s: State, ticketId: Option<string>, history: string -> seq<TicketMessage>)
    returns (u: Update, input: State)
    ensures s.isEnriched ==> u == NoUpdate && input == s
    ensures !s.isEnriched && TicketGiven(ticketId) ==>
      && u == EnrichedUpdate(Convert(history(ticketId.value)))
      && input == s.(loadedMessagesCount := |Convert(history(ticketId.value))|)
    ensures !s.isEnriched && !TicketGiven(ticketId) ==>
      u == EnrichedUpdate(Greeting(s.user)) && input == s
  {
    input := s;
    if s.isEnriched {
      return NoUpdate, input;
    }
    var messages: seq<Message> := [];
    if TicketGiven(ticketId) {
      var loaded := history(ticketId.value);
      var i := 0;
      while i < |loaded|
        invariant 0 <= i <= |loaded|
        invariant messages == Convert(loaded[..i])
      {
        var m := loaded[i];
        assert loaded[..i + 1][..i] == loaded[..i];
        if m.role == Some("ai") && HasContent(m) {
          messages := messages + [AiMessage(m.content.value)];
        }
        if m.role == Some("user") && HasContent(m) {
          messages := messages + [HumanMessage(m.content.value)];
        }
        i := i + 1;
      }
      assert loaded[..i] == loaded;
      input := input.(loadedMessagesCount := |messages|);
    } else {
      messages := Greeting(s.user);
    }
    u := EnrichedUpdate(messages);
  }

  /** Every non-skipped run marks the thread enriched, so a second run is a no-op. */
  lemma EnrichmentOneShot(s: State, msgs: seq<Message>)
    ensures Merge(s, EnrichedUpdate(msgs)).isEnriched
    ensures Merge(s, EnrichedUpdate(msgs)).messages == s.messages + msgs
  {
  }

  /** The reloaded-message count written into the input is not part of the merged state. */
  lemma LoadedCountNotMerged(s: State, msgs: seq<Message>)
    ensures Merge(s, EnrichedUpdate(msgs)).loadedMessagesCount == s.loadedMessagesCount
  {
  }

  /**
   * After a successful validation, enrichment without a ticket never sends the
   * first-contact notice (validation writes no `udahub_user_created` key) and
   * welcomes the user whenever the stored name text is non-empty, including the
   * text "None" stored for a missing name; the account name is the account id.
   */
  lemma GreetingAfterValidation(accountId: string, externalUserId: string, v: ValidationNode.UserValidationResult)
    ensures var user := ValidationNode.ValidatedUser(accountId, externalUserId, v);
      Greeting(user)
        == if Format(v.fullName) != "" then [AiMessage(WelcomeText(Format(v.fullName), accountId))] else []
  {
    var user := ValidationNode.ValidatedUser(accountId, externalUserId, v);
    assert "udahub_user_created" !in user;
    assert "account_name" !in user;
  }
}
