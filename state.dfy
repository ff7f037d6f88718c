/**
 * `UdaHubState`, the record threaded through the live graph, and the merge
 * that applies a node's partial update to it: `messages` are appended (the
 * `MessagesState` reducer), every other key a node returns overwrites the old
 * value, and keys it does not return are kept.
 *
 * Python reads every key with `state.get(key, default)`; the record holds the
 * defaults directly (`False` for flags, `-1` for `last_printed_idx`, `0` for
 * `loaded_messages_count`).  The `user` entry is a plain dictionary, so it is
 * modelled as a map from key strings to values: a node that reads a key
 * another node never writes sees the key missing, exactly as in Python.
 */
module AgentState {
  import opened Wrappers

  datatype Message =
    | AiMessage(content: string)
    | HumanMessage(content: string)
    | SystemMessage(content: string)

  /** A value stored in the `user` dictionary. */
  datatype Value = Str(s: string) | Bool(b: bool)

  type UserContext = map<string, Value>

  /** `TaskContext(status=..., error=...)`. */
  datatype TaskContext = TaskContext(status: string, error: string)

  datatype State = State(
    messages: seq<Message>,
    user: UserContext,
    task: Option<TaskContext>,
    isValidated: bool,
    isEnriched: bool,
    terminateChat: bool,
    needUserInput: bool,
    hasPendingMessages: bool,
    lastPrintedIdx: int,
    worker: Option<string>,
    loadedMessagesCount: nat)

  /** A node's return value: new messages, and the other keys it sets (`None` = not returned). */
  datatype Update = Update(
    messages: seq<Message>,
    user: Option<UserContext>,
    task: Option<TaskContext>,
    isValidated: Option<bool>,
    isEnriched: Option<bool>,
    terminateChat: Option<bool>,
    needUserInput: Option<bool>,
    hasPendingMessages: Option<bool>,
    lastPrintedIdx: Option<int>,
    worker: Option<string>,
    loadedMessagesCount: Option<nat>)

  /**
   * The update of a node that hands back the state it was given.  Re-submitting
   * the same messages replaces them by id and re-submitting the other keys writes
   * the values they already hold, so the merge leaves the state as it was.
   */
  const NoUpdate := Update([], None, None, None, None, None, None, None, None, None, None)

  /** A node either returns an update or raises. */
  datatype NodeResult = Returned(update: Update) | Raised(error: string)

  function Pick<T>(o: Option<T>, current: T): T {
    if o.Some? then o.value else current
  }

  /** The graph's merge of a node update into the state. */
  function Merge(s: State, u: Update): (r: State)
    ensures |r.messages| == |s.messages| + |u.messages|
    ensures r.messages[..|s.messages|] == s.messages
    ensures u == NoUpdate ==> r == s
  {
    State(
      s.messages + u.messages,
      Pick(u.user, s.user),
      if u.task.Some? then u.task else s.task,
      Pick(u.isValidated, s.isValidated),
      Pick(u.isEnriched, s.isEnriched),
      Pick(u.terminateChat, s.terminateChat),
      Pick(u.needUserInput, s.needUserInput),
      Pick(u.hasPendingMessages, s.hasPendingMessages),
      Pick(u.lastPrintedIdx, s.lastPrintedIdx),
      if u.worker.Some? then u.worker else s.worker,
      Pick(u.loadedMessagesCount, s.loadedMessagesCount))
  }

  /** `if ticket_id:` - the configuration names a ticket; a missing or empty id does not. */
  predicate TicketGiven(ticketId: Option<string>) {
    ticketId.Some? && ticketId.value != ""
  }

  /** `user.get(key)`. */
  function Get(user: UserContext, key: string): Option<Value> {
    if key in user then Some(user[key]) else None
  }

  /** Python's truth value of a stored value (`None` is false). */
  predicate Truthy(v: Option<Value>) {
    match v
    case None => false
    case Some(Str(s)) => s != ""
    case Some(Bool(b)) => b
  }

  /** `f"{v}"` of a stored value. */
  function ValueText(v: Value): string {
    match v
    case Str(s) => s
    case Bool(b) => if b then "True" else "False"
  }

  /** `f"{x}"` of an optional string: `None` formats as the text "None". */
  function Format(o: Option<string>): string {
    if o.Some? then o.value else "None"
  }

  /** `[m for m in messages if isinstance(m, AIMessage)]`, as contents. */
  function AiContents(msgs: seq<Message>): (r: seq<string>)
    ensures |r| <= |msgs|
  {
    if msgs == [] then []
    else
      var last := msgs[|msgs| - 1];
      AiContents(msgs[..|msgs| - 1]) + (if last.AiMessage? then [last.content] else [])
  }

  /** Extracting AI messages distributes over concatenation. */
  lemma {:induction false} AiContentsAppend(a: seq<Message>, b: seq<Message>)
    ensures AiContents(a + b) == AiContents(a) + AiContents(b)
    decreases |b|
  {
    if b != [] {
      var ab := a + b;
      assert ab[..|ab| - 1] == a + b[..|b| - 1];
      assert ab[|ab| - 1] == b[|b| - 1];
      AiContentsAppend(a, b[..|b| - 1]);
    } else {
      assert a + b == a;
    }
  }

  /** The AI message texts a delivery node still has to hand to the transport. */
  function Undelivered(s: State): (r: seq<string>)
    requires s.lastPrintedIdx >= -1
    ensures |r| == if s.lastPrintedIdx + 1 <= |AiContents(s.messages)|
                   then |AiContents(s.messages)| - (s.lastPrintedIdx + 1) else 0
  {
    var ai := AiContents(s.messages);
    if s.lastPrintedIdx + 1 <= |ai| then ai[s.lastPrintedIdx + 1..] else []
  }
}
