/**
 * The self-contained demo graph: its state and the helpers every node uses.
 *
 * `GraphState` declares no reducer, so a demo node returns the whole state and
 * the graph keeps what it returns.  Nodes are therefore functions (or methods)
 * from state to state.  Messages are role/content records, as the demo writes them.
 */
module DemoState {
  import opened Wrappers

  datatype ChatMsg = ChatMsg(role: string, content: string)

  /** `UserCtx`: every key is optional. */
  datatype UserCtx = UserCtx(
    userId: Option<string>,
    isValid: Option<bool>,
    enriched: Option<bool>,
    subscriptionStatus: Option<string>,
    locale: Option<string>)

  /** The slots of a reservation waiting for confirmation. */
  datatype Payload = Payload(date: string, time: string, partySize: nat)

  /** `PendingAction`: an action waiting for the user's confirmation. */
  datatype PendingAction = PendingAction(kind: string, payload: Payload)

  /** `TaskCtx`: every key is optional. */
  datatype TaskCtx = TaskCtx(
    status: Option<string>,
    finalAnswer: Option<string>,
    question: Option<string>,
    error: Option<string>,
    pending: Option<PendingAction>)

  const NoTaskFields := TaskCtx(None, None, None, None, None)

  datatype Route = Faq | Reservation | Subscription | HandoffHuman | Finish

  /** The events the nodes record in `trace`. */
  datatype TraceEvent =
    | ValidationFailed(userId: string)
    | Validated(userId: string)
    | Enriched(fields: seq<string>)
    | Routed(route: Route)
    | Memorized

  datatype GraphState = GraphState(
    messages: seq<ChatMsg>,
    user: UserCtx,
    task: TaskCtx,
    route: Option<Route>,
    trace: seq<TraceEvent>)

  /** `last_user_text`: the content of the latest user message, or "" when there is none. */
  function LastUserText(msgs: seq<ChatMsg>): (r: string)
    ensures r != "" ==> exists k :: 0 <= k < |msgs| && msgs[k].role == "user" && msgs[k].content == r
  {
    if msgs == [] then ""
    else if msgs[|msgs| - 1].role == "user" then msgs[|msgs| - 1].content
    else LastUserText(msgs[..|msgs| - 1])
  }

  /** Later non-user messages do not change the last user text. */
  lemma {:induction false} LastUserTextSkipsOthers(msgs: seq<ChatMsg>, more: seq<ChatMsg>)
    requires forall k :: 0 <= k < |more| ==> more[k].role != "user"
    ensures LastUserText(msgs + more) == LastUserText(msgs)
    decreases |more|
  {
    if more != [] {
      var all := msgs + more;
      assert all[..|all| - 1] == msgs + more[..|more| - 1];
      assert all[|all| - 1] == more[|more| - 1];
      LastUserTextSkipsOthers(msgs, more[..|more| - 1]);
    } else {
      assert msgs + more == msgs;
    }
  }

  /** A new user message is the last user text. */
  lemma LastUserTextOfNewMessage(msgs: seq<ChatMsg>, text: string)
    ensures LastUserText(msgs + [ChatMsg("user", text)]) == text
  {
  }

  /** `task.update(updates)`: every key present in `fields` overwrites, the others are kept. */
  function UpdateTask(task: TaskCtx, fields: TaskCtx): (r: TaskCtx)
    ensures fields == NoTaskFields ==> r == task
    ensures task == NoTaskFields ==> r == fields
    ensures Present(fields) <= Present(r) && Present(task) <= Present(r)
  {
    TaskCtx(
      if fields.status.Some? then fields.status else task.status,
      if fields.finalAnswer.Some? then fields.finalAnswer else task.finalAnswer,
      if fields.question.Some? then fields.question else task.question,
      if fields.error.Some? then fields.error else task.error,
      if fields.pending.Some? then fields.pending else task.pending)
  }

  /** The keys of a task that hold a value. */
  function Present(task: TaskCtx): set<string> {
    (if task.status.Some? then {"status"} else {}) +
    (if task.finalAnswer.Some? then {"final_answer"} else {}) +
    (if task.question.Some? then {"question"} else {}) +
    (if task.error.Some? then {"error"} else {}) +
    (if task.pending.Some? then {"pending"} else {})
  }

  /** Updating with the fields just written changes nothing more. */
  lemma UpdateTaskIdempotent(task: TaskCtx, fields: TaskCtx)
    ensures UpdateTask(UpdateTask(task, fields), fields) == UpdateTask(task, fields)
  {
  }

  /** `set_task`: a copy of the state whose task has `fields` written into it. */
  function SetTask(s: GraphState, fields: TaskCtx): (r: GraphState)
    ensures r.(task := s.task) == s
    ensures r.task == UpdateTask(s.task, fields)
    ensures fields == NoTaskFields ==> r == s
    ensures Present(s.task) <= Present(r.task) && Present(fields) <= Present(r.task)
  {
    s.(task := UpdateTask(s.task, fields))
  }

  /** `append_trace`: a copy of the state with one more trace event. */
  function AppendTrace(s: GraphState, e: TraceEvent): (r: GraphState)
    ensures r.(trace := s.trace) == s
    ensures r.trace == s.trace + [e]
    ensures Extends(s, r) && |r.trace| == |s.trace| + 1
  {
    s.(trace := s.trace + [e])
  }

  /** Writing the same task fields twice is writing them once. */
  lemma SetTaskIdempotent(s: GraphState, fields: TaskCtx)
    ensures SetTask(SetTask(s, fields), fields) == SetTask(s, fields)
  {
  }

  /** Two `set_task` calls equal one with the later fields laid over the earlier ones. */
  lemma SetTaskCompose(s: GraphState, a: TaskCtx, b: TaskCtx)
    ensures SetTask(SetTask(s, a), b) == SetTask(s, UpdateTask(a, b))
  {
  }

  /** The assistant's reply appended to the conversation. */
  function Say(s: GraphState, text: string): GraphState {
    s.(messages := s.messages + [ChatMsg("assistant", text)])
  }

  /** `t` extends the conversation and the trace of `s`: nothing recorded is lost. */
  predicate Extends(s: GraphState, t: GraphState) {
    s.messages <= t.messages && s.trace <= t.trace
  }
}
