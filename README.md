# UDA Hub chatbot: a Dafny model of its conversation graph and tool servers

UDA Hub is a LangGraph customer-support chatbot. It answers on behalf of customer
accounts such as Cultpass. This project models the deterministic core of its
Python code and proves properties of that model. The language models, databases,
consoles and network are abstracted away.

The model covers five groups.

- **Tool capability filter** (`McpToolUtils`). `McpToolFilter` narrows a catalogue
  of MCP tools by case-insensitive tags, a `_meta` value, a boolean annotation hint,
  or a name. The queries are sequence filters. They keep catalogue order, commute
  with each other, and are idempotent.
- **Live conversation graph** (`AgentState`, `SupervisorNode`, `ValidationNode`,
  `EnrichmentNode`, `ChatNode`, `ChatOutputNode`, `ReadMessageNode`,
  `MemorizationNode`, `EscalateToHuman`, `Browsing`, `UdaHubGraph`).
  - Each node maps a `UdaHubState` to a partial update.
  - `Merge` applies the update the way the graph's `MessagesState` reducer does:
    messages are appended, and every other key the node returns overwrites the
    old value.
  - The account lookup, the validation sub-agent, the ticket history and the
    conversation summariser are function parameters.
  - Delivery to the user goes through a `ListChatInterface` object, whose cursor and
    printed output are fields.
- **Demo graph** (`DemoState`, `DemoNodes`, `DemoReservation`, `DemoGraph`).
  `chatgpt.py` is a self-contained graph whose tool client is a fixed mock.
  - Its nodes return the whole state, so they are modelled as state-to-state functions.
  - The reservation worker's token loop is a method proved against a slot-filling
    function.
  - The worker also keeps a yes/no confirmation sub-state in `task.pending`.
- **Chat transports** (`ChatInterfaces`, `UdaHubGraph.ListUserInterface`).
  - The list transports are cursors over a list.
  - `LlmChatInterface` adds a turn budget, filtering of the end token and exit
    words, and a growing history. Its model call is an oracle parameter.
- **Tool servers** (`ToolTables`, `CultpassMcp`, `UdaHubMcp`). The SQL tables are a
  value datatype with one function per tool. A class holding the tables has one
  method per state-changing tool, and one for `get_cultpass_reservations`, whose
  loop it models; each method is proved equal to its function. The other
  read-only tools (`get_cultpass_user`, `get_cultpass_experience`,
  `get_udahub_user`, `find_udahub_user`, `get_udahub_account`) are functions of
  the tables only.
  - Cultpass: the subscription life cycle (active and cancelled, basic to premium),
    and reservations against a `slots_available` counter.
  - UDA Hub: a user table that is unique on its id and on the
    (account id, external user id) pair.
  - Replies are `Ok`, an `{"error": ...}` answer (`Error`), or an exception that
    escapes the tool (`Raised`).
  - `scalar_one_or_none` is `ToolTables.OneOrNone`. It raises when more than one
    row matches.

Generated ids (`uuid4`, `os.urandom`) and clock readings are parameters.

### Behaviour kept as written

These behaviours of the code are modelled as they are, and lemmas make each visible.

- The live supervisor's classification sub-agent is commented out. It therefore
  always picks `escalate_to_human` once no flag applies (`SupervisorNode.Supervisor`).
- A failed validation records a failed task but does not set `terminate_chat`
  (`ValidationNode.ValidationFailureKeepsFlags`).
- Memorization reads the user id under `uda_hub_user_id`, while validation writes
  `udahub_user_id`. A ticket filed for a validated user therefore carries the empty
  user id (`MemorizationNode.TicketOfValidatedUserHasNoUserId`).
- Enrichment writes `loaded_messages_count` into its input state, not into its
  returned update. The merged state never sees it (`EnrichmentNode.LoadedCountNotMerged`).
- Validation stores a missing full name as the text "None"
  (`ValidationNode.MissingFullNameStoredAsNone`). Enrichment then welcomes "None"
  (`EnrichmentNode.GreetingAfterValidation`).
- The browsing worker sets both `has_pending_messages` and `terminate_chat`. The
  supervisor tests termination first, so the pending message is never delivered
  (`Browsing.BrowsingEndsBeforeDelivery`).

## Model

| member | source | states |
|---|---|---|
| McpToolUtils.FoldedTags | starter/agentic/mcp_tool_utils.py:9-14 | the tool's tags, each case-folded, one for one |
| McpToolUtils.Keep | starter/agentic/mcp_tool_utils.py:7-18 | a tool is kept iff it is in the catalogue and meets the criterion; never longer than the catalogue |
| McpToolUtils.KeepIsSubsequence | starter/agentic/mcp_tool_utils.py:7-20 | the kept tools are a subsequence of the catalogue, in catalogue order |
| McpToolUtils.KeepAll | starter/agentic/mcp_tool_utils.py:17-18 | when every tool meets the criterion, the catalogue comes back unchanged |
| McpToolUtils.KeepCommutes | starter/agentic/mcp_tool_utils.py:5-57 | filtering by two criteria in either order gives the same list |
| McpToolUtils.KeepIdempotent | starter/agentic/mcp_tool_utils.py:5-57 | filtering twice by one criterion equals filtering once |
| McpToolUtils.Select | starter/agentic/mcp_tool_utils.py:5-57 | a query returns a fresh filter holding exactly the matching tools, as a subsequence |
| McpToolUtils.ByTags | starter/agentic/mcp_tool_utils.py:5-20 | keeps a tool iff every requested tag, case-folded, is among its case-folded tags; an empty request keeps the filter as it is |
| McpToolUtils.ByMetadata | starter/agentic/mcp_tool_utils.py:22-30 | keeps a tool iff its `_meta[key]` is present and equal to the value |
| McpToolUtils.ByAuthor | starter/agentic/mcp_tool_utils.py:32-33 | is exactly the metadata query on `author`, an exact equality |
| McpToolUtils.ByAnnotationHint | starter/agentic/mcp_tool_utils.py:35-44 | keeps a tool iff its hint, absent read as false, equals the value; asking for false keeps tools without the hint |
| McpToolUtils.ByReadOnly | starter/agentic/mcp_tool_utils.py:46-48 | is the annotation query on `readOnlyHint`; `by_read_only(False)` keeps tools without the hint |
| McpToolUtils.ByName | starter/agentic/mcp_tool_utils.py:50-57 | keeps exactly the tools of that name, in order |
| McpToolUtils.GetAll | starter/agentic/mcp_tool_utils.py:59-60 | the view's tools: empty iff `get_first` gives `None`, else headed by what it gives; after a query it is the catalogue filtered by that query |
| McpToolUtils.GetFirst | starter/agentic/mcp_tool_utils.py:62-63 | `None` iff the view is empty, else element 0 |
| McpToolUtils.FiltersCommute | starter/agentic/mcp_tool_utils.py:5-57 | any two queries commute |
| McpToolUtils.FilterIdempotent | starter/agentic/mcp_tool_utils.py:5-57 | every query is idempotent |
| McpToolUtils.GetFirstByName | starter/agentic/mcp_tool_utils.py:50-63 | the first tool found by name exists iff the catalogue holds a tool of that name, and it is such a tool |
| AgentState.Merge | starter/agentic/state.py:19-24 | the reducer: messages appended after the old ones, returned keys overwritten, an empty update leaves the state as it was |
| AgentState.AiContents | starter/agentic/nodes/chat.py:15 | the AI messages of a thread, never more than the thread |
| AgentState.AiContentsAppend | starter/agentic/nodes/chat.py:15 | extracting AI messages distributes over concatenation |
| AgentState.Undelivered | starter/agentic/nodes/chat.py:16-17 | the AI messages after `last_printed_idx`, as many as lie beyond it |
| SupervisorNode.Supervisor | starter/agentic/nodes/supervisor.py:18-60 | sets only `worker`: "end" iff `terminate_chat`; else "chat" iff input is needed or messages are pending; else always "escalate_to_human" |
| SupervisorNode.SupervisorReadsOnlyFlags | starter/agentic/nodes/supervisor.py:18-60 | states that agree on the three flags get the same decision |
| SupervisorNode.SupervisorOnlyRoutes | starter/agentic/nodes/supervisor.py:21-27 | after the merge only `worker` differs, and it is one of three names; no message is added |
| EscalateToHuman.EscalateToHumanAgent | starter/agentic/agents/escalate_to_human.py:6-12 | one fixed AI message and `terminate_chat`, whatever the state; pending-message and input flags untouched |
| EscalateToHuman.EscalationEndsChat | starter/agentic/agents/escalate_to_human.py:9-12 | merged, it adds the message and raises `terminate_chat` only, so the supervisor then picks "end" |
| Browsing.BrowsingAgent | starter/agentic/agents/browsing.py:6-13 | one fixed AI message, `has_pending_messages` and `terminate_chat` set, no other key |
| Browsing.BrowsingEndsBeforeDelivery | starter/agentic/agents/browsing.py:9-13 | after browsing the message is pending, yet the supervisor routes to "end" |
| ValidationNode.PlatformValidationTools | starter/agentic/nodes/validation.py:32-34 | exactly the UDAHub-authored tools tagged `validation`, in catalogue order |
| ValidationNode.AccountValidationTools | starter/agentic/nodes/validation.py:35-41 | exactly the account-authored, read-only tools tagged `validation`, in catalogue order |
| ValidationNode.ValidationTools | starter/agentic/nodes/validation.py:31-41 | the platform's validation tools followed by the account's |
| ValidationNode.Greeting | starter/agentic/nodes/validation.py:60-77 | a welcome iff a full name came back, then a first-contact notice iff a user was created, nothing else |
| ValidationNode.Validation | starter/agentic/nodes/validation.py:8-88 | an already validated thread gets the empty update; no outcome touches `terminate_chat`, input flags, delivery index or worker |
| ValidationNode.ValidationNeedsAccountTool | starter/agentic/nodes/validation.py:20-23 | without a `get_udahub_account` tool the node raises |
| ValidationNode.ValidationInvalidAccount | starter/agentic/nodes/validation.py:19-28 | an empty account lookup yields exactly the invalid-account message and a failed task |
| ValidationNode.ValidationByAgent | starter/agentic/nodes/validation.py:42-88 | the sub-agent gets exactly the validation tool set; a dumped reply raises, a failure gives the apology and a failed task with its error, a success validates and writes the user |
| ValidationNode.ValidationOutcome | starter/agentic/nodes/validation.py:24-88 | a run that returns either validates and records no task, or records a failed task and does not validate |
| ValidationNode.ValidationOneShot | starter/agentic/nodes/validation.py:9-11 | once a success is merged, a second run returns the empty update |
| ValidationNode.ValidationFailureKeepsFlags | starter/agentic/nodes/validation.py:49-58 | a failure adds one message and a failed task and leaves `is_validated` and `terminate_chat` as they were |
| ValidationNode.MissingFullNameStoredAsNone | starter/agentic/nodes/validation.py:79-88 | a missing full name is stored as the text "None" and produces no welcome |
| EnrichmentNode.ConvertOne | starter/agentic/nodes/enrichment.py:16-21 | an `ai` record becomes an AI message and a `user` record a human message, each only with content; every other record is dropped |
| EnrichmentNode.Convert | starter/agentic/nodes/enrichment.py:16-21 | the converted history is no longer than the records and holds no system message |
| EnrichmentNode.ConvertAppend | starter/agentic/nodes/enrichment.py:16-21 | conversion works record by record, in order |
| EnrichmentNode.ConvertDropsUnknown | starter/agentic/nodes/enrichment.py:16-21 | records of other roles or without content produce nothing |
| EnrichmentNode.Greeting | starter/agentic/nodes/enrichment.py:28-51 | a welcome iff `full_name` is truthy, then a first-contact notice iff `udahub_user_created` is True |
| EnrichmentNode.Enrichment | starter/agentic/nodes/enrichment.py:7-56 | skipped when enriched; with a ticket the converted history and the count written into the input; without one the greeting; always `is_enriched` |
| EnrichmentNode.EnrichmentOneShot | starter/agentic/nodes/enrichment.py:53-56 | every non-skipped run marks the thread enriched and appends exactly its messages |
| EnrichmentNode.LoadedCountNotMerged | starter/agentic/nodes/enrichment.py:26 | the count written into the input does not reach the merged state |
| EnrichmentNode.GreetingAfterValidation | starter/agentic/nodes/enrichment.py:28-51 | after validation the greeting is a welcome naming the account id iff the stored name text is non-empty, and never a first-contact notice |
| ChatInterfaces.ListChatInterface.constructor | starter/agentic/chat_interface.py:17-19 | the cursor starts at 0 over the given list |
| ChatInterfaces.ListChatInterface.Upcoming | starter/agentic/chat_interface.py:21-26 | the element at the cursor, `None` once the cursor reaches the end |
| ChatInterfaces.ListChatInterface.NextMessage | starter/agentic/chat_interface.py:21-26 | returns the element at the cursor and advances by one; at the end returns `None` and the cursor stays |
| ChatInterfaces.ListChatInterface.ReadMessage | starter/agentic/chat_interface.py:28-29 | the message is delivered, appended to the printed output |
| ChatInterfaces.UserTurn | starter/agentic/chat_interface.py:82-88 | the stripped text iff it is non-empty, not the end token and not an exit word |
| ChatInterfaces.LlmChatInterface.constructor | starter/agentic/chat_interface.py:44-68 | the budget is `max_turns` and the history is exactly one system message |
| ChatInterfaces.LlmChatInterface.NextMessage | starter/agentic/chat_interface.py:70-94 | with no budget left, `None` and no change; otherwise one turn spent and an accepted text joins the history as one human message |
| ChatInterfaces.LlmChatInterface.ReadMessage | starter/agentic/chat_interface.py:96-100 | one AI message joins the history iff the text is not blank |
| ChatInterfaces.EndTokenNeverReturned | starter/agentic/chat_interface.py:85-86 | the end token, whatever whitespace surrounds it, is never returned |
| ChatInterfaces.UserTurnNonBlank | starter/agentic/chat_interface.py:82-84 | a returned turn is non-empty and does not start with whitespace |
| ChatOutputNode.DeliverPending | starter/agentic/nodes/chat_output.py:14-16 | delivers exactly the undelivered AI messages, in order, and reads nothing |
| ChatOutputNode.DeliveredIdx | starter/agentic/nodes/chat_output.py:18 | the index of the last AI message; with it recorded nothing is left to deliver (proved in `ChatOutputNode.ChatOutputOnlyRecords`) |
| ChatOutputNode.ChatOutput | starter/agentic/nodes/chat_output.py:6-18 | a missing interface raises; otherwise the undelivered messages are delivered and only the index is returned |
| ChatOutputNode.ChatOutputOnlyRecords | starter/agentic/nodes/chat_output.py:18 | merged, only the index changes, and nothing is left to deliver |
| ChatOutputNode.DeliveredOnceInOrder | starter/agentic/nodes/chat_output.py:14-18 | this delivery and the next one together are the AI messages after the old index, each once, in order |
| ChatNode.Chat | starter/agentic/nodes/chat.py:6-35 | a missing interface raises; otherwise the undelivered messages are delivered and the transport is read iff input is needed |
| ChatNode.ChatMerged | starter/agentic/nodes/chat.py:20-35 | merged: nothing left to deliver, both request flags cleared, at most one human message added, chat ends iff it was ending or no answer came |
| ChatNode.ChatReadsOnlyWhenAsked | starter/agentic/nodes/chat.py:20-27 | when input is not needed, the transport's answer does not matter and termination is unchanged |
| ReadMessageNode.ReadMessage | starter/agentic/nodes/read_message.py:6-24 | a missing interface raises; otherwise exactly one message is requested |
| ReadMessageNode.ReadMessageMerged | starter/agentic/nodes/read_message.py:13-24 | an answer adds one human message; silence sets `terminate_chat`; both clear `need_user_input` |
| ReadMessageNode.SilenceEndsChat | starter/agentic/nodes/read_message.py:15-16 | after silence the supervisor routes to "end" |
| MemorizationNode.StoredMessages | starter/agentic/nodes/memorization.py:56-59 | the messages from `loaded_messages_count` on, a suffix of the thread |
| MemorizationNode.Memorization | starter/agentic/nodes/memorization.py:49-75 | a ticket is filed iff no ticket id is configured, with channel "chat", status "open" and the summary of the new messages; the state is returned unchanged |
| MemorizationNode.TicketOfValidatedUserHasNoUserId | starter/agentic/nodes/memorization.py:54 | for a validated user the ticket's user id is empty, its account id is the user's |
| MemorizationNode.NothingLoadedStoresAll | starter/agentic/nodes/memorization.py:59 | with nothing reloaded the whole thread is summarised |
| UdaHubGraph.ListUserInterface.constructor | starter/agentic/udahub.py:24-26 | the cursor starts at 0 |
| UdaHubGraph.ListUserInterface.NextMessage | starter/agentic/udahub.py:28-33 | `None` at the end with the cursor kept, otherwise the current element and the cursor advanced by one |
| UdaHubGraph.AfterValidation | starter/agentic/udahub.py:82-85 | "end" iff the task status is "failed", else "enrich" |
| UdaHubGraph.Next | starter/agentic/udahub.py:68-77 | the graph enters at validation, goes from enrichment to the supervisor, and leaves validation by the gate |
| UdaHubGraph.ValidationGate | starter/agentic/udahub.py:82-85 | on a fresh thread the gate ends the run iff validation did not validate |
| DemoState.LastUserText | starter/agentic/chatgpt.py:114-118 | a non-empty result is the content of some user message |
| DemoState.LastUserTextSkipsOthers | starter/agentic/chatgpt.py:114-118 | messages of other roles appended later do not change it |
| DemoState.LastUserTextOfNewMessage | starter/agentic/chatgpt.py:114-118 | after a new user message it is that message's text |
| DemoState.UpdateTask | starter/agentic/chatgpt.py:121-124 | an empty update keeps the task, an update of an empty task is the update, and no present key is ever removed |
| DemoState.UpdateTaskIdempotent | starter/agentic/chatgpt.py:121-124 | updating with the same fields again changes nothing |
| DemoState.SetTask | starter/agentic/chatgpt.py:121-124 | only the task changes, to the update of the old task with the fields; an empty update changes nothing; no key holding a value is dropped |
| DemoState.AppendTrace | starter/agentic/chatgpt.py:127-130 | only the trace changes, by exactly one event at its end |
| DemoState.SetTaskIdempotent | starter/agentic/chatgpt.py:121-124 | setting the same fields twice equals setting them once |
| DemoState.SetTaskCompose | starter/agentic/chatgpt.py:121-124 | two updates in a row equal one update with the later fields winning |
| DemoNodes.Validation | starter/agentic/chatgpt.py:138-168 | an already valid user leaves the state unchanged; otherwise the user is marked valid iff the mock accepts the id; messages and trace are only ever extended |
| DemoNodes.ValidationRejects | starter/agentic/chatgpt.py:148-161 | a rejected user: task "error"/"invalid_user", `is_valid` false, one assistant message, one trace event, nothing else |
| DemoNodes.ValidationAccepts | starter/agentic/chatgpt.py:163-168 | an accepted user is marked valid; a missing status becomes "needs_action", an existing one is kept |
| DemoNodes.ValidationIdempotent | starter/agentic/chatgpt.py:140-142 | once accepted, validating again changes nothing |
| DemoNodes.Enrichment | starter/agentic/chatgpt.py:171-189 | an already enriched state is returned unchanged; the result is always marked enriched; messages and trace are only ever extended |
| DemoNodes.EnrichmentOnce | starter/agentic/chatgpt.py:173-189 | the mock profile and subscription fields are merged once, `enriched` set, and a second run is a no-op |
| DemoNodes.KeywordRoute | starter/agentic/chatgpt.py:205-212 | reservation words first, then subscription, then human words, else "faq"; each iff its list matches and no earlier one does |
| DemoNodes.Supervisor | starter/agentic/chatgpt.py:192-215 | always stores a route; messages and trace are only extended |
| DemoNodes.SupervisorLadder | starter/agentic/chatgpt.py:193-215 | a done or errored task goes to "finish" first, then a pending reservation to "reservation" whatever the text, then the keyword route with one trace event |
| DemoNodes.FaqAgent | starter/agentic/chatgpt.py:221-228 | messages and trace are only ever extended |
| DemoNodes.SubscriptionAgent | starter/agentic/chatgpt.py:234-242 | messages and trace are only ever extended |
| DemoNodes.AnsweringWorkersFinish | starter/agentic/chatgpt.py:221-242 | both workers add one assistant answer, mark the task done with that answer and keep the pending action |
| DemoNodes.Memorization | starter/agentic/chatgpt.py:372-377 | messages and trace are only ever extended |
| DemoReservation.LastMatch | starter/agentic/chatgpt.py:322-330 | the last token meeting the test, so a later match overrides an earlier one; `None` iff none does |
| DemoReservation.ScanTokens | starter/agentic/chatgpt.py:319-330 | the token loop fills exactly the slots of the last matching date, time and party-size tokens |
| DemoReservation.Missing | starter/agentic/chatgpt.py:332-338 | empty iff all three slots are filled |
| DemoReservation.ReservationStep | starter/agentic/chatgpt.py:248-366 | every branch adds exactly one assistant message and only extends messages and trace |
| DemoReservation.ReservationAgent | starter/agentic/chatgpt.py:248-366 | the worker with its token loop computes the reservation step |
| DemoReservation.MissingSlotAsks | starter/agentic/chatgpt.py:340-346 | a missing slot gives "awaiting_user" and records no pending action |
| DemoReservation.FilledSlotsAwaitConfirmation | starter/agentic/chatgpt.py:348-365 | filled slots are parked as a pending `create_reservation` with exactly that payload, status "awaiting_user" |
| DemoReservation.FilledSlotsWellFormed | starter/agentic/chatgpt.py:323-330 | a filled date and time have their shapes and a party size lies in 1..20 |
| DemoReservation.ConfirmationYes | starter/agentic/chatgpt.py:267-288 | a yes-word books: pending cleared, task done, the confirmation is the answer and the final answer |
| DemoReservation.ConfirmationNo | starter/agentic/chatgpt.py:290-299 | a no-word without a yes-word clears pending and sets "needs_action" |
| DemoReservation.ConfirmationUnclear | starter/agentic/chatgpt.py:301-311 | any other reply re-asks and keeps the pending reservation |
| DemoReservation.YesWinsOverNo | starter/agentic/chatgpt.py:267-290 | a reply holding both kinds of word books |
| DemoGraph.GateAfterValidation | starter/agentic/chatgpt.py:385-389 | "end" iff the status is "error", else "enrich" |
| DemoGraph.RouteFromSupervisor | starter/agentic/chatgpt.py:392-393 | the stored route, "faq" when none |
| DemoGraph.AfterWorker | starter/agentic/chatgpt.py:396-402 | "wait" iff awaiting the user, "memorize" iff done or errored, otherwise, a missing status included, "supervisor" |
| DemoGraph.Next | starter/agentic/chatgpt.py:423-476 | only the end has no successor; enrichment leads to the supervisor and memorization to the end |
| DemoGraph.GateAfterFirstValidation | starter/agentic/chatgpt.py:385-389 | after a first validation the run ends iff the user was rejected or the task had already errored |
| DemoGraph.SupervisorRouteFollowed | starter/agentic/chatgpt.py:392-393 | after the supervisor the "faq" fallback is never taken |
| DemoGraph.AnsweringWorkersMemorize | starter/agentic/chatgpt.py:396-402 | the FAQ and subscription workers always go on to memorization |
| DemoGraph.PendingReservationResumes | starter/agentic/chatgpt.py:197-200 | a pending reservation makes the run wait, and the next user turn goes straight back to the reservation worker |
| DemoGraph.BackToSupervisorOnlyAfterDecline | starter/agentic/chatgpt.py:396-402 | the only worker result that returns to the supervisor is a declined reservation, pending dropped |
| DemoGraph.SupervisorLoopRunsTwiceAtMost | starter/agentic/chatgpt.py:436-474 | within one user turn the supervisor-worker loop returns to the supervisor at most once |
| ToolTables.Find | starter/mcp_servers/cultpass_mcp.py:261 | the first matching row; `None` iff no row matches |
| ToolTables.OneOrNone | starter/mcp_servers/udahub_mcp.py:90-94 | raises iff more than one row matches; `None` iff none does; otherwise the one matching row |
| CultpassMcp.GetUser | starter/mcp_servers/cultpass_mcp.py:53-85 | the error iff the user is missing; raises iff the user has no subscription; otherwise the user |
| CultpassMcp.GetExperience | starter/mcp_servers/cultpass_mcp.py:371-393 | the experience iff it exists, else the not-found error |
| CultpassMcp.CancelSubscriptionStep | starter/mcp_servers/cultpass_mcp.py:99-118 | succeeds iff the subscription is active; a failure changes nothing; success makes it cancelled, ended at `now`, nothing else changed |
| CultpassMcp.ReactivateSubscriptionStep | starter/mcp_servers/cultpass_mcp.py:132-151 | succeeds iff the subscription is cancelled; success makes it active with no end date |
| CultpassMcp.UpgradeSubscriptionStep | starter/mcp_servers/cultpass_mcp.py:165-186 | the errors in order (no user, not active, already premium); success sets the tier to premium only |
| CultpassMcp.OwnRows | starter/mcp_servers/cultpass_mcp.py:203-208 | every result row is the user's and every row of the user is in the result |
| CultpassMcp.OwnRowsAppend | starter/mcp_servers/cultpass_mcp.py:203-208 | selection distributes over concatenation, so table order and repeated rows are kept |
| CultpassMcp.OwnRowsOne | starter/mcp_servers/cultpass_mcp.py:203-208 | a single row is selected iff it belongs to the user |
| CultpassMcp.Reservations | starter/mcp_servers/cultpass_mcp.py:200-231 | the user's rows joined with their experiences; raises iff one of them lacks its experience |
| CultpassMcp.CancelReservationStep | starter/mcp_servers/cultpass_mcp.py:250-272 | no matching row gives the not-found error and several raise; for the one matching row: already cancelled gives that error, live with an existing experience succeeds, live without one raises; a success cancels that row and frees one slot; a failure changes nothing |
| CultpassMcp.MakeReservationStep | starter/mcp_servers/cultpass_mcp.py:291-353 | succeeds iff every guard passes and the id is fresh; each guard's error (user missing, blocked, no active subscription, already reserved, experience missing, no slots, premium only) holds exactly when the earlier guards pass; success adds a "reserved" row and takes one slot; a failure changes nothing |
| CultpassMcp.CultpassDb.CancelSubscription | starter/mcp_servers/cultpass_mcp.py:99-118 | the in-place update computes the cancel step |
| CultpassMcp.CultpassDb.ReactivateSubscription | starter/mcp_servers/cultpass_mcp.py:132-151 | the in-place update computes the reactivate step |
| CultpassMcp.CultpassDb.UpgradeSubscription | starter/mcp_servers/cultpass_mcp.py:165-186 | the in-place update computes the upgrade step |
| CultpassMcp.CultpassDb.GetReservations | starter/mcp_servers/cultpass_mcp.py:200-231 | the loop over the rows computes the joined reservations |
| CultpassMcp.CultpassDb.CancelReservation | starter/mcp_servers/cultpass_mcp.py:250-272 | the in-place update computes the cancel step |
| CultpassMcp.CultpassDb.MakeReservation | starter/mcp_servers/cultpass_mcp.py:291-353 | the in-place insert computes the make step |
| CultpassMcp.CancelThenReactivate | starter/mcp_servers/cultpass_mcp.py:111-151 | cancel then reactivate restores the active subscription with its end date cleared |
| CultpassMcp.CancelTwiceFails | starter/mcp_servers/cultpass_mcp.py:111-112 | a second cancel fails and changes nothing |
| CultpassMcp.UpgradeTwiceFails | starter/mcp_servers/cultpass_mcp.py:180-181 | a second upgrade answers that the user already is premium |
| CultpassMcp.UniqueIdsMatchOnce | starter/mcp_servers/cultpass_mcp.py:253-261 | unique reservation ids match at most one row |
| CultpassMcp.ValidCancelNeverRaises | starter/mcp_servers/cultpass_mcp.py:250-272 | on valid tables a cancellation never raises |
| CultpassMcp.SubscriptionToolsKeepValid | starter/mcp_servers/cultpass_mcp.py:99-186 | the subscription tools keep the tables valid and free of double bookings |
| CultpassMcp.MakeReservationKeepsValid | starter/mcp_servers/cultpass_mcp.py:328-344 | a reservation keeps the tables valid: slots never go negative, keys exist, ids stay unique |
| CultpassMcp.CancelReservationKeepsValid | starter/mcp_servers/cultpass_mcp.py:265-270 | a cancellation keeps the tables valid |
| CultpassMcp.MakeReservationNoDoubleBooking | starter/mcp_servers/cultpass_mcp.py:309-318 | no user gets two live reservations for one experience; only an id clash can raise |
| CultpassMcp.CancelReservationNoDoubleBooking | starter/mcp_servers/cultpass_mcp.py:265-270 | a cancellation keeps at most one live booking per user and experience |
| CultpassMcp.MakeReservationConservesSlots | starter/mcp_servers/cultpass_mcp.py:336-344 | free slots plus live reservations stay the same for every experience |
| CultpassMcp.CancelReservationConservesSlots | starter/mcp_servers/cultpass_mcp.py:268-270 | free slots plus live reservations stay the same for every experience |
| CultpassMcp.MakeThenCancel | starter/mcp_servers/cultpass_mcp.py:336-344 | a reservation just made can be cancelled by its user, giving its slot back; the row stays, cancelled |
| UdaHubMcp.CreateUserStep | starter/mcp_servers/udahub_mcp.py:42-69 | succeeds iff neither the id nor the pair is taken, appending the user with the given fields; otherwise the duplicate-user error and no change |
| UdaHubMcp.GetUser | starter/mcp_servers/udahub_mcp.py:87-105 | `None` iff no user has the id; raises iff several do; a found user has the id and is in the table |
| UdaHubMcp.FindExternalUser | starter/mcp_servers/udahub_mcp.py:124-147 | `None` iff no user has the account and external id pair; raises iff several do; a found user matches both |
| UdaHubMcp.GetAccount | starter/mcp_servers/udahub_mcp.py:165-181 | the account iff it exists, else `None` |
| UdaHubMcp.UdaHubDb.CreateUser | starter/mcp_servers/udahub_mcp.py:42-69 | the insert or rollback computes the create step |
| UdaHubMcp.ValidLookupsNeverRaise | starter/mcp_servers/udahub_mcp.py:90-91 | on tables with unique keys both lookups never raise |
| UdaHubMcp.CreateUserKeepsValid | starter/mcp_servers/udahub_mcp.py:46-53 | a create keeps both keys unique |
| UdaHubMcp.CreatedUserIsFound | starter/mcp_servers/udahub_mcp.py:46-69 | a created user is found by id and by its pair, and creating the pair again gives the duplicate-user error |

## Left out

- Language-model calls are parameters that return their result:
  - the user-validation sub-agent, including its dict fallback, is the `agent` parameter of `ValidationNode.Validation`;
  - the conversation summariser is the `summarize` parameter of `MemorizationNode.Memorization`;
  - the `LlmChatInterface` model call is the `llm` parameter.
  Their prompts are not modelled.
- `LlmChatInterface` extracts the text from a result through `content`, `get` or
  `str`. The model takes the text directly. The optional `on_generated` callback is
  not modelled.
- The commented-out classification sub-agent of the live supervisor is not modelled.
  `SupervisorAnalysis` and `Priority` are kept only as the datatypes whose defaults
  the code declares.
- LangGraph machinery is not modelled:
  - graph compilation and `MemorySaver` checkpointing;
  - async execution;
  - `add_messages` message ids and its conversion of dict messages. The demo graph
    passes dict messages through `add_messages` (starter/agentic/chatgpt.py:152, 224,
    513). If they come back as message objects, `last_user_text`'s `m.get("role")`
    (starter/agentic/chatgpt.py:116) fails on them. The model keeps the messages as
    role and content records, so it does not capture that failure.

  Only the edge functions and the "append messages, overwrite returned keys" merge
  are modelled. A node that returns its input state is modelled as the empty update.
- Console and network I/O is not modelled: `ConsoleChatInterface`,
  `ConsoleUserInterface`, `start_chat`, `run_demo`, the MCP client set-up, `mcp.run`,
  `print` and logging. `ListChatInterface.read_message` is modelled as appending to
  a `printed` field.
- Ids and clocks are parameters: `uuid4`, `os.urandom`, `created_at`, `updated_at`,
  `started_at` and `ended_at`. Timestamps that replies only format are dropped.
- The ORM model files and the SQLite engine are not part of this model. Three
  assumptions follow:
  - a user may have no subscription;
  - foreign keys are not enforced;
  - rows come back in table order.
- The knowledge-base server, its sync and learning nodes, the thin database wrappers,
  the stub workers, `math_mcp.py` and `testing_utils.py` are not part of this model.
- `AgentState.Undelivered`, `ChatOutputNode.DeliverPending`, `ChatOutputNode.ChatOutput` and `ChatNode.Chat`: require `last_printed_idx >= -1`. Python would index from the end for a smaller value. No node ever writes such a value.
- Text.Lower: lower-cases ASCII and Latin-1 letters only. Python's `lower` and `casefold` cover all of Unicode; `casefold` also expands letters such as "ß".
- Text.IsDigits: accepts ASCII digits only. Python's `isdigit` also accepts other Unicode digits. A token such as "²" passes `isdigit` but makes `int` raise `ValueError` at starter/agentic/chatgpt.py:327-328; the model ignores that token instead. A token such as "٣" converts to 3 in Python and is ignored by the model.
- Text.Strip, Text.IsSpace and Text.Split: treat only ASCII and Latin-1 whitespace as whitespace. Python's `strip` and `split` also recognise other Unicode spaces.
- UdaHubGraph.ListUserInterface.constructor: takes the message list as an argument. The source class (starter/agentic/udahub.py:24-26) declares `messages` without an `__init__`, so it must be assigned after construction; the model assumes it was.
- DemoNodes.Memorization: the mock `store_conversation` does nothing, so only the trace event is modelled.
- UdaHubMcp.CreateUserStep: the account foreign key is not checked; only the two unique keys are.
