/**
 * The live graph's validation node.  It runs once per thread: it checks the
 * account with the `get_udahub_account` tool, hands a curated tool set to the
 * user-validation sub-agent, and maps the sub-agent's answer to a state update.
 * Both awaited calls are parameters: `invoke(tool, accountId)` is the account
 * tool's response, `agent(tools, accountId, externalUserId)` the sub-agent's reply.
 */
module ValidationNode {
  import opened Wrappers
  import opened AgentState
  import opened McpToolUtils

  /** `UserValidationResult`, the sub-agent's structured answer. */
  datatype UserValidationResult = UserValidationResult(
    accountId: string,
    udaHubUserId: Option<string>,
    fullName: Option<string>,
    externalUserId: string,
    udaHubUserCreated: bool,
    validationSuccessfull: bool,
    errorMessage: Option<string>)

  /**
   * What `user_validation_agent` returns: the structured result, or (after a
   * recursion-limit error) the same fields already dumped to a plain dictionary,
   * which has no attribute `validation_successfull`.
   */
  datatype AgentReply = Structured(result: UserValidationResult) | Dumped(result: UserValidationResult)

  const AccountToolName := "get_udahub_account"
  const InvalidAccountText := "The provided account ID is invalid."
  const InvalidAccountError := "Invalid account ID"

  function UnableToValidateText(accountId: string): string {
    "I was unable to validate your identity. If this issue persists please reach out to '" + accountId + "'."
  }

  function WelcomeText(fullName: string, accountId: string): string {
    "Welcome " + fullName + "!\n" + "I am UDA Hub and I will be helping you on behalf of " + accountId + "."
  }

  function FirstContactText(udaHubUserId: string): string {
    "It seems like I am serving you the first time. I created a new UDA Hub user for you to keep context."
    + "Your user ID with me is " + udaHubUserId
  }

  /** `user.get("account_id", "")`. */
  function AccountId(s: State): string {
    if "account_id" in s.user then ValueText(s.user["account_id"]) else ""
  }

  /** `user.get("external_user_id", "")`. */
  function ExternalUserId(s: State): string {
    if "external_user_id" in s.user then ValueText(s.user["external_user_id"]) else ""
  }

  /** The account tool: the first catalogue tool named `get_udahub_account`, if any. */
  function AccountTool(tools: seq<Tool>): Option<Tool> {
    GetFirst(ByName(McpToolFilter(tools), AccountToolName))
  }

  /**
   * `part` lists, in catalogue order, exactly the catalogue tools written by
   * `author` that carry the `validation` tag (and are read-only when `readOnly`).
   */
  ghost predicate ValidationPart(part: seq<Tool>, tools: seq<Tool>, author: string, readOnly: bool) {
    && IsSubsequence(part, tools)
    && forall t :: t in part <==>
         && t in tools
         && "author" in t.meta && t.meta["author"] == author
         && HasTags(t, ["validation"])
         && (readOnly ==> HintValue(t, "readOnlyHint"))
  }

  /** The platform half of the validation tool set. */
  function PlatformValidationTools(tools: seq<Tool>): (r: seq<Tool>)
    ensures ValidationPart(r, tools, "UDAHub", false)
  {
    var byPlatform := ByAuthor(McpToolFilter(tools), "UDAHub");
    var platform := ByTags(byPlatform, ["validation"]);
    SubsequenceTransitive(platform.tools, byPlatform.tools, tools);
    GetAll(platform)
  }

  /** The account half of the validation tool set. */
  function AccountValidationTools(tools: seq<Tool>, accountId: string): (r: seq<Tool>)
    ensures ValidationPart(r, tools, accountId, true)
  {
    var byAccount := ByAuthor(McpToolFilter(tools), accountId);
    var readOnly := ByReadOnly(byAccount, true);
    var account := ByTags(readOnly, ["validation"]);
    SubsequenceTransitive(readOnly.tools, byAccount.tools, tools);
    SubsequenceTransitive(account.tools, readOnly.tools, tools);
    GetAll(account)
  }

  /**
   * The tools handed to the sub-agent: the platform's (`UDAHub`) validation tools,
   * then the account's own read-only validation tools.
   */
  function ValidationTools(tools: seq<Tool>, accountId: string): (r: seq<Tool>)
    ensures exists k :: (0 <= k <= |r|
      && ValidationPart(r[..k], tools, "UDAHub", false)
      && ValidationPart(r[k..], tools, accountId, true))
  {
    var platform := PlatformValidationTools(tools);
    var account := AccountValidationTools(tools, accountId);
    var r := platform + account;
    assert r[..|platform|] == platform;
    assert r[|platform|..] == account;
    r
  }

  /** A full name came back: `if result.full_name:`. */
  predicate Named(v: UserValidationResult) {
    v.fullName.Some? && v.fullName.value != ""
  }

  /**
   * The greeting of a successful validation: a welcome iff a full name came back,
   * then the first-contact notice iff a user was created, and nothing else.
   */
  function Greeting(v: UserValidationResult): (msgs: seq<Message>)
    ensures |msgs| == (if Named(v) then 1 else 0) + (if v.udaHubUserCreated then 1 else 0)
    ensures Named(v) ==> msgs[0] == AiMessage(WelcomeText(v.fullName.value, v.accountId))
    ensures v.udaHubUserCreated ==> msgs[|msgs| - 1] == AiMessage(FirstContactText(Format(v.udaHubUserId)))
  {
    (if Named(v) then [AiMessage(WelcomeText(v.fullName.value, v.accountId))] else [])
    + (if v.udaHubUserCreated then [AiMessage(FirstContactText(Format(v.udaHubUserId)))] else [])
  }

  /** The `user` entry written on success: four string keys, `None` results formatted as "None". */
  function ValidatedUser(accountId: string, externalUserId: string, v: UserValidationResult): UserContext {
    map[
      "account_id" := Str(accountId),
      "external_user_id" := Str(externalUserId),
      "udahub_user_id" := Str(Format(v.udaHubUserId)),
      "full_name" := Str(Format(v.fullName))]
  }

  /** `validation_node`. */
  function Validation(
    s: State,
    tools: seq<Tool>,
    invoke: (Tool, string) -> string,
    agent: (seq<Tool>, string, string) -> AgentReply): (r: NodeResult)
    ensures s.isValidated ==> r == Returned(NoUpdate)
    ensures r.Returned? ==> r.update.terminateChat == None && r.update.needUserInput == None
                            && r.update.lastPrintedIdx == None && r.update.worker == None
  {
    if s.isValidated then Returned(NoUpdate)
    else
      var accountId := AccountId(s);
      var externalUserId := ExternalUserId(s);
      match AccountTool(tools)
      case None => Raised("AttributeError: 'NoneType' object has no attribute 'ainvoke'")
      case Some(tool) =>
        if invoke(tool, accountId) == "" then
          Returned(NoUpdate.(messages := [AiMessage(InvalidAccountText)],
                             task := Some(TaskContext("failed", InvalidAccountError))))
        else
          match agent(ValidationTools(tools, accountId), accountId, externalUserId)
          case Dumped(_) => Raised("AttributeError: 'dict' object has no attribute 'validation_successfull'")
          case Structured(v) =>
            if !v.validationSuccessfull then
              Returned(NoUpdate.(messages := [AiMessage(UnableToValidateText(accountId))],
                                 task := Some(TaskContext("failed", Format(v.errorMessage)))))
            else
              Returned(NoUpdate.(messages := Greeting(v),
                                 isValidated := Some(true),
                                 user := Some(ValidatedUser(accountId, externalUserId, v))))
  }

  /** A catalogue without the account tool makes the node fail on the missing tool. */
  lemma ValidationNeedsAccountTool(
    s: State, tools: seq<Tool>,
    invoke: (Tool, string) -> string, agent: (seq<Tool>, string, string) -> AgentReply)
    requires !s.isValidated
    ensures Validation(s, tools, invoke, agent).Raised? <== (forall t :: t in tools ==> t.name != AccountToolName)
  {
    if forall t :: t in tools ==> t.name != AccountToolName {
      GetFirstByName(McpToolFilter(tools), AccountToolName);
    }
  }

  /** An empty account response: one message, a failed task, and nothing else. */
  lemma ValidationInvalidAccount(
    s: State, tools: seq<Tool>,
    invoke: (Tool, string) -> string, agent: (seq<Tool>, string, string) -> AgentReply)
    requires !s.isValidated && AccountTool(tools).Some?
    requires invoke(AccountTool(tools).value, AccountId(s)) == ""
    ensures Validation(s, tools, invoke, agent)
         == Returned(NoUpdate.(messages := [AiMessage(InvalidAccountText)],
                               task := Some(TaskContext("failed", InvalidAccountError))))
  {
  }

  /**
   * Otherwise the sub-agent, given exactly the validation tool set, decides:
   * a dumped reply raises, an unsuccessful one yields an apology and a failed
   * task carrying its error message, a successful one validates the thread.
   */
  lemma ValidationByAgent(
    s: State, tools: seq<Tool>,
    invoke: (Tool, string) -> string, agent: (seq<Tool>, string, string) -> AgentReply)
    requires !s.isValidated && AccountTool(tools).Some?
    requires invoke(AccountTool(tools).value, AccountId(s)) != ""
    ensures var reply := agent(ValidationTools(tools, AccountId(s)), AccountId(s), ExternalUserId(s));
      var r := Validation(s, tools, invoke, agent);
      && (reply.Dumped? ==> r.Raised?)
      && (reply.Structured? && !reply.result.validationSuccessfull ==>
            r == Returned(NoUpdate.(messages := [AiMessage(UnableToValidateText(AccountId(s)))],
                                    task := Some(TaskContext("failed", Format(reply.result.errorMessage))))))
      && (reply.Structured? && reply.result.validationSuccessfull ==>
            r == Returned(NoUpdate.(messages := Greeting(reply.result),
                                    isValidated := Some(true),
                                    user := Some(ValidatedUser(AccountId(s), ExternalUserId(s), reply.result)))))
  {
  }

  /**
   * A first run that returns either validates the thread and records no task,
   * or leaves it unvalidated and records a failed task.
   */
  lemma ValidationOutcome(
    s: State, tools: seq<Tool>,
    invoke: (Tool, string) -> string, agent: (seq<Tool>, string, string) -> AgentReply)
    requires !s.isValidated
    requires Validation(s, tools, invoke, agent).Returned?
    ensures var u := Validation(s, tools, invoke, agent).update;
      || (u.isValidated == Some(true) && u.task == None)
      || (u.isValidated == None && u.task.Some? && u.task.value.status == "failed")
  {
    if invoke(AccountTool(tools).value, AccountId(s)) == "" {
      ValidationInvalidAccount(s, tools, invoke, agent);
    } else {
      ValidationByAgent(s, tools, invoke, agent);
    }
  }

  /** Validation is one-shot: once its update is merged, running it again changes nothing. */
  lemma ValidationOneShot(
    s: State, tools: seq<Tool>,
    invoke: (Tool, string) -> string, agent: (seq<Tool>, string, string) -> AgentReply)
    requires Validation(s, tools, invoke, agent).Returned?
    requires Validation(s, tools, invoke, agent).update.isValidated == Some(true)
    ensures Validation(Merge(s, Validation(s, tools, invoke, agent).update), tools, invoke, agent)
         == Returned(NoUpdate)
  {
  }

  /**
   * A failed validation appends exactly one message, marks the task failed and
   * leaves `is_validated` and `terminate_chat` as they were.
   */
  lemma ValidationFailureKeepsFlags(
    s: State, tools: seq<Tool>,
    invoke: (Tool, string) -> string, agent: (seq<Tool>, string, string) -> AgentReply)
    requires !s.isValidated
    requires Validation(s, tools, invoke, agent).Returned?
    requires Validation(s, tools, invoke, agent).update.isValidated != Some(true)
    ensures var t := Merge(s, Validation(s, tools, invoke, agent).update);
      && |t.messages| == |s.messages| + 1
      && t.task.Some? && t.task.value.status == "failed"
      && !t.isValidated && t.terminateChat == s.terminateChat
  {
  }

  /**
   * A successful result without a full name still stores `full_name`: as the
   * text "None", which later reads as a present, non-empty name.
   */
  lemma MissingFullNameStoredAsNone(accountId: string, externalUserId: string, v: UserValidationResult)
    requires v.fullName.None?
    ensures ValidatedUser(accountId, externalUserId, v)["full_name"] == Str("None")
    ensures Greeting(v) == if v.udaHubUserCreated then [AiMessage(FirstContactText(Format(v.udaHubUserId)))] else []
  {
  }
}
