/**
 * The chat transports.  A transport hands the agent the user's next message
 * (`None` once the conversation is over) and takes the agent's messages.
 *
 * `ListChatInterface` replays a fixed script through a cursor and prints what
 * it is given; the printed lines are kept in `printed`.
 * `LlmChatInterface` lets a language model play the user: it keeps the whole
 * conversation in `history`, spends one turn of a budget per request, and
 * filters the generated text.  The model itself is a parameter
 * `llm(history)` giving the text of its answer.
 */
module ChatInterfaces {
  import opened Wrappers
  import opened Text
  import opened AgentState

  /** `if not message:` - the transport gave a non-empty message. */
  predicate Answered(reply: Option<string>) {
    reply.Some? && reply.value != ""
  }

  class ListChatInterface {
    const messages: seq<string>
    var i: nat
    var printed: seq<string>

    constructor(messages: seq<string>)
      ensures this.messages == messages && i == 0 && printed == []
    {
      this.messages := messages;
      i := 0;
      printed := [];
    }

    /** What the next `next_message` call returns. */
    function Upcoming(): (r: Option<string>)
      reads this
      ensures r.Some? <==> i < |messages|
      ensures r.Some? ==> r.value == messages[i]
    {
      if i >= |messages| then None else Some(messages[i])
    }

    /** `next_message`: the script in order, then `None` forever with the cursor parked. */
    method NextMessage() returns (r: Option<string>)
      modifies this
      ensures r == old(Upcoming())
      ensures i == if old(i) < |messages| then old(i) + 1 else old(i)
      ensures printed == old(printed)
    {
      if i >= |messages| {
        return None;
      }
      r := Some(messages[i]);
      i := i + 1;
    }

    /** `read_message`: print the message. */
    method ReadMessage(message: string)
      modifies this
      ensures printed == old(printed) + [message] && i == old(i)
    {
      printed := printed + [message];
    }
  }

  /** The system message the simulated user starts from. */
  function SystemPrompt(instructions: string, endToken: string): string {
    Strip(instructions) + "\n\n"
    + "You are simulating the USER in a chat with an assistant.\n"
    + "Rules:\n"
    + "- Output ONLY the user's next message as plain text.\n"
    + "- If the conversation should end, output exactly: " + endToken + "\n"
  }

  /** Generated text that ends the conversation: `exit` or `quit` in any case. */
  predicate IsExitWord(text: string) {
    Lower(text) == "exit" || Lower(text) == "quit"
  }

  /**
   * The user turn made of one generated text: the stripped text, unless it is
   * empty, the end token, or an exit word.
   */
  function UserTurn(generated: string, endToken: string): (r: Option<string>)
    ensures r.Some? <==> Strip(generated) != "" && Strip(generated) != endToken && !IsExitWord(Strip(generated))
    ensures r.Some? ==> r.value == Strip(generated)
  {
    var text := Strip(generated);
    if text == "" then None
    else if text == endToken then None
    else if IsExitWord(text) then None
    else Some(text)
  }

  /** An agent message is kept in the history iff it is not blank. */
  predicate Kept(message: string) {
    Strip(message) != ""
  }

  class LlmChatInterface {
    var turnsLeft: int
    const endToken: string
    var history: seq<Message>

    constructor(instructions: string, maxTurns: int, endToken: string)
      ensures turnsLeft == maxTurns && this.endToken == endToken
      ensures history == [SystemMessage(SystemPrompt(instructions, endToken))]
    {
      turnsLeft := maxTurns;
      this.endToken := endToken;
      history := [SystemMessage(SystemPrompt(instructions, endToken))];
    }

    /**
     * `next_message`: with the budget spent, `None` without asking the model;
     * otherwise one turn is spent and the filtered answer, when there is one,
     * joins the history as a human message.
     */
    method NextMessage(llm: seq<Message> -> string) returns (r: Option<string>)
      modifies this
      ensures old(turnsLeft) <= 0 ==> r == None && turnsLeft == old(turnsLeft) && history == old(history)
      ensures old(turnsLeft) > 0 ==>
        && turnsLeft == old(turnsLeft) - 1
        && r == UserTurn(llm(old(history)), endToken)
        && history == old(history) + (if r.Some? then [HumanMessage(r.value)] else [])
    {
      if turnsLeft <= 0 {
        return None;
      }
      turnsLeft := turnsLeft - 1;
      var userText := Strip(llm(history));
      if userText == "" {
        return None;
      }
      if userText == endToken {
        return None;
      }
      if IsExitWord(userText) {
        return None;
      }
      history := history + [HumanMessage(userText)];
      r := Some(userText);
    }

    /** `read_message`: the agent's message joins the history unless it is blank. */
    method ReadMessage(message: string)
      modifies this
      ensures history == old(history) + (if Kept(message) then [AiMessage(message)] else [])
      ensures turnsLeft == old(turnsLeft)
    {
      if Strip(message) != "" {
        history := history + [AiMessage(message)];
      }
    }
  }

  /** The end token itself never reaches the agent, whatever surrounds it in whitespace. */
  lemma EndTokenNeverReturned(generated: string, endToken: string)
    requires Strip(generated) == endToken
    ensures UserTurn(generated, endToken) == None
  {
  }

  /** A returned user turn is never blank: the agent never receives an empty message from this transport. */
  lemma UserTurnNonBlank(generated: string, endToken: string)
    requires UserTurn(generated, endToken).Some?
    ensures UserTurn(generated, endToken).value != ""
    ensures !IsSpace(UserTurn(generated, endToken).value[0])
  {
  }
}
