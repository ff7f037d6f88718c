/**
 * The demo graph's validation, enrichment, supervisor, FAQ, subscription and
 * memorization nodes.  The demo's tool client is a fixed mock, so its answers
 * are written out: a user id is valid iff it is non-empty and not "blocked",
 * the profile is the locale "de-DE" and the subscription status is "active".
 * Storing the conversation does nothing and is not modelled.
 */
module DemoNodes {
  import opened Wrappers
  import opened Text
  import opened DemoState

  /** The mock `validate_user`. */
  predicate ValidUserId(userId: string) {
    userId != "" && userId != "blocked"
  }

  const AuthFailedText := "Ich konnte dich leider nicht authentifizieren."

  /** `validation_node`. */
  function Validation(s: GraphState): (r: GraphState)
    ensures Extends(s, r)
    ensures s.user.isValid == Some(true) ==> r == s
    ensures s.user.isValid != Some(true) ==> r.user.isValid == Some(ValidUserId(s.user.userId.GetOr("")))
  {
    if s.user.isValid == Some(true) then s
    else
      var userId := s.user.userId.GetOr("");
      var ok := ValidUserId(userId);
      var user := s.user.(isValid := Some(ok));
      if !ok then
        var s1 := SetTask(s, NoTaskFields.(status := Some("error"), error := Some("invalid_user")));
        var s2 := AppendTrace(s1.(user := user), ValidationFailed(userId));
        Say(s2, AuthFailedText)
      else
        var s1 := AppendTrace(s.(user := user), Validated(userId));
        if s1.task.status.None? then SetTask(s1, NoTaskFields.(status := Some("needs_action"))) else s1
  }

  /**
   * A rejected user: the task fails with "invalid_user", the user is marked
   * invalid, one assistant message and one trace event are added, nothing else changes.
   */
  lemma ValidationRejects(s: GraphState)
    requires s.user.isValid != Some(true) && !ValidUserId(s.user.userId.GetOr(""))
    ensures Validation(s) == GraphState(
      s.messages + [ChatMsg("assistant", AuthFailedText)],
      s.user.(isValid := Some(false)),
      s.task.(status := Some("error"), error := Some("invalid_user")),
      s.route,
      s.trace + [ValidationFailed(s.user.userId.GetOr(""))])
  {
  }

  /** An accepted user: marked valid, a missing status becomes "needs_action", an existing one is kept. */
  lemma ValidationAccepts(s: GraphState)
    requires s.user.isValid != Some(true) && ValidUserId(s.user.userId.GetOr(""))
    ensures Validation(s) == GraphState(
      s.messages,
      s.user.(isValid := Some(true)),
      if s.task.status.None? then s.task.(status := Some("needs_action")) else s.task,
      s.route,
      s.trace + [Validated(s.user.userId.GetOr(""))])
  {
  }

  /** Once validation accepted the user, validating again changes nothing. */
  lemma ValidationIdempotent(s: GraphState)
    requires Validation(s).user.isValid == Some(true)
    ensures Validation(Validation(s)) == Validation(s)
  {
  }

  /** `enrichment_node`, with the mock profile and subscription. */
  function Enrichment(s: GraphState): (r: GraphState)
    ensures Extends(s, r)
    ensures s.user.enriched == Some(true) ==> r == s
    ensures r.user.enriched == Some(true)
  {
    if s.user.enriched == Some(true) then s
    else
      var user := s.user.(locale := Some("de-DE"), subscriptionStatus := Some("active"), enriched := Some(true));
      AppendTrace(s.(user := user), Enriched(["locale", "subscription_status"]))
  }

  /** Enrichment merges the profile and subscription fields once; a second run is a no-op. */
  lemma EnrichmentOnce(s: GraphState)
    ensures Enrichment(s).user.enriched == Some(true)
    ensures s.user.enriched != Some(true) ==>
      && Enrichment(s).user == s.user.(locale := Some("de-DE"), subscriptionStatus := Some("active"), enriched := Some(true))
      && Enrichment(s).messages == s.messages && Enrichment(s).task == s.task
    ensures Enrichment(Enrichment(s)) == Enrichment(s)
  {
  }

  const ReservationWords := ["reserv", "buch", "tisch", "slot"]
  const SubscriptionWords := ["abo", "subscription", "künd", "cancel"]
  const HumanWords := ["mensch", "human", "support", "agent"]

  /** The route keyword matching picks for a lower-cased text: the first word list that matches wins. */
  function KeywordRoute(text: string): (r: Route)
    ensures r == Reservation <==> ContainsAny(text, ReservationWords)
    ensures r == Subscription <==> !ContainsAny(text, ReservationWords) && ContainsAny(text, SubscriptionWords)
    ensures r == HandoffHuman <==>
      !ContainsAny(text, ReservationWords) && !ContainsAny(text, SubscriptionWords) && ContainsAny(text, HumanWords)
    ensures r == Faq <==>
      !ContainsAny(text, ReservationWords) && !ContainsAny(text, SubscriptionWords) && !ContainsAny(text, HumanWords)
  {
    if ContainsAny(text, ReservationWords) then Reservation
    else if ContainsAny(text, SubscriptionWords) then Subscription
    else if ContainsAny(text, HumanWords) then HandoffHuman
    else Faq
  }

  /** A task the supervisor sends to memorization. */
  predicate Finished(task: TaskCtx) {
    task.status == Some("done") || task.status == Some("error")
  }

  /** A reservation waiting for the user's confirmation. */
  predicate AwaitsConfirmation(task: TaskCtx) {
    task.pending.Some? && task.pending.value.kind == "create_reservation"
  }

  /** `supervisor_node`. */
  function Supervisor(s: GraphState): (r: GraphState)
    ensures Extends(s, r)
    ensures r.route.Some?
  {
    if Finished(s.task) then s.(route := Some(Finish))
    else if AwaitsConfirmation(s.task) then s.(route := Some(Reservation))
    else
      var route := KeywordRoute(Lower(LastUserText(s.messages)));
      AppendTrace(s, Routed(route)).(route := Some(route))
  }

  /**
   * The supervisor's ladder: a finished task goes to "finish" before anything
   * else, then a pending reservation goes back to the reservation worker
   * whatever the user wrote, and only then do keywords decide.  Only the route
   * and, for a keyword decision, the trace change.
   */
  lemma SupervisorLadder(s: GraphState)
    ensures Finished(s.task) ==> Supervisor(s) == s.(route := Some(Finish))
    ensures !Finished(s.task) && AwaitsConfirmation(s.task) ==> Supervisor(s) == s.(route := Some(Reservation))
    ensures !Finished(s.task) && !AwaitsConfirmation(s.task) ==>
      var route := KeywordRoute(Lower(LastUserText(s.messages)));
      Supervisor(s) == s.(route := Some(route), trace := s.trace + [Routed(route)])
  {
  }

  const FaqAnswer := "FAQ-Antwort (Demo). Wenn du eine Reservierung willst, sag mir Datum/Uhrzeit/Personen."

  /** `faq_agent_node`. */
  function FaqAgent(s: GraphState): (r: GraphState)
    ensures Extends(s, r)
  {
    SetTask(Say(s, FaqAnswer), NoTaskFields.(status := Some("done"), finalAnswer := Some(FaqAnswer)))
  }

  function SubscriptionAnswer(status: string): string {
    "Dein Subscription-Status ist: " + status + "."
  }

  /** `subscription_agent_node`: reports the stored status, "unknown" when there is none. */
  function SubscriptionAgent(s: GraphState): (r: GraphState)
    ensures Extends(s, r)
  {
    var answer := SubscriptionAnswer(s.user.subscriptionStatus.GetOr("unknown"));
    SetTask(Say(s, answer), NoTaskFields.(status := Some("done"), finalAnswer := Some(answer)))
  }

  /**
   * The FAQ and subscription workers answer with one assistant message and
   * finish the task with that answer as the final answer.
   */
  lemma AnsweringWorkersFinish(s: GraphState)
    ensures var r := FaqAgent(s);
      r.messages == s.messages + [ChatMsg("assistant", FaqAnswer)]
      && r.task.status == Some("done") && r.task.finalAnswer == Some(FaqAnswer)
      && r.task.pending == s.task.pending
    ensures var r := SubscriptionAgent(s);
      var answer := SubscriptionAnswer(s.user.subscriptionStatus.GetOr("unknown"));
      r.messages == s.messages + [ChatMsg("assistant", answer)]
      && r.task.status == Some("done") && r.task.finalAnswer == Some(answer)
      && r.task.pending == s.task.pending
  {
  }

  /** `memorization_node`: record that the conversation was stored. */
  function Memorization(s: GraphState): (r: GraphState)
    ensures Extends(s, r)
  {
    AppendTrace(s, Memorized)
  }
}
