/**
 * The demo graph's edges and topology: validation, then (unless the task
 * failed) enrichment and the supervisor; the supervisor picks a worker, hands
 * off to a human (the end of the run) or finishes through memorization; a
 * worker waits for the user (the end of the run), finishes through
 * memorization, or goes back to the supervisor.
 */
module DemoGraph {
  import opened Wrappers
  import opened Text
  import opened DemoState
  import opened DemoNodes
  import opened DemoReservation

  /** `gate_after_validation`: "end" only for an errored task. */
  function GateAfterValidation(s: GraphState): (r: string)
    ensures r == "end" <==> s.task.status == Some("error")
    ensures r == "end" || r == "enrich"
  {
    if s.task.status == Some("error") then "end" else "enrich"
  }

  /** `route_from_supervisor`: the stored route, "faq" when there is none. */
  function RouteFromSupervisor(s: GraphState): (r: Route)
    ensures s.route.Some? ==> r == s.route.value
    ensures s.route.None? ==> r == Faq
  {
    s.route.GetOr(Faq)
  }

  /** `after_worker`: a missing status counts as "needs_action". */
  function AfterWorker(s: GraphState): (r: string)
    ensures r == "wait" <==> s.task.status == Some("awaiting_user")
    ensures r == "memorize" <==> Finished(s.task)
    ensures r == "supervisor" <==> !Finished(s.task) && s.task.status != Some("awaiting_user")
  {
    var status := s.task.status.GetOr("needs_action");
    if status == "awaiting_user" then "wait"
    else if status == "done" || status == "error" then "memorize"
    else "supervisor"
  }

  datatype Node = AtValidation | AtEnrichment | AtSupervisor | AtFaq | AtReservation | AtSubscription | AtMemorize | AtEnd

  /** The node a route leads to. */
  function RouteTarget(route: Route): Node {
    match route
    case Faq => AtFaq
    case Reservation => AtReservation
    case Subscription => AtSubscription
    case HandoffHuman => AtEnd
    case Finish => AtMemorize
  }

  /** The node a worker's edge leads to. */
  function WorkerTarget(s: GraphState): Node {
    var next := AfterWorker(s);
    if next == "wait" then AtEnd else if next == "memorize" then AtMemorize else AtSupervisor
  }

  /** The node after `n`, given the state `n` produced; the end has no successor. */
  function Next(n: Node, s: GraphState): (r: Option<Node>)
    ensures r.None? <==> n == AtEnd
    ensures n == AtMemorize ==> r == Some(AtEnd)
    ensures n == AtEnrichment ==> r == Some(AtSupervisor)
  {
    match n
    case AtValidation => Some(if GateAfterValidation(s) == "end" then AtEnd else AtEnrichment)
    case AtEnrichment => Some(AtSupervisor)
    case AtSupervisor => Some(RouteTarget(RouteFromSupervisor(s)))
    case AtFaq => Some(WorkerTarget(s))
    case AtReservation => Some(WorkerTarget(s))
    case AtSubscription => Some(WorkerTarget(s))
    case AtMemorize => Some(AtEnd)
    case AtEnd => None
  }

  /** The worker a route selects, applied to the state; a non-worker route leaves it alone. */
  function Work(route: Route, s: GraphState): GraphState {
    match route
    case Faq => FaqAgent(s)
    case Reservation => ReservationStep(s)
    case Subscription => SubscriptionAgent(s)
    case HandoffHuman => s
    case Finish => s
  }

  /** A route that leads to a worker. */
  predicate IsWorker(route: Route) {
    route == Faq || route == Reservation || route == Subscription
  }

  /**
   * The gate after a first validation ends the run iff the user was rejected
   * or the task had already errored.
   */
  lemma GateAfterFirstValidation(s: GraphState)
    requires s.user.isValid != Some(true)
    ensures GateAfterValidation(Validation(s)) == "end"
        <==> !ValidUserId(s.user.userId.GetOr("")) || s.task.status == Some("error")
  {
    if ValidUserId(s.user.userId.GetOr("")) {
      ValidationAccepts(s);
    } else {
      ValidationRejects(s);
    }
  }

  /** The supervisor always stores a route, so the "faq" fallback is never taken after it. */
  lemma SupervisorRouteFollowed(s: GraphState)
    ensures Supervisor(s).route.Some?
    ensures RouteFromSupervisor(Supervisor(s)) == Supervisor(s).route.value
  {
  }

  /** The FAQ and subscription workers always go on to memorization. */
  lemma AnsweringWorkersMemorize(s: GraphState)
    ensures AfterWorker(FaqAgent(s)) == "memorize"
    ensures AfterWorker(SubscriptionAgent(s)) == "memorize"
  {
    AnsweringWorkersFinish(s);
  }

  /** A reservation left pending makes the run wait, and the next user turn goes straight back to the reservation worker. */
  lemma PendingReservationResumes(s: GraphState, reply: string)
    requires AwaitsConfirmation(ReservationStep(s).task)
    ensures AfterWorker(ReservationStep(s)) == "wait"
    ensures var r := ReservationStep(s);
      Supervisor(r.(messages := r.messages + [ChatMsg("user", reply)])).route == Some(Reservation)
  {
  }

  /** The only worker result that returns to the supervisor: a declined reservation, pending dropped. */
  lemma {:induction false} BackToSupervisorOnlyAfterDecline(route: Route, s: GraphState)
    requires IsWorker(route)
    requires AfterWorker(Work(route, s)) == "supervisor"
    ensures route == Reservation && AwaitsConfirmation(s.task)
    ensures Work(route, s).task.pending.None? && Work(route, s).task.status == Some("needs_action")
    ensures Work(route, s).messages == s.messages + [ChatMsg("assistant", RetryAnswer)]
  {
    AnsweringWorkersFinish(s);
    if route == Reservation {
      var text := Lower(Strip(LastUserText(s.messages)));
      if AwaitsConfirmation(s.task) {
        if ContainsAny(text, YesWords) {
          ConfirmationYes(s);
        } else if ContainsAny(text, NoWords) {
          ConfirmationNo(s);
        } else {
          ConfirmationUnclear(s);
        }
      }
    }
  }

  /**
   * Within one user turn the supervisor-worker loop runs at most twice: after
   * a worker sends the run back, the supervisor's next pick never does.
   */
  lemma {:induction false} SupervisorLoopRunsTwiceAtMost(s: GraphState)
    requires IsWorker(Supervisor(s).route.value)
    requires AfterWorker(Work(Supervisor(s).route.value, Supervisor(s))) == "supervisor"
    ensures var w := Work(Supervisor(s).route.value, Supervisor(s));
      var second := Supervisor(w).route.value;
      IsWorker(second) ==> AfterWorker(Work(second, Supervisor(w))) != "supervisor"
  {
    var t := Supervisor(s);
    var w := Work(t.route.value, t);
    BackToSupervisorOnlyAfterDecline(t.route.value, t);
    var t2 := Supervisor(w);
    var second := t2.route.value;
    if IsWorker(second) && AfterWorker(Work(second, t2)) == "supervisor" {
      BackToSupervisorOnlyAfterDecline(second, t2);
      assert false;
    }
  }
}
