/**
 * The demo graph's reservation worker.  Without a pending reservation it fills
 * the three slots (date, time, party size) from the tokens of the user's last
 * message and either asks for what is missing or asks to confirm the filled
 * reservation, parking it in `task.pending`.  With a pending reservation it
 * reads the user's reply as a confirmation: a yes-word books it (through the
 * mock tool, whose reservation id is fixed), a no-word drops it, anything else
 * asks again.
 */
module DemoReservation {
  import opened Wrappers
  import opened Text
  import opened DemoState
  import opened DemoNodes

  /** A date token: ten characters with '-' at indices 4 and 7. */
  predicate IsDateToken(tok: string) {
    |tok| == 10 && tok[4] == '-' && tok[7] == '-'
  }

  /** A time token: five characters, ':' at index 2, two digits on either side. */
  predicate IsTimeToken(tok: string) {
    |tok| == 5 && tok[2] == ':' && IsDigits(tok[..2]) && IsDigits(tok[3..])
  }

  /** A party-size token: digits whose value lies in 1..20. */
  predicate IsPartySizeToken(tok: string) {
    IsDigits(tok) && 1 <= DigitsValue(tok) <= 20
  }

  /** The last token satisfying `p`: a later match overrides an earlier one. */
  function LastMatch(tokens: seq<string>, p: string -> bool): (r: Option<string>)
    ensures r.None? <==> forall k :: 0 <= k < |tokens| ==> !p(tokens[k])
    ensures r.Some? ==> p(r.value) && exists k :: (0 <= k < |tokens| && tokens[k] == r.value
      && forall j :: k < j < |tokens| ==> !p(tokens[j]))
  {
    if tokens == [] then None
    else if p(tokens[|tokens| - 1]) then Some(tokens[|tokens| - 1])
    else
      var r := LastMatch(tokens[..|tokens| - 1], p);
      assert forall k :: 0 <= k < |tokens| - 1 ==> tokens[..|tokens| - 1][k] == tokens[k];
      r
  }

  datatype Slots = Slots(date: Option<string>, time: Option<string>, partySize: Option<nat>)

  /** The slots the tokens fill. */
  function SlotsOf(tokens: seq<string>): Slots {
    var size := LastMatch(tokens, IsPartySizeToken);
    Slots(
      LastMatch(tokens, IsDateToken),
      LastMatch(tokens, IsTimeToken),
      if size.Some? then Some(DigitsValue(size.value)) else None)
  }

  /** `text.replace(",", " ").split()`. */
  function Tokens(text: string): seq<string> {
    Split(ReplaceChar(text, ',', ' '))
  }

  /** The slot-filling loop: each token may fill any slot it fits, overriding earlier ones. */
  method ScanTokens(tokens: seq<string>) returns (slots: Slots)
    ensures slots == SlotsOf(tokens)
  {
    var date: Option<string> := None;
    var time: Option<string> := None;
    var partySize: Option<nat> := None;
    for i := 0 to |tokens|
      invariant date == LastMatch(tokens[..i], IsDateToken)
      invariant time == LastMatch(tokens[..i], IsTimeToken)
      invariant var size := LastMatch(tokens[..i], IsPartySizeToken);
        partySize == if size.Some? then Some(DigitsValue(size.value)) else None
    {
      var tok := tokens[i];
      assert tokens[..i + 1][..i] == tokens[..i];
      if |tok| == 10 && tok[4] == '-' && tok[7] == '-' {
        date := Some(tok);
      }
      if |tok| == 5 && tok[2] == ':' && IsDigits(tok[..2]) && IsDigits(tok[3..]) {
        time := Some(tok);
      }
      if IsDigits(tok) {
        var n := DigitsValue(tok);
        if 1 <= n <= 20 {
          partySize := Some(n);
        }
      }
    }
    assert tokens[..|tokens|] == tokens;
    slots := Slots(date, time, partySize);
  }

  /** The names of the missing slots, in the order the question lists them. */
  function Missing(slots: Slots): (r: seq<string>)
    ensures r == [] <==> slots.date.Some? && slots.time.Some? && slots.partySize.Some?
  {
    (if slots.date.None? then ["Datum (YYYY-MM-DD)"] else [])
    + (if slots.time.None? then ["Uhrzeit (HH:MM)"] else [])
    + (if slots.partySize.None? then ["Personenzahl"] else [])
  }

  /** `sep.join(parts)`. */
  function Join(parts: seq<string>, sep: string): string {
    if parts == [] then ""
    else if |parts| == 1 then parts[0]
    else parts[0] + sep + Join(parts[1..], sep)
  }

  function MissingQuestion(missing: seq<string>): string {
    "Für die Reservierung brauche ich noch: " + Join(missing, ", ") + "."
  }

  function ConfirmQuestion(p: Payload): string {
    "Soll ich die Reservierung so anlegen?\n"
    + "- Datum: " + p.date + "\n"
    + "- Uhrzeit: " + p.time + "\n"
    + "- Personen: " + NatToString(p.partySize) + "\n\n"
    + "Antworte mit **ja** oder **nein**."
  }

  /** The id the mock reservation tool hands out. */
  const MockReservationId := "resv_123"

  function ConfirmedAnswer(p: Payload, reservationId: string): string {
    "Alles klar — Reservierung bestätigt ✅\n"
    + "- Datum: " + p.date + "\n"
    + "- Uhrzeit: " + p.time + "\n"
    + "- Personen: " + NatToString(p.partySize) + "\n"
    + "- ID: " + reservationId
  }

  const RetryAnswer := "Okay — dann sag mir bitte ein anderes Datum/Uhrzeit/Personen."
  const ReaskQuestion := "Bitte antworte mit **ja** (bestätigen) oder **nein** (ändern/abbrechen)."

  const YesWords := ["ja", "yes", "ok", "passt", "confirm"]
  const NoWords := ["nein", "no", "doch nicht", "cancel", "abbrechen"]

  /** The reply to a pending reservation, read from the lower-cased last user text. */
  function ConfirmationStep(s: GraphState, pending: PendingAction, t: string): GraphState {
    if ContainsAny(t, YesWords) then
      var answer := ConfirmedAnswer(pending.payload, MockReservationId);
      SetTask(Say(s, answer).(task := s.task.(pending := None)),
              NoTaskFields.(status := Some("done"), finalAnswer := Some(answer)))
    else if ContainsAny(t, NoWords) then
      SetTask(Say(s, RetryAnswer).(task := s.task.(pending := None)),
              NoTaskFields.(status := Some("needs_action")))
    else
      SetTask(Say(s, ReaskQuestion),
              NoTaskFields.(status := Some("awaiting_user"), question := Some(ReaskQuestion), pending := Some(pending)))
  }

  /** Slot filling from the stripped last user text. */
  function SlotFillingStep(s: GraphState, slots: Slots): GraphState {
    var missing := Missing(slots);
    if missing != [] then
      var question := MissingQuestion(missing);
      SetTask(Say(s, question), NoTaskFields.(status := Some("awaiting_user"), question := Some(question)))
    else
      var payload := Payload(slots.date.value, slots.time.value, slots.partySize.value);
      var question := ConfirmQuestion(payload);
      SetTask(Say(s, question),
              NoTaskFields.(status := Some("awaiting_user"), question := Some(question),
                            pending := Some(PendingAction("create_reservation", payload))))
  }

  /** `reservation_agent_node`, as a function of the state. */
  function ReservationStep(s: GraphState): (r: GraphState)
    ensures Extends(s, r)
    ensures |r.messages| == |s.messages| + 1 && r.messages[|s.messages|].role == "assistant"
  {
    var text := Strip(LastUserText(s.messages));
    if AwaitsConfirmation(s.task) then ConfirmationStep(s, s.task.pending.value, Lower(text))
    else SlotFillingStep(s, SlotsOf(Tokens(text)))
  }

  /** `reservation_agent_node`. */
  method ReservationAgent(s: GraphState) returns (r: GraphState)
    ensures r == ReservationStep(s)
  {
    var text := Strip(LastUserText(s.messages));
    if AwaitsConfirmation(s.task) {
      return ConfirmationStep(s, s.task.pending.value, Lower(text));
    }
    var slots := ScanTokens(Tokens(text));
    r := SlotFillingStep(s, slots);
  }

  /**
   * Without a pending reservation and with a slot missing, the worker asks for
   * the missing slots, waits for the user and records no pending action.
   */
  lemma MissingSlotAsks(s: GraphState)
    requires !AwaitsConfirmation(s.task)
    requires Missing(SlotsOf(Tokens(Strip(LastUserText(s.messages))))) != []
    ensures var r := ReservationStep(s);
      r.task.status == Some("awaiting_user") && r.task.pending == s.task.pending && !AwaitsConfirmation(r.task)
  {
  }

  /**
   * With every slot filled, the worker parks exactly those slots as a pending
   * `create_reservation` and waits for the user's confirmation.
   */
  lemma FilledSlotsAwaitConfirmation(s: GraphState)
    requires !AwaitsConfirmation(s.task)
    requires var slots := SlotsOf(Tokens(Strip(LastUserText(s.messages))));
      slots.date.Some? && slots.time.Some? && slots.partySize.Some?
    ensures var slots := SlotsOf(Tokens(Strip(LastUserText(s.messages))));
      var r := ReservationStep(s);
      && r.task.status == Some("awaiting_user")
      && r.task.pending == Some(PendingAction("create_reservation",
                                  Payload(slots.date.value, slots.time.value, slots.partySize.value)))
      && AwaitsConfirmation(r.task)
  {
  }

  /** A filled party size is a number from 1 to 20; a filled date and time have their shapes. */
  lemma FilledSlotsWellFormed(tokens: seq<string>)
    ensures SlotsOf(tokens).partySize.Some? ==> 1 <= SlotsOf(tokens).partySize.value <= 20
    ensures SlotsOf(tokens).date.Some? ==> IsDateToken(SlotsOf(tokens).date.value)
    ensures SlotsOf(tokens).time.Some? ==> IsTimeToken(SlotsOf(tokens).time.value)
  {
  }

  /** A yes-word books the pending reservation: pending cleared, task done, the confirmation as final answer. */
  lemma ConfirmationYes(s: GraphState)
    requires AwaitsConfirmation(s.task)
    requires ContainsAny(Lower(Strip(LastUserText(s.messages))), YesWords)
    ensures var r := ReservationStep(s);
      var answer := ConfirmedAnswer(s.task.pending.value.payload, MockReservationId);
      && r.task.pending == None && r.task.status == Some("done") && r.task.finalAnswer == Some(answer)
      && r.messages == s.messages + [ChatMsg("assistant", answer)]
  {
  }

  /** A no-word (and no yes-word) drops the pending reservation and hands the task back to the supervisor. */
  lemma ConfirmationNo(s: GraphState)
    requires AwaitsConfirmation(s.task)
    requires !ContainsAny(Lower(Strip(LastUserText(s.messages))), YesWords)
    requires ContainsAny(Lower(Strip(LastUserText(s.messages))), NoWords)
    ensures var r := ReservationStep(s);
      r.task.pending == None && r.task.status == Some("needs_action")
      && r.messages == s.messages + [ChatMsg("assistant", RetryAnswer)]
  {
  }

  /** Any other reply asks again and keeps the pending reservation. */
  lemma ConfirmationUnclear(s: GraphState)
    requires AwaitsConfirmation(s.task)
    requires !ContainsAny(Lower(Strip(LastUserText(s.messages))), YesWords)
    requires !ContainsAny(Lower(Strip(LastUserText(s.messages))), NoWords)
    ensures var r := ReservationStep(s);
      r.task.pending == s.task.pending && r.task.status == Some("awaiting_user")
      && r.task.question == Some(ReaskQuestion)
  {
  }

  /**
   * Yes-words are looked for first and as substrings, so a reply holding both
   * kinds, such as "nein, passt nicht", books the reservation.
   */
  lemma YesWinsOverNo(s: GraphState)
    requires AwaitsConfirmation(s.task)
    requires ContainsAny(Lower(Strip(LastUserText(s.messages))), YesWords)
    requires ContainsAny(Lower(Strip(LastUserText(s.messages))), NoWords)
    ensures ReservationStep(s).task.status == Some("done")
  {
  }
}
