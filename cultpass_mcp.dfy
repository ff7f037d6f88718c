/**
 * The Cultpass tool server: users with at most one subscription, experiences
 * with a counter of free slots, and reservations linking the two.
 *
 * Every tool opens a session, checks its guards in a fixed order and either
 * answers with an error message (changing nothing) or updates the rows and
 * commits.  An exception raised before the commit also changes nothing.  The
 * tables are the fields of `CultpassDb`; each state-changing tool is a method
 * on it, proved against a function `...Step` from a snapshot of the tables to
 * the new snapshot and the reply.  `get_reservations` is a method too, proved
 * equal to `Reservations`; the other read-only tools are functions of the
 * snapshot.  Clock readings and generated ids are parameters.
 */
module CultpassMcp {
  import opened Wrappers
  import opened ToolTables

  datatype Subscription = Subscription(
    subscriptionId: string,
    status: string,
    tier: string,
    monthlyQuota: int,
    endedAt: Option<string>)

  datatype CultUser = CultUser(fullName: string, email: string, isBlocked: bool, subscription: Option<Subscription>)

  datatype Experience = Experience(
    title: string,
    description: string,
    location: string,
    when: string,
    slotsAvailable: int,
    isPremium: bool)

  datatype ReservationRow = ReservationRow(reservationId: string, userId: string, experienceId: string, status: string)

  /** A reservation as `get_cultpass_reservations` lists it: the row with its experience. */
  datatype ReservationView = ReservationView(row: ReservationRow, experience: Experience)

  /** The three tables; users and experiences are keyed by their ids. */
  datatype CultpassData = CultpassData(
    users: map<string, CultUser>,
    reservations: seq<ReservationRow>,
    experiences: map<string, Experience>)

  /** The tables after a tool call, and its reply. */
  datatype Step<T> = Step(data: CultpassData, reply: Reply<T>)

  function NoUserText(userId: string): string {
    "No Cultpass user found for user_id " + userId
  }

  function NoExperienceText(experienceId: string): string {
    "No experience found for experience_id " + experienceId
  }

  const NoActiveSubscription := "User does not have an active subscription."
  const NoCancelledSubscription := "User does not have a cancelled subscription."
  const AlreadyPremium := "User already has a premium subscription."
  const ReservationNotFound := "Reservation not found."
  const AlreadyCancelled := "Reservation is already cancelled."
  const UserNotFound := "User not found."
  const UserBlocked := "User is blocked from making reservations."
  const AlreadyReserved := "User already has a reservation for this experience."
  const ExperienceNotFound := "Experience not found."
  const NoSlots := "No slots available for this experience."
  const PremiumOnly := "Experience is premium and user does not have a premium subscription."

  const SubscriptionCancelled := "Subscription cancelled successfully."
  const SubscriptionReactivated := "Subscription reactivated successfully."
  const SubscriptionUpgraded := "Subscription upgraded to premium successfully."
  const ReservationCancelled := "Reservation cancelled successfully."

  /** The user has a subscription in the given status. */
  predicate HasStatus(u: CultUser, status: string) {
    u.subscription.Some? && u.subscription.value.status == status
  }

  // ---------------------------------------------------------------------------
  // Row predicates
  // ---------------------------------------------------------------------------

  /** `reservation_id == id and user_id == userId`. */
  function MatchesId(reservationId: string, userId: string): ReservationRow -> bool {
    (row: ReservationRow) => row.reservationId == reservationId && row.userId == userId
  }

  /** A reservation of the user for the experience that is not cancelled. */
  function Booking(userId: string, experienceId: string): ReservationRow -> bool {
    (row: ReservationRow) => row.userId == userId && row.experienceId == experienceId && row.status != "cancelled"
  }

  /** A reservation for the experience that is not cancelled: it holds one of its slots. */
  function HoldsSlot(experienceId: string): ReservationRow -> bool {
    (row: ReservationRow) => row.experienceId == experienceId && row.status != "cancelled"
  }

  /** Some row already carries the id. */
  predicate IdTaken(rows: seq<ReservationRow>, reservationId: string) {
    exists i :: 0 <= i < |rows| && rows[i].reservationId == reservationId
  }

  // ---------------------------------------------------------------------------
  // Invariants of the tables
  // ---------------------------------------------------------------------------

  /**
   * Slot counters are never negative, every reservation points at an existing
   * user and experience, and reservation ids are unique.
   */
  predicate Valid(db: CultpassData) {
    && (forall e :: e in db.experiences ==> db.experiences[e].slotsAvailable >= 0)
    && (forall i :: 0 <= i < |db.reservations| ==>
          db.reservations[i].userId in db.users && db.reservations[i].experienceId in db.experiences)
    && (forall i, j :: 0 <= i < j < |db.reservations| ==>
          db.reservations[i].reservationId != db.reservations[j].reservationId)
  }

  /** No user holds two live reservations for the same experience. */
  ghost predicate NoDoubleBooking(db: CultpassData) {
    forall u, e :: Count(db.reservations, Booking(u, e)) <= 1
  }

  /** The free slots of an experience plus the live reservations holding one. */
  function Held(db: CultpassData, experienceId: string): int
    requires experienceId in db.experiences
  {
    db.experiences[experienceId].slotsAvailable + Count(db.reservations, HoldsSlot(experienceId))
  }

  // ---------------------------------------------------------------------------
  // The tools as functions of the tables
  // ---------------------------------------------------------------------------

  /**
   * `get_cultpass_user`.  The reply reads the subscription's fields, so a user
   * without a subscription raises instead of answering.
   */
  function GetUser(db: CultpassData, userId: string): (r: Reply<CultUser>)
    ensures r.Error? <==> userId !in db.users
    ensures r.Error? ==> r.message == NoUserText(userId)
    ensures r.Raised? <==> userId in db.users && db.users[userId].subscription.None?
    ensures r.Ok? ==> userId in db.users && r.value == db.users[userId] && r.value.subscription.Some?
  {
    if userId !in db.users then Error(NoUserText(userId))
    else if db.users[userId].subscription.None? then Raised("AttributeError")
    else Ok(db.users[userId])
  }

  /** `get_cultpass_experience`. */
  function GetExperience(db: CultpassData, experienceId: string): (r: Reply<Experience>)
    ensures r.Ok? <==> experienceId in db.experiences
    ensures r.Ok? ==> r.value == db.experiences[experienceId]
    ensures !r.Ok? ==> r == Error(NoExperienceText(experienceId))
  {
    if experienceId in db.experiences then Ok(db.experiences[experienceId])
    else Error(NoExperienceText(experienceId))
  }

  /** Only the subscription of `userId` differs between `db` and `db2`. */
  predicate OnlySubscriptionChanged(db: CultpassData, db2: CultpassData, userId: string)
    requires userId in db.users
  {
    && db2.reservations == db.reservations && db2.experiences == db.experiences
    && db2.users.Keys == db.users.Keys
    && (forall u :: u in db.users && u != userId ==> db2.users[u] == db.users[u])
    && db2.users[userId].(subscription := None) == db.users[userId].(subscription := None)
    && db2.users[userId].subscription.Some?
  }

  /** `cancel_cultpass_subscription`: an active subscription becomes cancelled, ended at `now`. */
  function CancelSubscriptionStep(db: CultpassData, userId: string, now: string): (r: Step<string>)
    ensures r.reply.Ok? <==> userId in db.users && HasStatus(db.users[userId], "active")
    ensures !r.reply.Ok? ==>
      r.data == db && r.reply == Error(if userId in db.users then NoActiveSubscription else NoUserText(userId))
    ensures r.reply.Ok? ==>
      && r.reply.value == SubscriptionCancelled
      && OnlySubscriptionChanged(db, r.data, userId)
      && r.data.users[userId].subscription.value
         == db.users[userId].subscription.value.(status := "cancelled", endedAt := Some(now))
  {
    if userId !in db.users then Step(db, Error(NoUserText(userId)))
    else
      var u := db.users[userId];
      if !HasStatus(u, "active") then Step(db, Error(NoActiveSubscription))
      else
        var sub := u.subscription.value.(status := "cancelled", endedAt := Some(now));
        Step(db.(users := db.users[userId := u.(subscription := Some(sub))]), Ok(SubscriptionCancelled))
  }

  /** `reactivate_cultpass_subscription`: a cancelled subscription becomes active, with no end date. */
  function ReactivateSubscriptionStep(db: CultpassData, userId: string): (r: Step<string>)
    ensures r.reply.Ok? <==> userId in db.users && HasStatus(db.users[userId], "cancelled")
    ensures !r.reply.Ok? ==>
      r.data == db && r.reply == Error(if userId in db.users then NoCancelledSubscription else NoUserText(userId))
    ensures r.reply.Ok? ==>
      && r.reply.value == SubscriptionReactivated
      && OnlySubscriptionChanged(db, r.data, userId)
      && r.data.users[userId].subscription.value
         == db.users[userId].subscription.value.(status := "active", endedAt := None)
  {
    if userId !in db.users then Step(db, Error(NoUserText(userId)))
    else
      var u := db.users[userId];
      if !HasStatus(u, "cancelled") then Step(db, Error(NoCancelledSubscription))
      else
        var sub := u.subscription.value.(status := "active", endedAt := None);
        Step(db.(users := db.users[userId := u.(subscription := Some(sub))]), Ok(SubscriptionReactivated))
  }

  /** `upgrade_cultpass_subscription`: an active, non-premium subscription becomes premium. */
  function UpgradeSubscriptionStep(db: CultpassData, userId: string): (r: Step<string>)
    ensures r.reply.Ok? <==>
      userId in db.users && HasStatus(db.users[userId], "active") && db.users[userId].subscription.value.tier != "premium"
    ensures !r.reply.Ok? ==> r.data == db && r.reply.Error?
    ensures userId !in db.users ==> r.reply == Error(NoUserText(userId))
    ensures userId in db.users && !HasStatus(db.users[userId], "active") ==> r.reply == Error(NoActiveSubscription)
    ensures (userId in db.users && HasStatus(db.users[userId], "active")
             && db.users[userId].subscription.value.tier == "premium") ==> r.reply == Error(AlreadyPremium)
    ensures r.reply.Ok? ==>
      && r.reply.value == SubscriptionUpgraded
      && OnlySubscriptionChanged(db, r.data, userId)
      && r.data.users[userId].subscription.value == db.users[userId].subscription.value.(tier := "premium")
  {
    if userId !in db.users then Step(db, Error(NoUserText(userId)))
    else
      var u := db.users[userId];
      if !HasStatus(u, "active") then Step(db, Error(NoActiveSubscription))
      else if u.subscription.value.tier == "premium" then Step(db, Error(AlreadyPremium))
      else
        var sub := u.subscription.value.(tier := "premium");
        Step(db.(users := db.users[userId := u.(subscription := Some(sub))]), Ok(SubscriptionUpgraded))
  }

  /** The user's rows, in table order. */
  function OwnRows(rows: seq<ReservationRow>, userId: string): (r: seq<ReservationRow>)
    ensures |r| <= |rows|
    ensures forall k :: 0 <= k < |r| ==> r[k].userId == userId && r[k] in rows
    ensures forall i :: 0 <= i < |rows| && rows[i].userId == userId ==> rows[i] in r
  {
    if rows == [] then []
    else
      var init := rows[..|rows| - 1];
      var last := rows[|rows| - 1];
      assert rows == init + [last];
      OwnRows(init, userId) + (if last.userId == userId then [last] else [])
  }

  /** Selecting the user's rows distributes over concatenation: table order and repeats are kept. */
  lemma {:induction false} OwnRowsAppend(a: seq<ReservationRow>, b: seq<ReservationRow>, userId: string)
    ensures OwnRows(a + b, userId) == OwnRows(a, userId) + OwnRows(b, userId)
    decreases |b|
  {
    if b == [] {
      assert a + b == a;
    } else {
      var init := b[..|b| - 1];
      assert (a + b)[..|a + b| - 1] == a + init;
      assert (a + b)[|a + b| - 1] == b[|b| - 1];
      OwnRowsAppend(a, init, userId);
    }
  }

  /** A single row is selected iff it is the user's. */
  lemma OwnRowsOne(row: ReservationRow, userId: string)
    ensures OwnRows([row], userId) == if row.userId == userId then [row] else []
  {
    assert [row][..0] == [];
  }

  /**
   * `get_cultpass_reservations`: the user's rows joined with their experiences;
   * a row whose experience is missing makes the join raise.
   */
  function Reservations(rows: seq<ReservationRow>, experiences: map<string, Experience>, userId: string)
    : (r: Reply<seq<ReservationView>>)
    ensures !r.Error?
    ensures r.Raised? <==> exists i :: 0 <= i < |rows| && rows[i].userId == userId && rows[i].experienceId !in experiences
    ensures r.Raised? ==> r == Raised("AttributeError")
    ensures r.Ok? ==>
      && |r.value| == |OwnRows(rows, userId)|
      && (forall k :: 0 <= k < |r.value| ==>
           && r.value[k].row == OwnRows(rows, userId)[k]
           && r.value[k].row.experienceId in experiences
           && r.value[k].experience == experiences[r.value[k].row.experienceId])
  {
    if rows == [] then Ok([])
    else
      var init := rows[..|rows| - 1];
      var last := rows[|rows| - 1];
      var prev := Reservations(init, experiences, userId);
      assert forall i :: 0 <= i < |init| ==> init[i] == rows[i];
      if last.userId != userId then prev
      else if prev.Raised? then prev
      else if last.experienceId !in experiences then Raised("AttributeError")
      else Ok(prev.value + [ReservationView(last, experiences[last.experienceId])])
  }

  /**
   * `db2` is `db` with row `k`, the user's live reservation with the id,
   * cancelled and one slot of its experience freed.
   */
  predicate CancelledAt(db: CultpassData, db2: CultpassData, k: int, reservationId: string, userId: string) {
    && 0 <= k < |db.reservations|
    && MatchesId(reservationId, userId)(db.reservations[k])
    && db.reservations[k].status != "cancelled"
    && var e := db.reservations[k].experienceId;
    && e in db.experiences
    && db2.reservations == db.reservations[k := db.reservations[k].(status := "cancelled")]
    && db2.experiences == db.experiences[e := db.experiences[e].(slotsAvailable := db.experiences[e].slotsAvailable + 1)]
  }

  /**
   * `cancel_cultpass_reservation`: the user's reservation with the id becomes
   * cancelled and frees a slot of its experience.
   */
  function CancelReservationStep(db: CultpassData, userId: string, reservationId: string): (r: Step<string>)
    ensures !r.reply.Ok? ==> r.data == db
    ensures Count(db.reservations, MatchesId(reservationId, userId)) == 0 ==> r.reply == Error(ReservationNotFound)
    ensures Count(db.reservations, MatchesId(reservationId, userId)) > 1 ==> r.reply.Raised?
    ensures forall k :: (0 <= k < |db.reservations| && MatchesId(reservationId, userId)(db.reservations[k])
                         && Count(db.reservations, MatchesId(reservationId, userId)) == 1) ==>
      var row := db.reservations[k];
      && (row.status == "cancelled" ==> r.reply == Error(AlreadyCancelled))
      && (row.status != "cancelled" && row.experienceId in db.experiences ==> r.reply == Ok(ReservationCancelled))
      && (row.status != "cancelled" && row.experienceId !in db.experiences ==> r.reply == Raised("AttributeError"))
    ensures r.reply.Ok? ==>
      && r.reply.value == ReservationCancelled
      && Count(db.reservations, MatchesId(reservationId, userId)) == 1
      && r.data.users == db.users
      && (exists k :: CancelledAt(db, r.data, k, reservationId, userId))
  {
    var p := MatchesId(reservationId, userId);
    CountZero(db.reservations, p);
    forall k | 0 <= k < |db.reservations| && p(db.reservations[k]) && Count(db.reservations, p) == 1 {
      CountOneFind(db.reservations, k, p);
    }
    match Find(db.reservations, p)
    case None => Step(db, Error(ReservationNotFound))
    case Some(k) =>
      if Count(db.reservations, p) > 1 then Step(db, Raised("MultipleResultsFound"))
      else
        var row := db.reservations[k];
        if row.status == "cancelled" then Step(db, Error(AlreadyCancelled))
        else if row.experienceId !in db.experiences then Step(db, Raised("AttributeError"))
        else
          var e := db.experiences[row.experienceId];
          var after := db.(reservations := db.reservations[k := row.(status := "cancelled")],
                           experiences := db.experiences[row.experienceId := e.(slotsAvailable := e.slotsAvailable + 1)]);
          assert CancelledAt(db, after, k, reservationId, userId);
          Step(after, Ok(ReservationCancelled))
  }

  /** The first three guards of `make_cultpass_reservation`: the user exists, is not blocked and subscribes actively. */
  predicate ActiveMember(db: CultpassData, userId: string) {
    && userId in db.users
    && !db.users[userId].isBlocked
    && HasStatus(db.users[userId], "active")
  }

  /** Every guard of `make_cultpass_reservation` passes. */
  predicate GuardsPass(db: CultpassData, userId: string, experienceId: string) {
    && ActiveMember(db, userId)
    && Count(db.reservations, Booking(userId, experienceId)) == 0
    && experienceId in db.experiences
    && db.experiences[experienceId].slotsAvailable > 0
    && (db.experiences[experienceId].isPremium ==> db.users[userId].subscription.value.tier == "premium")
  }

  /** The guards pass and the generated id is fresh, so the insert commits. */
  predicate CanReserve(db: CultpassData, userId: string, experienceId: string, newId: string) {
    GuardsPass(db, userId, experienceId) && !IdTaken(db.reservations, newId)
  }

  /**
   * `make_cultpass_reservation`, with `newId` the generated reservation id:
   * the guards in the source's order, then a new "reserved" row and one slot fewer.
   */
  function MakeReservationStep(db: CultpassData, userId: string, experienceId: string, newId: string)
    : (r: Step<ReservationRow>)
    ensures r.reply.Ok? <==> CanReserve(db, userId, experienceId, newId)
    ensures !r.reply.Ok? ==> r.data == db
    ensures userId !in db.users ==> r.reply == Error(UserNotFound)
    ensures userId in db.users && db.users[userId].isBlocked ==> r.reply == Error(UserBlocked)
    ensures userId in db.users && !db.users[userId].isBlocked && !HasStatus(db.users[userId], "active")
      ==> r.reply == Error(NoActiveSubscription)
    ensures ActiveMember(db, userId) && Count(db.reservations, Booking(userId, experienceId)) == 1
      ==> r.reply == Error(AlreadyReserved)
    ensures ActiveMember(db, userId) && Count(db.reservations, Booking(userId, experienceId)) > 1
      ==> r.reply == Raised("MultipleResultsFound")
    ensures ActiveMember(db, userId) && Count(db.reservations, Booking(userId, experienceId)) == 0
      && experienceId !in db.experiences
      ==> r.reply == Error(ExperienceNotFound)
    ensures ActiveMember(db, userId) && Count(db.reservations, Booking(userId, experienceId)) == 0
      && experienceId in db.experiences && db.experiences[experienceId].slotsAvailable <= 0
      ==> r.reply == Error(NoSlots)
    ensures ActiveMember(db, userId) && Count(db.reservations, Booking(userId, experienceId)) == 0
      && experienceId in db.experiences && db.experiences[experienceId].slotsAvailable > 0
      && db.experiences[experienceId].isPremium && db.users[userId].subscription.value.tier != "premium"
      ==> r.reply == Error(PremiumOnly)
    ensures GuardsPass(db, userId, experienceId) && IdTaken(db.reservations, newId)
      ==> r.reply == Raised("IntegrityError")
    ensures r.reply.Ok? ==>
      && r.reply.value == ReservationRow(newId, userId, experienceId, "reserved")
      && r.data.users == db.users
      && r.data.reservations == db.reservations + [r.reply.value]
      && r.data.experiences == db.experiences[experienceId :=
           db.experiences[experienceId].(slotsAvailable := db.experiences[experienceId].slotsAvailable - 1)]
  {
    if userId !in db.users then Step(db, Error(UserNotFound))
    else
      var u := db.users[userId];
      if u.isBlocked then Step(db, Error(UserBlocked))
      else if !HasStatus(u, "active") then Step(db, Error(NoActiveSubscription))
      else
        var existing := Count(db.reservations, Booking(userId, experienceId));
        if existing == 1 then Step(db, Error(AlreadyReserved))
        else if existing > 1 then Step(db, Raised("MultipleResultsFound"))
        else if experienceId !in db.experiences then Step(db, Error(ExperienceNotFound))
        else
          var e := db.experiences[experienceId];
          if e.slotsAvailable <= 0 then Step(db, Error(NoSlots))
          else if e.isPremium && u.subscription.value.tier != "premium" then Step(db, Error(PremiumOnly))
          else if IdTaken(db.reservations, newId) then Step(db, Raised("IntegrityError"))
          else
            var row := ReservationRow(newId, userId, experienceId, "reserved");
            Step(db.(reservations := db.reservations + [row],
                     experiences := db.experiences[experienceId := e.(slotsAvailable := e.slotsAvailable - 1)]),
                 Ok(row))
  }

  // ---------------------------------------------------------------------------
  // The tables as an object
  // ---------------------------------------------------------------------------

  class CultpassDb {
    var users: map<string, CultUser>
    var reservations: seq<ReservationRow>
    var experiences: map<string, Experience>

    constructor(data: CultpassData)
      ensures Data() == data
    {
      users := data.users;
      reservations := data.reservations;
      experiences := data.experiences;
    }

    function Data(): CultpassData
      reads this
    {
      CultpassData(users, reservations, experiences)
    }

    method CancelSubscription(userId: string, now: string) returns (r: Reply<string>)
      modifies this
      ensures Step(Data(), r) == CancelSubscriptionStep(old(Data()), userId, now)
    {
      if userId !in users {
        return Error(NoUserText(userId));
      }
      var u := users[userId];
      if u.subscription.None? || u.subscription.value.status != "active" {
        return Error(NoActiveSubscription);
      }
      var sub := u.subscription.value.(status := "cancelled", endedAt := Some(now));
      users := users[userId := u.(subscription := Some(sub))];
      r := Ok(SubscriptionCancelled);
    }

    method ReactivateSubscription(userId: string) returns (r: Reply<string>)
      modifies this
      ensures Step(Data(), r) == ReactivateSubscriptionStep(old(Data()), userId)
    {
      if userId !in users {
        return Error(NoUserText(userId));
      }
      var u := users[userId];
      if u.subscription.None? || u.subscription.value.status != "cancelled" {
        return Error(NoCancelledSubscription);
      }
      var sub := u.subscription.value.(status := "active", endedAt := None);
      users := users[userId := u.(subscription := Some(sub))];
      r := Ok(SubscriptionReactivated);
    }

    method UpgradeSubscription(userId: string) returns (r: Reply<string>)
      modifies this
      ensures Step(Data(), r) == UpgradeSubscriptionStep(old(Data()), userId)
    {
      if userId !in users {
        return Error(NoUserText(userId));
      }
      var u := users[userId];
      if u.subscription.None? || u.subscription.value.status != "active" {
        return Error(NoActiveSubscription);
      }
      if u.subscription.value.tier == "premium" {
        return Error(AlreadyPremium);
      }
      users := users[userId := u.(subscription := Some(u.subscription.value.(tier := "premium")))];
      r := Ok(SubscriptionUpgraded);
    }

    /** `get_cultpass_reservations`: one pass over the table, joining each of the user's rows. */
    method GetReservations(userId: string) returns (r: Reply<seq<ReservationView>>)
      ensures r == Reservations(reservations, experiences, userId)
    {
      var views: seq<ReservationView> := [];
      for i := 0 to |reservations|
        invariant Reservations(reservations[..i], experiences, userId) == Ok(views)
      {
        var row := reservations[i];
        assert reservations[..i + 1][..i] == reservations[..i];
        if row.userId == userId {
          if row.experienceId !in experiences {
            assert reservations[i].userId == userId && reservations[i].experienceId !in experiences;
            assert Reservations(reservations, experiences, userId).Raised?;
            return Raised("AttributeError");
          }
          views := views + [ReservationView(row, experiences[row.experienceId])];
        }
      }
      assert reservations[..|reservations|] == reservations;
      r := Ok(views);
    }

    method CancelReservation(userId: string, reservationId: string) returns (r: Reply<string>)
      modifies this
      ensures Step(Data(), r) == CancelReservationStep(old(Data()), userId, reservationId)
    {
      var p := MatchesId(reservationId, userId);
      var found := Find(reservations, p);
      if found.None? {
        return Error(ReservationNotFound);
      }
      if Count(reservations, p) > 1 {
        return Raised("MultipleResultsFound");
      }
      var k := found.value;
      var row := reservations[k];
      if row.status == "cancelled" {
        return Error(AlreadyCancelled);
      }
      if row.experienceId !in experiences {
        return Raised("AttributeError");
      }
      var e := experiences[row.experienceId];
      reservations := reservations[k := row.(status := "cancelled")];
      experiences := experiences[row.experienceId := e.(slotsAvailable := e.slotsAvailable + 1)];
      r := Ok(ReservationCancelled);
    }

    method MakeReservation(userId: string, experienceId: string, newId: string) returns (r: Reply<ReservationRow>)
      modifies this
      ensures Step(Data(), r) == MakeReservationStep(old(Data()), userId, experienceId, newId)
    {
      if userId !in users {
        return Error(UserNotFound);
      }
      var u := users[userId];
      if u.isBlocked {
        return Error(UserBlocked);
      }
      if u.subscription.None? || u.subscription.value.status != "active" {
        return Error(NoActiveSubscription);
      }
      var existing := Count(reservations, Booking(userId, experienceId));
      if existing == 1 {
        return Error(AlreadyReserved);
      } else if existing > 1 {
        return Raised("MultipleResultsFound");
      }
      if experienceId !in experiences {
        return Error(ExperienceNotFound);
      }
      var e := experiences[experienceId];
      if e.slotsAvailable <= 0 {
        return Error(NoSlots);
      }
      if e.isPremium && u.subscription.value.tier != "premium" {
        return Error(PremiumOnly);
      }
      if IdTaken(reservations, newId) {
        return Raised("IntegrityError");
      }
      var row := ReservationRow(newId, userId, experienceId, "reserved");
      experiences := experiences[experienceId := e.(slotsAvailable := e.slotsAvailable - 1)];
      reservations := reservations + [row];
      r := Ok(row);
    }
  }

  // ---------------------------------------------------------------------------
  // Properties
  // ---------------------------------------------------------------------------

  /** Cancelling and then reactivating gives back the active subscription, end date cleared. */
  lemma CancelThenReactivate(db: CultpassData, userId: string, now: string)
    requires CancelSubscriptionStep(db, userId, now).reply.Ok?
    ensures var back := ReactivateSubscriptionStep(CancelSubscriptionStep(db, userId, now).data, userId);
      && back.reply == Ok(SubscriptionReactivated)
      && back.data == db.(users := db.users[userId :=
           db.users[userId].(subscription := Some(db.users[userId].subscription.value.(endedAt := None)))])
  {
    var mid := CancelSubscriptionStep(db, userId, now).data;
    var back := ReactivateSubscriptionStep(mid, userId).data;
    var want := db.(users := db.users[userId :=
           db.users[userId].(subscription := Some(db.users[userId].subscription.value.(endedAt := None)))]);
    assert back.users == want.users;
  }

  /** A subscription cannot be cancelled twice: the second call fails and changes nothing. */
  lemma CancelTwiceFails(db: CultpassData, userId: string, now: string, later: string)
    requires CancelSubscriptionStep(db, userId, now).reply.Ok?
    ensures var mid := CancelSubscriptionStep(db, userId, now).data;
      CancelSubscriptionStep(mid, userId, later) == Step(mid, Error(NoActiveSubscription))
  {
  }

  /** Upgrading is done once: a second upgrade answers that the user already is premium. */
  lemma UpgradeTwiceFails(db: CultpassData, userId: string)
    requires UpgradeSubscriptionStep(db, userId).reply.Ok?
    ensures var mid := UpgradeSubscriptionStep(db, userId).data;
      UpgradeSubscriptionStep(mid, userId) == Step(mid, Error(AlreadyPremium))
  {
  }

  /** Under `Valid`, reservation ids are unique, so the id lookup never finds two rows. */
  lemma {:induction false} UniqueIdsMatchOnce(rows: seq<ReservationRow>, reservationId: string, userId: string)
    requires forall i, j :: 0 <= i < j < |rows| ==> rows[i].reservationId != rows[j].reservationId
    ensures Count(rows, MatchesId(reservationId, userId)) <= 1
  {
    if rows != [] {
      var init := rows[..|rows| - 1];
      var p := MatchesId(reservationId, userId);
      UniqueIdsMatchOnce(init, reservationId, userId);
      if p(rows[|rows| - 1]) {
        CountZero(init, p);
      }
    }
  }

  /** A cancellation never raises on valid tables that hold the reservation's experience. */
  lemma ValidCancelNeverRaises(db: CultpassData, userId: string, reservationId: string)
    requires Valid(db)
    ensures !CancelReservationStep(db, userId, reservationId).reply.Raised?
  {
    UniqueIdsMatchOnce(db.reservations, reservationId, userId);
  }

  /** The subscription tools keep the tables valid and free of double bookings. */
  lemma SubscriptionToolsKeepValid(db: CultpassData, userId: string, now: string)
    requires Valid(db) && NoDoubleBooking(db)
    ensures Valid(CancelSubscriptionStep(db, userId, now).data)
    ensures Valid(ReactivateSubscriptionStep(db, userId).data)
    ensures Valid(UpgradeSubscriptionStep(db, userId).data)
    ensures NoDoubleBooking(CancelSubscriptionStep(db, userId, now).data)
    ensures NoDoubleBooking(ReactivateSubscriptionStep(db, userId).data)
    ensures NoDoubleBooking(UpgradeSubscriptionStep(db, userId).data)
  {
  }

  /**
   * A reservation made on valid tables keeps them valid: the counter it
   * decrements was positive, and the new row's id is fresh and its keys exist.
   */
  lemma MakeReservationKeepsValid(db: CultpassData, userId: string, experienceId: string, newId: string)
    requires Valid(db)
    ensures Valid(MakeReservationStep(db, userId, experienceId, newId).data)
  {
    var r := MakeReservationStep(db, userId, experienceId, newId);
    if r.reply.Ok? {
      var rows := r.data.reservations;
      forall i, j | 0 <= i < j < |rows|
        ensures rows[i].reservationId != rows[j].reservationId
      {
        if j == |rows| - 1 {
          assert rows[i] == db.reservations[i];
        }
      }
    }
  }

  /** A cancellation on valid tables keeps them valid. */
  lemma CancelReservationKeepsValid(db: CultpassData, userId: string, reservationId: string)
    requires Valid(db)
    ensures Valid(CancelReservationStep(db, userId, reservationId).data)
  {
    var r := CancelReservationStep(db, userId, reservationId);
    if r.reply.Ok? {
      var k :| CancelledAt(db, r.data, k, reservationId, userId);
      var rows := r.data.reservations;
      assert forall i :: 0 <= i < |rows| ==>
        && rows[i].reservationId == db.reservations[i].reservationId
        && rows[i].userId == db.reservations[i].userId
        && rows[i].experienceId == db.reservations[i].experienceId;
    }
  }

  /** A reservation never creates a second live booking of the same user for the same experience. */
  lemma MakeReservationNoDoubleBooking(db: CultpassData, userId: string, experienceId: string, newId: string)
    requires NoDoubleBooking(db)
    ensures NoDoubleBooking(MakeReservationStep(db, userId, experienceId, newId).data)
    ensures !MakeReservationStep(db, userId, experienceId, newId).reply.Raised?
      || MakeReservationStep(db, userId, experienceId, newId).reply == Raised("IntegrityError")
  {
    var r := MakeReservationStep(db, userId, experienceId, newId);
    if r.reply.Ok? {
      forall u, e
        ensures Count(r.data.reservations, Booking(u, e)) <= 1
      {
        CountAppend(db.reservations, r.reply.value, Booking(u, e));
      }
    }
  }

  /** A cancellation only removes live bookings. */
  lemma CancelReservationNoDoubleBooking(db: CultpassData, userId: string, reservationId: string)
    requires NoDoubleBooking(db)
    ensures NoDoubleBooking(CancelReservationStep(db, userId, reservationId).data)
  {
    var r := CancelReservationStep(db, userId, reservationId);
    if r.reply.Ok? {
      var k :| CancelledAt(db, r.data, k, reservationId, userId);
      forall u, e
        ensures Count(r.data.reservations, Booking(u, e)) <= 1
      {
        CountUpdate(db.reservations, k, db.reservations[k].(status := "cancelled"), Booking(u, e));
      }
    }
  }

  /**
   * Slots are conserved: for every experience, the free slots plus the live
   * reservations holding one are the same before and after a reservation is
   * made or cancelled.
   */
  lemma MakeReservationConservesSlots(db: CultpassData, userId: string, experienceId: string, newId: string)
    ensures var r := MakeReservationStep(db, userId, experienceId, newId);
      forall e :: e in db.experiences ==> e in r.data.experiences && Held(r.data, e) == Held(db, e)
  {
    var r := MakeReservationStep(db, userId, experienceId, newId);
    if r.reply.Ok? {
      forall e | e in db.experiences
        ensures e in r.data.experiences && Held(r.data, e) == Held(db, e)
      {
        CountAppend(db.reservations, r.reply.value, HoldsSlot(e));
      }
    }
  }

  lemma CancelReservationConservesSlots(db: CultpassData, userId: string, reservationId: string)
    ensures var r := CancelReservationStep(db, userId, reservationId);
      forall e :: e in db.experiences ==> e in r.data.experiences && Held(r.data, e) == Held(db, e)
  {
    var r := CancelReservationStep(db, userId, reservationId);
    if r.reply.Ok? {
      var k :| CancelledAt(db, r.data, k, reservationId, userId);
      forall e | e in db.experiences
        ensures e in r.data.experiences && Held(r.data, e) == Held(db, e)
      {
        CountUpdate(db.reservations, k, db.reservations[k].(status := "cancelled"), HoldsSlot(e));
      }
    }
  }

  /**
   * A reservation just made can be cancelled by its user, which gives every
   * slot back: the experiences are as before and the row stays, cancelled.
   */
  lemma MakeThenCancel(db: CultpassData, userId: string, experienceId: string, newId: string)
    requires MakeReservationStep(db, userId, experienceId, newId).reply.Ok?
    ensures var mid := MakeReservationStep(db, userId, experienceId, newId).data;
      var back := CancelReservationStep(mid, userId, newId);
      && back.reply == Ok(ReservationCancelled)
      && back.data.users == db.users
      && back.data.experiences == db.experiences
      && back.data.reservations == db.reservations + [ReservationRow(newId, userId, experienceId, "cancelled")]
  {
    var mid := MakeReservationStep(db, userId, experienceId, newId).data;
    var row := ReservationRow(newId, userId, experienceId, "reserved");
    var p := MatchesId(newId, userId);
    CountZero(db.reservations, p);
    CountAppend(db.reservations, row, p);
    var back := CancelReservationStep(mid, userId, newId);
    var k :| CancelledAt(mid, back.data, k, newId, userId);
    assert k == |db.reservations|;
    assert back.data.experiences == db.experiences;
  }
}
