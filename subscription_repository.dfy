/** internal/repository/subscription_repository.go: window and key lookups over the subscriptions
    table and its in-place status and cancellation updates. */
module SubscriptionRepository {
  import opened Base
  import opened Models
  import opened Storage

  /** The row filter of FindActiveByRobotID; unlike IsActive it admits the period start. */
  predicate InActiveWindow(s: Subscription, robotId: Id, now: int) {
    s.robotId == robotId && s.status == SubscriptionActive && s.periodStart <= now && now < s.periodEnd
  }

  /** FindActiveByRobotID: a subscription of the robot, active, with start <= now < end;
      None stands for the record-not-found error. */
  function FindActiveByRobotID(subs: seq<Subscription>, robotId: Id, now: int): (r: Option<Subscription>)
    ensures r.Some? ==> r.value in subs && r.value.robotId == robotId && r.value.status == SubscriptionActive
    ensures r.Some? ==> r.value.periodStart <= now < r.value.periodEnd
    ensures r.None? <==> forall i :: 0 <= i < |subs| ==> !InActiveWindow(subs[i], robotId, now)
  {
    First(subs, (s: Subscription) => InActiveWindow(s, robotId, now))
  }

  /** A row returned by FindActiveByRobotID fails IsActive exactly at its period start. */
  lemma FoundRowIsActiveUnlessAtStart(subs: seq<Subscription>, robotId: Id, now: int)
    requires FindActiveByRobotID(subs, robotId, now).Some?
    ensures IsActive(FindActiveByRobotID(subs, robotId, now).value, now)
        <==> now != FindActiveByRobotID(subs, robotId, now).value.periodStart
  {
  }

  /** FindByRobotID: the most recently created subscription of the robot (ORDER BY created_at DESC;
      creation order is table order here). */
  function FindByRobotID(subs: seq<Subscription>, robotId: Id): (r: Option<Subscription>)
    ensures r.Some? ==> r.value in subs && r.value.robotId == robotId
    ensures r.Some? ==> exists i :: 0 <= i < |subs| && subs[i] == r.value &&
                                    forall j :: i < j < |subs| ==> subs[j].robotId != robotId
    ensures r.None? <==> forall i :: 0 <= i < |subs| ==> subs[i].robotId != robotId
  {
    match LastIndex(subs, (s: Subscription) => s.robotId == robotId)
    case None => None
    case Some(i) => Some(subs[i])
  }

  /** FindByProviderSubscriptionID: a subscription with that provider id, or the not-found error. */
  function FindByProviderSubscriptionID(subs: seq<Subscription>, providerId: string): (r: Option<Subscription>)
    ensures r.Some? ==> r.value in subs && r.value.providerSubscriptionId == providerId
    ensures r.None? <==> forall i :: 0 <= i < |subs| ==> subs[i].providerSubscriptionId != providerId
  {
    First(subs, (s: Subscription) => s.providerSubscriptionId == providerId)
  }

  /** The row filter of FindExpiringSubscriptions. */
  predicate Expiring(s: Subscription, days: int, now: int) {
    s.status == SubscriptionActive && s.periodEnd <= now + days * Day && !s.cancelAtPeriodEnd
  }

  /** FindExpiringSubscriptions: exactly the active, unflagged subscriptions whose period ends no
      later than `days` days from now, in table order. */
  function FindExpiringSubscriptions(subs: seq<Subscription>, days: int, now: int): (r: seq<Subscription>)
    ensures forall i :: 0 <= i < |r| ==> r[i] in subs && Expiring(r[i], days, now)
    ensures forall i :: 0 <= i < |subs| && Expiring(subs[i], days, now) ==> subs[i] in r
  {
    Filter(subs, (s: Subscription) => Expiring(s, days, now))
  }

  /** The changes UpdateStatus applies to one row: the status, and canceled_at only for canceled. */
  function StatusUpdated(s: Subscription, status: SubscriptionStatus, now: int): (r: Subscription)
    ensures r.status == status
    ensures r.canceledAt == if status == SubscriptionCanceled then Some(now) else s.canceledAt
    ensures r.(status := s.status, canceledAt := s.canceledAt) == s
  {
    if status == SubscriptionCanceled then s.(status := status, canceledAt := Some(now)) else s.(status := status)
  }

  /** The changes CancelSubscription applies to one row: the flag, and for an immediate
      cancellation also the status and canceled_at. */
  function Cancelled(s: Subscription, atPeriodEnd: bool, now: int): (r: Subscription)
    ensures r.cancelAtPeriodEnd == atPeriodEnd
    ensures atPeriodEnd ==> r == s.(cancelAtPeriodEnd := true)
    ensures !atPeriodEnd ==> r == s.(cancelAtPeriodEnd := false, status := SubscriptionCanceled, canceledAt := Some(now))
  {
    if atPeriodEnd then s.(cancelAtPeriodEnd := true)
    else s.(cancelAtPeriodEnd := false, status := SubscriptionCanceled, canceledAt := Some(now))
  }

  /** Applies f to the rows with that id (UPDATE ... WHERE id = ?). */
  function UpdateWhereId(subs: seq<Subscription>, id: Id, f: Subscription -> Subscription): (r: seq<Subscription>)
    ensures |r| == |subs|
    ensures forall i :: 0 <= i < |subs| ==> r[i] == if subs[i].id == id then f(subs[i]) else subs[i]
  {
    seq(|subs|, i requires 0 <= i < |subs| => if subs[i].id == id then f(subs[i]) else subs[i])
  }

  /** Cancelling at period end leaves a subscription usable: IsActive is unchanged. Cancelling
      immediately ends it: neither IsActive nor ShouldRenew holds afterwards. */
  lemma CancelEffectOnWindow(s: Subscription, now: int, later: int)
    ensures IsActive(Cancelled(s, true, now), later) == IsActive(s, later)
    ensures !ShouldRenew(Cancelled(s, true, now), later)
    ensures !IsActive(Cancelled(s, false, now), later) && !ShouldRenew(Cancelled(s, false, now), later)
  {
  }

  /** Create: inserts the subscription under a fresh id (BeforeCreate). */
  method Create(db: Database, s: Subscription) returns (created: Subscription)
    modifies db
    ensures created == s.(id := FreshId(old(db.State())))
    ensures Unused(old(db.State()), created.id)
    ensures db.State() == old(db.State()).(subscriptions := old(db.subscriptions) + [created])
  {
    created := s.(id := FreshId(db.State()));
    db.subscriptions := db.subscriptions + [created];
  }

  /** UpdateStatus: sets the status of the identified rows and stamps canceled_at for a cancellation. */
  method UpdateStatus(db: Database, id: Id, status: SubscriptionStatus, now: int)
    modifies db
    ensures db.State() == old(db.State()).(subscriptions :=
      UpdateWhereId(old(db.subscriptions), id, (s: Subscription) => StatusUpdated(s, status, now)))
  {
    db.subscriptions := UpdateWhereId(db.subscriptions, id, (s: Subscription) => StatusUpdated(s, status, now));
  }

  /** CancelSubscription: flags cancellation at period end, or cancels now. */
  method CancelSubscription(db: Database, id: Id, atPeriodEnd: bool, now: int)
    modifies db
    ensures db.State() == old(db.State()).(subscriptions :=
      UpdateWhereId(old(db.subscriptions), id, (s: Subscription) => Cancelled(s, atPeriodEnd, now)))
  {
    db.subscriptions := UpdateWhereId(db.subscriptions, id, (s: Subscription) => Cancelled(s, atPeriodEnd, now));
  }
}
