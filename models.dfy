/** The persisted entities of internal/models and the subscription window predicates. */
module Models {
  import opened Base

  /** Robot.Status; the stored text of Suspense is the literal "suspense". */
  datatype RobotStatus = RobotPending | RobotActive | RobotSuspense

  datatype PaymentStatus = PaymentPending | PaymentCompleted | PaymentFailed | PaymentCanceled | PaymentRefunded

  datatype PaymentProvider = ProviderStripe

  datatype SubscriptionStatus = SubscriptionActive | SubscriptionInactive | SubscriptionCanceled
                              | SubscriptionExpired | SubscriptionPending

  /** models.BasicPlan, the only plan type constant of the source. */
  const BasicPlan: string := "basic"

  /** A user account. `password` holds the credential hash; `messagesUsed` is the quota counter. */
  datatype User = User(id: Id, name: string, email: string, password: string, messagesUsed: nat)

  /** A robot row. `planValidUntil` and `lastPing` are nullable times. */
  datatype Robot = Robot(id: Id, name: string, userId: Id, activateIn: Option<int>, status: RobotStatus,
                         planValidUntil: Option<int>, lastPing: Option<int>)

  /** A plan row; `expiredIn` keeps the zero time when nobody sets it. */
  datatype Plan = Plan(id: Id, userId: Id, robotId: Id, planType: string, expiredIn: int, active: bool,
                       paymentId: string)

  /** A subscription row mirrored from the payment provider. */
  datatype Subscription = Subscription(id: Id, userId: Id, robotId: Id, planType: string,
                                       status: SubscriptionStatus, periodStart: int, periodEnd: int,
                                       providerSubscriptionId: string, providerCustomerId: string,
                                       cancelAtPeriodEnd: bool, canceledAt: Option<int>)

  /** A payment row; `robotId` stays nil until the robot exists, `metadata` is a JSON text. */
  datatype Payment = Payment(id: Id, userId: Id, robotId: Option<Id>, planId: Option<Id>, amount: int,
                             currency: string, status: PaymentStatus, provider: PaymentProvider,
                             providerPaymentId: string, providerCustomerId: string,
                             providerSessionId: string, providerSubscriptionId: string, metadata: string)

  /** A conversation log row (ConversaLog): the robot, the question (Pergunta), the answer (Resposta)
      and the mood tag (Emocao). */
  datatype ConversationLog = ConversationLog(id: Id, robotId: Id, question: string, answer: string, mood: string)

  /** A robot together with the rows gorm preloads for it: its owner ("User") and its plans ("Plans"). */
  datatype LoadedRobot = LoadedRobot(robot: Robot, owner: Option<User>, plans: seq<Plan>)

  /** Subscription.IsActive: active status and now strictly inside the current period. */
  predicate IsActive(s: Subscription, now: int) {
    s.status == SubscriptionActive && now > s.periodStart && now < s.periodEnd
  }

  /** Subscription.ShouldRenew: active, not flagged to cancel, and now past one day before the period end. */
  predicate ShouldRenew(s: Subscription, now: int) {
    s.status == SubscriptionActive && !s.cancelAtPeriodEnd && now > s.periodEnd - Day
  }

  /** Both ends of the period are excluded by IsActive. */
  lemma IsActiveExcludesBounds(s: Subscription)
    ensures !IsActive(s, s.periodStart) && !IsActive(s, s.periodEnd)
  {
  }

  /** Every status other than active switches both predicates off; the cancel flag switches off renewal. */
  lemma InactiveStatusDisablesBoth(s: Subscription, now: int)
    ensures s.status != SubscriptionActive ==> !IsActive(s, now) && !ShouldRenew(s, now)
    ensures s.cancelAtPeriodEnd ==> !ShouldRenew(s, now)
  {
  }

  /** Renewal is still signalled once the period has ended: ShouldRenew has no upper bound on now. */
  lemma ShouldRenewAfterEnd(s: Subscription, now: int)
    requires s.status == SubscriptionActive && !s.cancelAtPeriodEnd
    requires now >= s.periodEnd
    ensures ShouldRenew(s, now) && !IsActive(s, now)
  {
  }

  /** The renewal window opens exactly one day before the period end, exclusive. */
  lemma ShouldRenewWindow(s: Subscription, now: int)
    requires s.status == SubscriptionActive && !s.cancelAtPeriodEnd
    ensures ShouldRenew(s, now) <==> now > s.periodEnd - Day
    ensures !ShouldRenew(s, s.periodEnd - Day)
  {
  }
}
