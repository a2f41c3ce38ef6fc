/** internal/services/stripe_service.go: the checkout request, the webhook dispatch and the two
    checkout-session handlers, over the store. Calls into the payment provider are inputs: the
    session the provider creates, the parsed event payload and the subscription it reports. */
module StripeService {
  import opened Base
  import opened Models
  import opened Storage
  import opened PaymentMetadata
  import PaymentRepository
  import RobotRepository
  import SubscriptionRepository
  import PaymentService

  // ---------------------------------------------------------------- provider inputs

  /** The checkout session as the handlers parse it from the event payload: its id, the customer
      (nil when absent) and the subscription (nil when absent). */
  datatype CheckoutSession = CheckoutSession(id: string, customer: Option<string>, subscription: Option<string>)

  /** The event payload: either it does not parse as a checkout session, or it does. */
  datatype EventData = Malformed | SessionData(session: CheckoutSession)

  datatype Event = Event(eventType: string, data: EventData)

  /** What the provider reports for a subscription id: its current period and customer. */
  datatype ProviderSubscription = ProviderSubscription(periodStart: int, periodEnd: int, customer: string)

  /** The outcome of asking the provider for a new checkout session. */
  datatype SessionRequest = SessionCreated(id: string, url: string) | SessionRefused

  datatype StripeError =
    | InvalidPlan(planType: string)
    | SessionCreationFailed
    | ParseError
    | PaymentNotFoundForSession(sessionId: string)
    | NilCustomer
    | SubscriptionFetchFailed

  datatype Outcome = Outcome(tables: Tables, err: Option<StripeError>)

  // ---------------------------------------------------------------- plan tiers

  const CheckoutCompleted: string := "checkout.session.completed"
  const AsyncPaymentFailed: string := "checkout.session.async_payment_failed"

  /** The four event types that have a handler that only returns nil. */
  predicate IsReservedEventType(eventType: string) {
    || eventType == "invoice.payment_succeeded"
    || eventType == "invoice.payment_failed"
    || eventType == "customer.subscription.updated"
    || eventType == "customer.subscription.deleted"
  }

  /** The keys of the checkout's price map. */
  predicate IsPlanTier(planType: string) {
    planType == "basic" || planType == "premium" || planType == "enterprise"
  }

  /** getPlanAmount: the price in cents of a tier, the basic price (2990) for anything else. */
  function PlanAmount(planType: string): (amount: int)
    ensures amount > 0
    ensures amount == 2990 || amount == 4990 || amount == 9990
    ensures !IsPlanTier(planType) ==> amount == 2990
    ensures planType == "basic" ==> amount == 2990
    ensures planType == "premium" ==> amount == 4990
    ensures planType == "enterprise" ==> amount == 9990
  {
    if planType == "premium" then 4990
    else if planType == "enterprise" then 9990
    else 2990
  }

  /** The tiers have distinct prices, so the amount identifies the tier. */
  lemma PlanAmountIdentifiesTier(a: string, b: string)
    requires IsPlanTier(a) && IsPlanTier(b) && PlanAmount(a) == PlanAmount(b)
    ensures a == b
  {
  }

  // ---------------------------------------------------------------- checkout

  /** The pending payment the checkout stores: no robot yet, the user id parsed (uuid.Nil when the
      parse fails, its error being ignored), the tier's amount in BRL, the provider's session id,
      and the metadata naming the robot and tier. */
  function PendingPayment(id: Id, userId: RawId, robotName: string, planType: string, sessionId: string): (p: Payment)
  {
    Payment(id, if userId.Uuid? then userId.id else NilUuid, None, None, PlanAmount(planType), "BRL",
            PaymentPending, ProviderStripe, "", "", sessionId, "", FormatMetadata(robotName, planType))
  }

  /** CreateCheckoutSessionForRobot as a function: an unknown tier or a refused session request
      stores nothing; otherwise one pending payment is appended under a fresh id. */
  function Checkout(t: Tables, userId: RawId, robotName: string, planType: string, session: SessionRequest): (r: Outcome)
    ensures r.err == Some(InvalidPlan(planType)) <==> !IsPlanTier(planType)
    ensures r.err == Some(SessionCreationFailed) <==> IsPlanTier(planType) && session.SessionRefused?
    ensures r.err.Some? ==> r.tables == t
    ensures r.err.None? ==> r.tables.(payments := t.payments) == t && |r.tables.payments| == |t.payments| + 1
    ensures r.err.None? ==> r.tables.payments[..|t.payments|] == t.payments
  {
    if !IsPlanTier(planType) then Outcome(t, Some(InvalidPlan(planType)))
    else if session.SessionRefused? then Outcome(t, Some(SessionCreationFailed))
    else
      var p := PendingPayment(FreshId(t), userId, robotName, planType, session.id);
      assert (t.payments + [p])[..|t.payments|] == t.payments;
      Outcome(t.(payments := t.payments + [p]), None)
  }

  /** The payment a successful checkout stores. */
  lemma CheckoutStoresPendingPayment(t: Tables, userId: RawId, robotName: string, planType: string, session: SessionRequest)
    requires Checkout(t, userId, robotName, planType, session).err.None?
    ensures var p := Checkout(t, userId, robotName, planType, session).tables.payments[|t.payments|];
      && Unused(t, p.id) && p.id != NilUuid
      && p.status == PaymentPending && p.provider == ProviderStripe && p.currency == "BRL"
      && p.providerSessionId == session.id && p.amount == PlanAmount(planType) && p.robotId.None?
      && (JsonSafe(robotName) && JsonSafe(planType) ==> DecodeRobotName(p.metadata) == Some(robotName))
  {
    if JsonSafe(robotName) && JsonSafe(planType) {
      DecodeFormat(robotName, planType);
    }
  }

  /** CreateCheckoutSessionForRobot: validates the tier, asks the provider for a session, then
      stores the pending payment (whose insert error, if any, is ignored) and returns the session.
      The email only goes to the provider. */
  method CreateCheckoutSessionForRobot(db: Database, userId: RawId, robotName: string, planType: string,
                                       userEmail: string, session: SessionRequest)
    returns (created: Option<SessionRequest>, err: Option<StripeError>)
    modifies db
    ensures Outcome(db.State(), err) == Checkout(old(db.State()), userId, robotName, planType, session)
    ensures created.Some? <==> err.None?
    ensures created.Some? ==> created.value == session
  {
    if !IsPlanTier(planType) {
      return None, Some(InvalidPlan(planType));
    }
    if session.SessionRefused? {
      return None, Some(SessionCreationFailed);
    }
    var userUuid := ParseUuid(userId);
    var owner := if userUuid.Some? then userUuid.value else NilUuid;
    var payment := Payment(NilUuid, owner, None, None, PlanAmount(planType), "BRL", PaymentPending,
                           ProviderStripe, "", "", session.id, "", FormatMetadata(robotName, planType));
    var stored := PaymentRepository.Create(db, payment);
    created, err := Some(session), None;
  }

  // ---------------------------------------------------------------- checkout.session.completed

  /** The payment as the completed handler rewrites it: completed, the session's customer, and the
      session's subscription id when there is one. */
  function Reconciled(p: Payment, s: CheckoutSession): (r: Payment)
    requires s.customer.Some?
    ensures r.status == PaymentCompleted && r.providerCustomerId == s.customer.value
    ensures r.providerSubscriptionId == if s.subscription.Some? then s.subscription.value else p.providerSubscriptionId
    ensures r.(status := p.status, providerCustomerId := p.providerCustomerId,
               providerSubscriptionId := p.providerSubscriptionId) == p
  {
    var paid := p.(status := PaymentCompleted, providerCustomerId := s.customer.value);
    if s.subscription.Some? then paid.(providerSubscriptionId := s.subscription.value) else paid
  }

  /** The tables after the robot step, and the robot id the subscription row will carry. */
  datatype Linked = Linked(tables: Tables, robotId: Id)

  /** The robot step of the completed handler, on the saved payment: with no robot linked, the
      robot named in the metadata is created active for the payer and linked (the robot id stays
      uuid.Nil when the metadata yields no name); with a robot linked, it is set active. */
  function LinkRobot(t: Tables, paid: Payment): (r: Linked)
  {
    if paid.robotId.None? then
      match DecodeRobotName(paid.metadata)
      case None => Linked(t, NilUuid)
      case Some(name) =>
        var robot := Robot(FreshId(t), name, paid.userId, None, RobotActive, None, None);
        var withRobot := t.(robots := t.robots + [robot]);
        Linked(withRobot.(payments := PaymentRepository.Saved(t.payments, paid.(robotId := Some(robot.id)))), robot.id)
    else
      Linked(PaymentService.SetLinkedRobotStatus(t, paid.robotId, RobotActive), paid.robotId.value)
  }

  /** The robot step touches only the robots and payments tables: it activates the linked robot,
      or appends the robot the metadata names and backfills the payment's link to it. */
  lemma LinkRobotEffect(t: Tables, paid: Payment)
    ensures var l := LinkRobot(t, paid).tables;
      && l.users == t.users && l.plans == t.plans && l.logs == t.logs && l.subscriptions == t.subscriptions
      && (paid.robotId.Some? ==>
            l.robots == PaymentService.SetLinkedRobotStatus(t, paid.robotId, RobotActive).robots && l.payments == t.payments)
      && (paid.robotId.None? && DecodeRobotName(paid.metadata).None? ==> l == t)
      && (paid.robotId.None? && DecodeRobotName(paid.metadata).Some? ==>
            && l.robots == t.robots + [Robot(FreshId(t), DecodeRobotName(paid.metadata).value, paid.userId,
                                             None, RobotActive, None, None)]
            && l.payments == PaymentRepository.Saved(t.payments, paid.(robotId := Some(FreshId(t)))))
  {
  }

  /** The subscription row createSubscriptionRecord inserts: the basic tier whatever was bought,
      active, with the period and customer the provider reports. */
  function SubscriptionRow(id: Id, subscriptionId: string, userId: Id, robotId: Id, fetched: ProviderSubscription): Subscription
  {
    Subscription(id, userId, robotId, BasicPlan, SubscriptionActive, fetched.periodStart, fetched.periodEnd,
                 subscriptionId, fetched.customer, false, None)
  }

  /** createSubscriptionRecord: nothing is stored when the provider lookup fails. */
  function SubscriptionRecorded(t: Tables, subscriptionId: string, userId: Id, robotId: Id,
                                fetched: Option<ProviderSubscription>): (r: Tables)
    ensures r.(subscriptions := t.subscriptions) == t
    ensures fetched.None? ==> r == t
    ensures fetched.Some? ==> |r.subscriptions| == |t.subscriptions| + 1 && r.subscriptions[..|t.subscriptions|] == t.subscriptions
  {
    match fetched
    case None => t
    case Some(f) =>
      var row := SubscriptionRow(FreshId(t), subscriptionId, userId, robotId, f);
      assert (t.subscriptions + [row])[..|t.subscriptions|] == t.subscriptions;
      t.(subscriptions := t.subscriptions + [row])
  }

  /** handleCheckoutSessionCompleted as a function. A nil customer dereference is modelled as an
      error raised before anything is written. */
  function CompletedOutcome(t: Tables, data: EventData, fetched: Option<ProviderSubscription>): (r: Outcome)
    ensures r.err.Some? ==> r.tables == t
    ensures r.err == Some(ParseError) <==> data.Malformed?
    ensures data.SessionData? ==>
      (r.err == Some(PaymentNotFoundForSession(data.session.id)) <==>
        PaymentRepository.FindByProviderSessionID(t.payments, data.session.id).None?)
    ensures r.err.None? <==>
      data.SessionData? && data.session.customer.Some? &&
      PaymentRepository.FindByProviderSessionID(t.payments, data.session.id).Some?
  {
    match data
    case Malformed => Outcome(t, Some(ParseError))
    case SessionData(s) =>
      match PaymentRepository.FindByProviderSessionID(t.payments, s.id)
      case None => Outcome(t, Some(PaymentNotFoundForSession(s.id)))
      case Some(payment) =>
        if s.customer.None? then Outcome(t, Some(NilCustomer))
        else
          var paid := Reconciled(payment, s);
          var linked := LinkRobot(t.(payments := PaymentRepository.Saved(t.payments, paid)), paid);
          if s.subscription.Some? then
            Outcome(SubscriptionRecorded(linked.tables, s.subscription.value, paid.userId, linked.robotId, fetched), None)
          else Outcome(linked.tables, None)
  }

  /** The payment found for the session after a successful completed handler: reconciled, with
      the robot link kept or, when the metadata names a robot, backfilled with the new robot. */
  function ExpectedPayment(p: Payment, s: CheckoutSession, t: Tables): Payment
    requires s.customer.Some?
  {
    var paid := Reconciled(p, s);
    if paid.robotId.None? && DecodeRobotName(paid.metadata).Some? then
      paid.(robotId := Some(FreshId(t.(payments := PaymentRepository.Saved(t.payments, paid)))))
    else paid
  }

  /** After a successful completed handler the session lookup finds the reconciled payment, with
      its robot link kept or backfilled. */
  lemma CompletedPaymentLookup(t: Tables, s: CheckoutSession, fetched: Option<ProviderSubscription>)
    requires s.customer.Some?
    requires PaymentRepository.FindByProviderSessionID(t.payments, s.id).Some?
    ensures var p := PaymentRepository.FindByProviderSessionID(t.payments, s.id).value;
      PaymentRepository.FindByProviderSessionID(CompletedOutcome(t, SessionData(s), fetched).tables.payments, s.id)
        == Some(ExpectedPayment(p, s, t))
  {
    var p := PaymentRepository.FindByProviderSessionID(t.payments, s.id).value;
    var paid := Reconciled(p, s);
    var t1 := t.(payments := PaymentRepository.Saved(t.payments, paid));
    assert CompletedOutcome(t, SessionData(s), fetched).tables.payments == LinkRobot(t1, paid).tables.payments;
    LinkRobotEffect(t1, paid);
    PaymentRepository.SessionLookupAfterSave(t.payments, paid);
    if paid.robotId.None? && DecodeRobotName(paid.metadata).Some? {
      PaymentRepository.SessionLookupAfterSave(t1.payments, ExpectedPayment(p, s, t));
    }
  }

  /** After a successful completed handler the plans, users and logs tables are untouched, and the
      robots table is either the old one with the linked robot activated or the old one plus the
      robot the metadata names. */
  lemma CompletedEffect(t: Tables, s: CheckoutSession, fetched: Option<ProviderSubscription>)
    requires s.customer.Some?
    requires PaymentRepository.FindByProviderSessionID(t.payments, s.id).Some?
    ensures var p := PaymentRepository.FindByProviderSessionID(t.payments, s.id).value;
      var r := CompletedOutcome(t, SessionData(s), fetched).tables;
      && r.users == t.users && r.plans == t.plans && r.logs == t.logs
      && (p.robotId.Some? ==> r.robots == PaymentService.SetLinkedRobotStatus(t, p.robotId, RobotActive).robots)
      && (p.robotId.None? && DecodeRobotName(p.metadata).None? ==> r.robots == t.robots)
      && (p.robotId.None? && DecodeRobotName(p.metadata).Some? ==>
            r.robots == t.robots + [Robot(ExpectedPayment(p, s, t).robotId.value, DecodeRobotName(p.metadata).value,
                                          p.userId, None, RobotActive, None, None)])
  {
    var p := PaymentRepository.FindByProviderSessionID(t.payments, s.id).value;
    var paid := Reconciled(p, s);
    var t1 := t.(payments := PaymentRepository.Saved(t.payments, paid));
    var linked := LinkRobot(t1, paid);
    assert CompletedOutcome(t, SessionData(s), fetched).tables.(subscriptions := linked.tables.subscriptions) == linked.tables;
    LinkRobotEffect(t1, paid);
  }

  /** A subscription row is added exactly when the session carries a subscription and the provider
      reports it; the row is active, basic, and carries the provider's period. */
  lemma CompletedSubscriptionRow(t: Tables, s: CheckoutSession, fetched: Option<ProviderSubscription>)
    requires s.customer.Some?
    requires PaymentRepository.FindByProviderSessionID(t.payments, s.id).Some?
    ensures var r := CompletedOutcome(t, SessionData(s), fetched).tables;
      && (s.subscription.None? || fetched.None? ==> r.subscriptions == t.subscriptions)
      && (s.subscription.Some? && fetched.Some? ==>
            && |r.subscriptions| == |t.subscriptions| + 1
            && r.subscriptions[..|t.subscriptions|] == t.subscriptions
            && var row := r.subscriptions[|t.subscriptions|];
               row.status == SubscriptionActive && row.planType == BasicPlan
               && row.periodStart == fetched.value.periodStart && row.periodEnd == fetched.value.periodEnd
               && row.providerSubscriptionId == s.subscription.value
               && row.userId == PaymentRepository.FindByProviderSessionID(t.payments, s.id).value.userId)
  {
    var p := PaymentRepository.FindByProviderSessionID(t.payments, s.id).value;
    var paid := Reconciled(p, s);
    var linked := LinkRobot(t.(payments := PaymentRepository.Saved(t.payments, paid)), paid);
    assert linked.tables.subscriptions == t.subscriptions;
    if s.subscription.Some? {
      var r := SubscriptionRecorded(linked.tables, s.subscription.value, paid.userId, linked.robotId, fetched);
      assert CompletedOutcome(t, SessionData(s), fetched).tables == r;
    }
  }

  /** Replaying a completed event never creates a second robot: the second run finds the payment
      already linked (or its metadata still naming no robot) and keeps the robot count. */
  lemma ReplayCreatesNoSecondRobot(t: Tables, data: EventData, fetched: Option<ProviderSubscription>,
                                   refetched: Option<ProviderSubscription>)
    ensures var once := CompletedOutcome(t, data, fetched).tables;
      |CompletedOutcome(once, data, refetched).tables.robots| == |once.robots|
  {
    var once := CompletedOutcome(t, data, fetched);
    if once.err.None? {
      var s := data.session;
      var p := PaymentRepository.FindByProviderSessionID(t.payments, s.id).value;
      CompletedEffect(t, s, fetched);
      CompletedPaymentLookup(t, s, fetched);
      var q := ExpectedPayment(p, s, t);
      CompletedEffect(once.tables, s, refetched);
      if q.robotId.None? {
        assert Reconciled(q, s).metadata == p.metadata;
      }
    }
  }

  /** Replaying a completed event whose session carries a subscription adds another subscription
      row each time the provider reports it: there is no upsert by provider id. */
  lemma ReplayAddsSubscriptionRow(t: Tables, s: CheckoutSession, f: ProviderSubscription)
    requires s.customer.Some? && s.subscription.Some?
    requires PaymentRepository.FindByProviderSessionID(t.payments, s.id).Some?
    ensures var once := CompletedOutcome(t, SessionData(s), Some(f)).tables;
      |CompletedOutcome(once, SessionData(s), Some(f)).tables.subscriptions| == |t.subscriptions| + 2
  {
    var once := CompletedOutcome(t, SessionData(s), Some(f)).tables;
    CompletedPaymentLookup(t, s, Some(f));
    CompletedSubscriptionRow(t, s, Some(f));
    CompletedSubscriptionRow(once, s, Some(f));
  }

  /** createSubscriptionRecord: asks the provider for the subscription and stores its row. */
  method CreateSubscriptionRecord(db: Database, subscriptionId: string, userId: Id, robotId: Id,
                                  fetched: Option<ProviderSubscription>)
    returns (err: Option<StripeError>)
    modifies db
    ensures db.State() == SubscriptionRecorded(old(db.State()), subscriptionId, userId, robotId, fetched)
    ensures err.Some? <==> fetched.None?
  {
    if fetched.None? {
      return Some(SubscriptionFetchFailed);
    }
    var f := fetched.value;
    var row := Subscription(NilUuid, userId, robotId, BasicPlan, SubscriptionActive, f.periodStart, f.periodEnd,
                            subscriptionId, f.customer, false, None);
    var created := SubscriptionRepository.Create(db, row);
    err := None;
  }

  /** handleCheckoutSessionCompleted. */
  method HandleCheckoutSessionCompleted(db: Database, data: EventData, fetched: Option<ProviderSubscription>)
    returns (err: Option<StripeError>)
    modifies db
    ensures Outcome(db.State(), err) == CompletedOutcome(old(db.State()), data, fetched)
  {
    if data.Malformed? {
      return Some(ParseError);
    }
    var session := data.session;
    var found := PaymentRepository.FindByProviderSessionID(db.payments, session.id);
    if found.None? {
      return Some(PaymentNotFoundForSession(session.id));
    }
    if session.customer.None? {
      return Some(NilCustomer);
    }
    var payment := found.value.(status := PaymentCompleted, providerCustomerId := session.customer.value);
    if session.subscription.Some? {
      payment := payment.(providerSubscriptionId := session.subscription.value);
    }
    PaymentRepository.Update(db, payment);
    ghost var saved := db.State();
    var robotId := NilUuid;
    if payment.robotId.None? {
      var robotName := DecodeRobotName(payment.metadata);
      if robotName.Some? {
        var robot := RobotRepository.Create(db, Robot(NilUuid, robotName.value, payment.userId, None, RobotActive, None, None));
        robotId := robot.id;
        payment := payment.(robotId := Some(robotId));
        PaymentRepository.Update(db, payment);
      }
    } else {
      robotId := payment.robotId.value;
      var robot := RobotRepository.FindById(db.robots, robotId);
      if robot.Some? {
        RobotRepository.Update(db, robot.value.(status := RobotActive));
      }
    }
    assert Linked(db.State(), robotId) == LinkRobot(saved, Reconciled(found.value, session));
    if session.subscription.Some? {
      var ignored := CreateSubscriptionRecord(db, session.subscription.value, payment.userId, robotId, fetched);
    }
    err := None;
  }

  // ---------------------------------------------------------------- checkout.session.async_payment_failed

  /** handleCheckoutSessionFailed as a function. */
  function FailedOutcome(t: Tables, data: EventData): (r: Outcome)
    ensures r.err.Some? ==> r.tables == t
    ensures r.err == Some(ParseError) <==> data.Malformed?
    ensures r.err.None? <==>
      data.SessionData? && PaymentRepository.FindByProviderSessionID(t.payments, data.session.id).Some?
    ensures r.err.None? ==> r.tables.(payments := t.payments) == t
  {
    match data
    case Malformed => Outcome(t, Some(ParseError))
    case SessionData(s) =>
      match PaymentRepository.FindByProviderSessionID(t.payments, s.id)
      case None => Outcome(t, Some(PaymentNotFoundForSession(s.id)))
      case Some(payment) => Outcome(t.(payments := PaymentRepository.Saved(t.payments, payment.(status := PaymentFailed))), None)
  }

  /** The failed handler sets only the status of the session's payment: the lookup then finds it
      failed and otherwise unchanged, and every row with another id stays as it was. */
  lemma FailedSetsOnlyStatus(t: Tables, s: CheckoutSession)
    requires PaymentRepository.FindByProviderSessionID(t.payments, s.id).Some?
    ensures var p := PaymentRepository.FindByProviderSessionID(t.payments, s.id).value;
      var r := FailedOutcome(t, SessionData(s)).tables;
      && PaymentRepository.FindByProviderSessionID(r.payments, s.id) == Some(p.(status := PaymentFailed))
      && |r.payments| == |t.payments|
      && (forall i :: 0 <= i < |t.payments| && t.payments[i].id != p.id ==> r.payments[i] == t.payments[i])
  {
    var p := PaymentRepository.FindByProviderSessionID(t.payments, s.id).value;
    PaymentRepository.SessionLookupAfterSave(t.payments, p.(status := PaymentFailed));
  }

  /** handleCheckoutSessionFailed. */
  method HandleCheckoutSessionFailed(db: Database, data: EventData) returns (err: Option<StripeError>)
    modifies db
    ensures Outcome(db.State(), err) == FailedOutcome(old(db.State()), data)
  {
    if data.Malformed? {
      return Some(ParseError);
    }
    var found := PaymentRepository.FindByProviderSessionID(db.payments, data.session.id);
    if found.None? {
      return Some(PaymentNotFoundForSession(data.session.id));
    }
    PaymentRepository.Update(db, found.value.(status := PaymentFailed));
    err := None;
  }

  // ---------------------------------------------------------------- dispatch

  /** HandleEvents as a function: the two checkout handlers; every other type returns nil. */
  function Dispatched(t: Tables, event: Event, fetched: Option<ProviderSubscription>): (r: Outcome)
    ensures event.eventType != CheckoutCompleted && event.eventType != AsyncPaymentFailed ==> r == Outcome(t, None)
    ensures r.err.Some? || r.tables != t ==> event.eventType == CheckoutCompleted || event.eventType == AsyncPaymentFailed
  {
    if event.eventType == CheckoutCompleted then CompletedOutcome(t, event.data, fetched)
    else if event.eventType == AsyncPaymentFailed then FailedOutcome(t, event.data)
    else Outcome(t, None)
  }

  /** HandleEvents: switches on the event type; the four reserved handlers and the default branch
      return nil. */
  method HandleEvents(db: Database, event: Event, fetched: Option<ProviderSubscription>) returns (err: Option<StripeError>)
    modifies db
    ensures Outcome(db.State(), err) == Dispatched(old(db.State()), event, fetched)
  {
    if event.eventType == CheckoutCompleted {
      err := HandleCheckoutSessionCompleted(db, event.data, fetched);
    } else if event.eventType == AsyncPaymentFailed {
      err := HandleCheckoutSessionFailed(db, event.data);
    } else if IsReservedEventType(event.eventType) {
      err := None;
    } else {
      err := None;
    }
  }

  // ---------------------------------------------------------------- end to end

  /** A completed event for a payment with no robot whose metadata names one appends that robot,
      active and owned by the payer, and links it to the payment. */
  lemma CompletedCreatesNamedRobot(t: Tables, s: CheckoutSession, fetched: Option<ProviderSubscription>)
    requires s.customer.Some?
    requires PaymentRepository.FindByProviderSessionID(t.payments, s.id).Some?
    requires PaymentRepository.FindByProviderSessionID(t.payments, s.id).value.robotId.None?
    requires DecodeRobotName(PaymentRepository.FindByProviderSessionID(t.payments, s.id).value.metadata).Some?
    ensures var p := PaymentRepository.FindByProviderSessionID(t.payments, s.id).value;
      var done := CompletedOutcome(t, SessionData(s), fetched);
      && done.err.None?
      && |done.tables.robots| == |t.robots| + 1
      && done.tables.robots[|t.robots|].name == DecodeRobotName(p.metadata).value
      && done.tables.robots[|t.robots|].userId == p.userId
      && done.tables.robots[|t.robots|].status == RobotActive
      && PaymentRepository.FindByProviderSessionID(done.tables.payments, s.id).Some?
      && PaymentRepository.FindByProviderSessionID(done.tables.payments, s.id).value.robotId
           == Some(done.tables.robots[|t.robots|].id)
  {
    var p := PaymentRepository.FindByProviderSessionID(t.payments, s.id).value;
    CompletedEffect(t, s, fetched);
    CompletedPaymentLookup(t, s, fetched);
    var q := ExpectedPayment(p, s, t);
    assert q.robotId.Some?;
  }

  /** A checkout for a fresh session followed by its completed event creates exactly the robot
      the checkout named, active and owned by the paying user, and links it to the payment. */
  lemma CheckoutThenCompleted(t: Tables, userId: Id, robotName: string, planType: string, sessionId: string,
                              url: string, s: CheckoutSession, fetched: Option<ProviderSubscription>)
    requires IsPlanTier(planType) && JsonSafe(robotName) && JsonSafe(planType)
    requires PaymentRepository.FindByProviderSessionID(t.payments, sessionId).None?
    requires s.id == sessionId && s.customer.Some?
    ensures var paid := Checkout(t, Uuid(userId), robotName, planType, SessionCreated(sessionId, url)).tables;
      var done := CompletedOutcome(paid, SessionData(s), fetched);
      && done.err.None?
      && |done.tables.robots| == |t.robots| + 1
      && done.tables.robots[|t.robots|].name == robotName
      && done.tables.robots[|t.robots|].userId == userId
      && done.tables.robots[|t.robots|].status == RobotActive
      && PaymentRepository.FindByProviderSessionID(done.tables.payments, sessionId).Some?
      && PaymentRepository.FindByProviderSessionID(done.tables.payments, sessionId).value.robotId
           == Some(done.tables.robots[|t.robots|].id)
  {
    var paid := Checkout(t, Uuid(userId), robotName, planType, SessionCreated(sessionId, url)).tables;
    var p := PendingPayment(FreshId(t), Uuid(userId), robotName, planType, sessionId);
    assert paid == t.(payments := t.payments + [p]);
    assert PaymentRepository.FindByProviderSessionID(paid.payments, sessionId) == Some(p) by {
      FirstAppendedOnlyMatch(t.payments, p, (q: Payment) => q.providerSessionId == sessionId);
    }
    DecodeFormat(robotName, planType);
    CompletedCreatesNamedRobot(paid, s, fetched);
  }
}
