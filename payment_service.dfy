/** internal/services/payment_service.go: the direct success and failure handlers, which flip the
    status of a payment and of the robot it is linked to. */
module PaymentService {
  import opened Base
  import opened Models
  import opened Storage
  import PaymentRepository
  import RobotRepository

  datatype PaymentError =
    | PaymentNotFoundForSession(sessionId: string)
    | InvalidPaymentId(raw: RawId)
    | PaymentNotFound(raw: RawId)

  /** The tables after a handler, with the error it returned (None for nil). */
  datatype Outcome = Outcome(tables: Tables, err: Option<PaymentError>)

  /** "Activate/suspend the robot if needed": when the payment links a robot that the id lookup
      finds, that robot is saved with the new status; otherwise nothing changes. */
  function SetLinkedRobotStatus(t: Tables, robotId: Option<Id>, status: RobotStatus): (r: Tables)
    ensures r.(robots := t.robots) == t
    ensures |r.robots| == |t.robots|
  {
    if robotId.None? then t
    else
      match RobotRepository.FindById(t.robots, robotId.value)
      case None => t
      case Some(robot) => t.(robots := RobotRepository.Saved(t.robots, robot.(status := status)))
  }

  /** With distinct robot ids (the primary key), exactly the linked robot gets the new status and
      every other field and row stays as it was. */
  lemma SetLinkedRobotStatusRows(t: Tables, robotId: Option<Id>, status: RobotStatus)
    requires RobotRepository.UniqueIds(t.robots)
    ensures forall i :: 0 <= i < |t.robots| ==>
      SetLinkedRobotStatus(t, robotId, status).robots[i] ==
        if robotId == Some(t.robots[i].id) then t.robots[i].(status := status) else t.robots[i]
  {
    if robotId.Some? {
      var found := RobotRepository.FindById(t.robots, robotId.value);
      if found.Some? {
        var k :| 0 <= k < |t.robots| && t.robots[k] == found.value;
        forall i | 0 <= i < |t.robots| && t.robots[i].id == robotId.value
          ensures t.robots[i] == found.value
        {
          assert i == k;
        }
      }
    }
  }

  /** Setting the same status twice is setting it once. */
  lemma SetLinkedRobotStatusTwice(t: Tables, robotId: Option<Id>, status: RobotStatus)
    ensures SetLinkedRobotStatus(SetLinkedRobotStatus(t, robotId, status), robotId, status)
         == SetLinkedRobotStatus(t, robotId, status)
  {
    if robotId.Some? {
      var found := RobotRepository.FindById(t.robots, robotId.value);
      if found.Some? {
        var updated := found.value.(status := status);
        RobotRepository.IdLookupAfterSave(t.robots, updated);
        RobotRepository.SaveTwice(t.robots, updated);
      }
    }
  }

  /** HandlePaymentSuccess as a function of the tables and the session id (the payment id argument
      is not consulted). */
  function Success(t: Tables, sessionId: string): (r: Outcome)
    ensures r.err.Some? <==> PaymentRepository.FindByProviderSessionID(t.payments, sessionId).None?
    ensures r.err.Some? ==> r == Outcome(t, Some(PaymentNotFoundForSession(sessionId)))
  {
    match PaymentRepository.FindByProviderSessionID(t.payments, sessionId)
    case None => Outcome(t, Some(PaymentNotFoundForSession(sessionId)))
    case Some(payment) =>
      var paid := payment.(status := PaymentCompleted);
      var saved := t.(payments := PaymentRepository.Saved(t.payments, paid));
      Outcome(SetLinkedRobotStatus(saved, paid.robotId, RobotActive), None)
  }

  /** HandlePaymentFailure as a function of the tables and the raw payment id. */
  function Failure(t: Tables, paymentId: RawId): (r: Outcome)
    ensures paymentId.NotUuid? <==> r.err == Some(InvalidPaymentId(paymentId))
    ensures r.err == Some(PaymentNotFound(paymentId)) <==>
      paymentId.Uuid? && PaymentRepository.FindByID(t.payments, paymentId.id).None?
    ensures r.err.Some? ==> r.tables == t
  {
    match ParseUuid(paymentId)
    case None => Outcome(t, Some(InvalidPaymentId(paymentId)))
    case Some(id) =>
      match PaymentRepository.FindByID(t.payments, id)
      case None => Outcome(t, Some(PaymentNotFound(paymentId)))
      case Some(payment) =>
        var failed := payment.(status := PaymentFailed);
        var saved := t.(payments := PaymentRepository.Saved(t.payments, failed));
        Outcome(SetLinkedRobotStatus(saved, failed.robotId, RobotSuspense), None)
  }

  /** After a successful call, the session's payment is completed and otherwise as it was; only the
      payments and robots tables change; no robot is created, and only the linked robot may
      change, to active. */
  lemma SuccessEffect(t: Tables, sessionId: string)
    requires RobotRepository.UniqueIds(t.robots)
    requires PaymentRepository.FindByProviderSessionID(t.payments, sessionId).Some?
    ensures var before := PaymentRepository.FindByProviderSessionID(t.payments, sessionId).value;
      && PaymentRepository.FindByProviderSessionID(Success(t, sessionId).tables.payments, sessionId)
           == Some(before.(status := PaymentCompleted))
      && Success(t, sessionId).tables.(payments := t.payments, robots := t.robots) == t
      && |Success(t, sessionId).tables.robots| == |t.robots|
      && (forall i :: 0 <= i < |t.robots| ==>
            Success(t, sessionId).tables.robots[i] ==
              if before.robotId == Some(t.robots[i].id) then t.robots[i].(status := RobotActive) else t.robots[i])
  {
    var before := PaymentRepository.FindByProviderSessionID(t.payments, sessionId).value;
    var paid := before.(status := PaymentCompleted);
    PaymentRepository.SessionLookupAfterSave(t.payments, paid);
    SetLinkedRobotStatusRows(t.(payments := PaymentRepository.Saved(t.payments, paid)), paid.robotId, RobotActive);
  }

  /** After a successful call, the payment is failed and otherwise as it was; the linked robot, and
      no other, is suspended; no robot is created. */
  lemma FailureEffect(t: Tables, id: Id)
    requires RobotRepository.UniqueIds(t.robots)
    requires PaymentRepository.FindByID(t.payments, id).Some?
    ensures var before := PaymentRepository.FindByID(t.payments, id).value;
      && Failure(t, Uuid(id)).err.None?
      && PaymentRepository.FindByID(Failure(t, Uuid(id)).tables.payments, id) == Some(before.(status := PaymentFailed))
      && Failure(t, Uuid(id)).tables.(payments := t.payments, robots := t.robots) == t
      && |Failure(t, Uuid(id)).tables.robots| == |t.robots|
      && (forall i :: 0 <= i < |t.robots| ==>
            Failure(t, Uuid(id)).tables.robots[i] ==
              if before.robotId == Some(t.robots[i].id) then t.robots[i].(status := RobotSuspense) else t.robots[i])
  {
    var before := PaymentRepository.FindByID(t.payments, id).value;
    var failed := before.(status := PaymentFailed);
    PaymentRepository.IdLookupAfterSave(t.payments, failed);
    SetLinkedRobotStatusRows(t.(payments := PaymentRepository.Saved(t.payments, failed)), failed.robotId, RobotSuspense);
  }

  /** A payment without a linked robot leaves the robots table as it was. */
  lemma UnlinkedPaymentLeavesRobots(t: Tables, sessionId: string, paymentId: Id)
    requires PaymentRepository.FindByProviderSessionID(t.payments, sessionId).Some? ==>
      PaymentRepository.FindByProviderSessionID(t.payments, sessionId).value.robotId.None?
    requires PaymentRepository.FindByID(t.payments, paymentId).Some? ==>
      PaymentRepository.FindByID(t.payments, paymentId).value.robotId.None?
    ensures Success(t, sessionId).tables.robots == t.robots
    ensures Failure(t, Uuid(paymentId)).tables.robots == t.robots
  {
  }

  /** Applying the success handler twice yields the state of applying it once. */
  lemma SuccessIdempotent(t: Tables, sessionId: string)
    ensures Success(Success(t, sessionId).tables, sessionId) == Success(t, sessionId)
  {
    var found := PaymentRepository.FindByProviderSessionID(t.payments, sessionId);
    if found.Some? {
      var paid := found.value.(status := PaymentCompleted);
      var saved := t.(payments := PaymentRepository.Saved(t.payments, paid));
      PaymentRepository.SessionLookupAfterSave(t.payments, paid);
      PaymentRepository.SaveTwice(t.payments, paid);
      SetLinkedRobotStatusTwice(saved, paid.robotId, RobotActive);
    }
  }

  /** Applying the failure handler twice yields the state of applying it once. */
  lemma FailureIdempotent(t: Tables, paymentId: RawId)
    ensures Failure(Failure(t, paymentId).tables, paymentId) == Failure(t, paymentId)
  {
    if paymentId.Uuid? {
      var found := PaymentRepository.FindByID(t.payments, paymentId.id);
      if found.Some? {
        var failed := found.value.(status := PaymentFailed);
        var saved := t.(payments := PaymentRepository.Saved(t.payments, failed));
        PaymentRepository.IdLookupAfterSave(t.payments, failed);
        PaymentRepository.SaveTwice(t.payments, failed);
        SetLinkedRobotStatusTwice(saved, failed.robotId, RobotSuspense);
      }
    }
  }

  /** HandlePaymentSuccess: loads the payment by session, saves it completed, then saves the linked
      robot active. The payment id argument is ignored. */
  method HandlePaymentSuccess(db: Database, paymentId: RawId, sessionId: string) returns (err: Option<PaymentError>)
    modifies db
    ensures Outcome(db.State(), err) == Success(old(db.State()), sessionId)
  {
    var found := PaymentRepository.FindByProviderSessionID(db.payments, sessionId);
    if found.None? {
      return Some(PaymentNotFoundForSession(sessionId));
    }
    var payment := found.value.(status := PaymentCompleted);
    PaymentRepository.Update(db, payment);
    if payment.robotId.Some? {
      var robot := RobotRepository.FindById(db.robots, payment.robotId.value);
      if robot.Some? {
        RobotRepository.Update(db, robot.value.(status := RobotActive));
      }
    }
    err := None;
  }

  /** HandlePaymentFailure: parses the id, loads the payment, saves it failed, then saves the linked
      robot suspended. */
  method HandlePaymentFailure(db: Database, paymentId: RawId) returns (err: Option<PaymentError>)
    modifies db
    ensures Outcome(db.State(), err) == Failure(old(db.State()), paymentId)
  {
    var id := ParseUuid(paymentId);
    if id.None? {
      return Some(InvalidPaymentId(paymentId));
    }
    var found := PaymentRepository.FindByID(db.payments, id.value);
    if found.None? {
      return Some(PaymentNotFound(paymentId));
    }
    var payment := found.value.(status := PaymentFailed);
    PaymentRepository.Update(db, payment);
    if payment.robotId.Some? {
      var robot := RobotRepository.FindById(db.robots, payment.robotId.value);
      if robot.Some? {
        RobotRepository.Update(db, robot.value.(status := RobotSuspense));
      }
    }
    err := None;
  }
}
