/** internal/api/middleware/robo_auth_middleware.go: the gate in front of the robot endpoints. It
    reads a bearer token, takes the robot id from its robo_id claim, and admits the request only for
    an existing, active robot that either has a subscription in its current period or a plan that
    has not expired; an admitted request carries the id string, the robot and the subscription
    found into the request context. */
module RoboAuthMiddleware {
  import opened Base
  import opened Models
  import opened Storage
  import RobotRepository
  import SubscriptionRepository

  const BearerPrefix: string := "Bearer "

  /** The robo_id claim of a verified token: missing, of another JSON type, or a string. */
  datatype TokenClaim = ClaimAbsent | ClaimNotString | ClaimText(raw: RawId)

  /** The token verifier's answer: an invalid token, or the token's robo_id claim. */
  datatype Verification = TokenInvalid | TokenValid(roboId: TokenClaim)

  /** What an admitted request carries on: c.Set of robo_id, robot and, when one was found,
      subscription. */
  datatype Context = Context(roboId: RawId, robot: Robot, subscription: Option<Subscription>)

  /** The middleware's decision: abort with a status, or continue with the context. */
  datatype Verdict = Rejected(status: int) | Admitted(context: Context)

  /** The entitlement test after the status check: a subscription returned and IsActive, or else
      a plan validity that is set and not before now. */
  predicate Entitled(robot: Robot, sub: Option<Subscription>, now: int) {
    (sub.Some? && IsActive(sub.value, now)) || (robot.planValidUntil.Some? && !(robot.planValidUntil.value < now))
  }

  /** The subscription lookup, which answers nothing when the store fails. */
  function ActiveSubscription(t: Tables, robotId: Id, subscriptionFault: bool, now: int): (r: Option<Subscription>)
    ensures subscriptionFault ==> r.None?
    ensures r.Some? ==> r.value in t.subscriptions && r.value.robotId == robotId
  {
    if subscriptionFault then None else SubscriptionRepository.FindActiveByRobotID(t.subscriptions, robotId, now)
  }

  /** RoboAuthMiddleware on one request. `verify` is the token verifier; `robotFault` and
      `subscriptionFault` say whether the robot or the subscription query fails in the store. */
  function Authorize(t: Tables, header: string, verify: string -> Verification, robotFault: bool,
                     subscriptionFault: bool, now: int): (v: Verdict)
    ensures !HasPrefix(header, BearerPrefix) ==> v == Rejected(StatusUnauthorized)
    ensures v.Rejected? ==> v.status in {StatusUnauthorized, StatusNotFound, StatusPaymentRequired}
    ensures v.Admitted? ==>
      && verify(TrimPrefix(header, BearerPrefix)) == TokenValid(ClaimText(v.context.roboId))
      && v.context.robot in t.robots && v.context.roboId == Uuid(v.context.robot.id)
      && v.context.robot.status == RobotActive
      && v.context.subscription == ActiveSubscription(t, v.context.robot.id, subscriptionFault, now)
      && Entitled(v.context.robot, v.context.subscription, now)
  {
    if header == "" then Rejected(StatusUnauthorized)
    else
      var token := TrimPrefix(header, BearerPrefix);
      if token == header then Rejected(StatusUnauthorized)
      else
        match verify(token)
        case TokenInvalid => Rejected(StatusUnauthorized)
        case TokenValid(claim) =>
          if !claim.ClaimText? then Rejected(StatusUnauthorized)
          else
            match ParseUuid(claim.raw)
            case None => Rejected(StatusUnauthorized)
            case Some(roboId) =>
              var found := if robotFault then None else RobotRepository.FindById(t.robots, roboId);
              if found.None? then Rejected(StatusNotFound)
              else if found.value.status != RobotActive then Rejected(StatusPaymentRequired)
              else
                var sub := ActiveSubscription(t, roboId, subscriptionFault, now);
                if !Entitled(found.value, sub, now) then Rejected(StatusPaymentRequired)
                else Admitted(Context(claim.raw, found.value, sub))
  }

  /** The robot the request names, or None when the token gives no robot id. */
  function NamedRobot(header: string, verify: string -> Verification): (r: Option<Id>)
    ensures r.Some? ==> HasPrefix(header, BearerPrefix)
  {
    if !HasPrefix(header, BearerPrefix) then None
    else
      match verify(TrimPrefix(header, BearerPrefix))
      case TokenValid(ClaimText(Uuid(id))) => Some(id)
      case _ => None
  }

  /** A request is admitted exactly when the header is a bearer token whose claim names, as a
      UUID, a robot the store finds, that robot is active and it is entitled. */
  lemma AdmittedIff(t: Tables, header: string, verify: string -> Verification, robotFault: bool,
                    subscriptionFault: bool, now: int)
    ensures Authorize(t, header, verify, robotFault, subscriptionFault, now).Admitted? <==>
      && NamedRobot(header, verify).Some? && !robotFault
      && var robotId := NamedRobot(header, verify).value;
         && RobotRepository.FindById(t.robots, robotId).Some?
         && RobotRepository.FindById(t.robots, robotId).value.status == RobotActive
         && Entitled(RobotRepository.FindById(t.robots, robotId).value,
                     ActiveSubscription(t, robotId, subscriptionFault, now), now)
  {
    if HasPrefix(header, BearerPrefix) {
      TrimPrefixUnchanged(header, BearerPrefix);
      assert header != "";
    }
  }

  /** With a store that answers, a named robot that is missing gives 404, and one that is not
      active gives 402 whatever its subscriptions and plan say. */
  lemma LookupOrder(t: Tables, header: string, verify: string -> Verification, subscriptionFault: bool,
                    now: int, other: seq<Subscription>)
    requires NamedRobot(header, verify).Some?
    ensures var robotId := NamedRobot(header, verify).value;
      var found := RobotRepository.FindById(t.robots, robotId);
      && (found.None? ==> Authorize(t, header, verify, false, subscriptionFault, now) == Rejected(StatusNotFound))
      && (found.Some? && found.value.status != RobotActive ==>
            && Authorize(t, header, verify, false, subscriptionFault, now) == Rejected(StatusPaymentRequired)
            && Authorize(t.(subscriptions := other), header, verify, false, !subscriptionFault, now)
                 == Rejected(StatusPaymentRequired))
  {
    TrimPrefixUnchanged(header, BearerPrefix);
    assert header != "";
  }

  /** Only the header with the bearer prefix removed reaches the verifier: two verifiers that
      agree on it give the same verdict. */
  lemma OnlyTrimmedTokenVerified(t: Tables, header: string, v1: string -> Verification, v2: string -> Verification,
                                 robotFault: bool, subscriptionFault: bool, now: int)
    requires v1(TrimPrefix(header, BearerPrefix)) == v2(TrimPrefix(header, BearerPrefix))
    ensures Authorize(t, header, v1, robotFault, subscriptionFault, now)
         == Authorize(t, header, v2, robotFault, subscriptionFault, now)
  {
  }

  /** The subscription route admits at any moment of the row's period except its first instant:
      the lookup includes the period start, IsActive excludes it. */
  lemma SubscriptionRouteSkipsPeriodStart(t: Tables, robot: Robot, subscriptionFault: bool, now: int)
    requires ActiveSubscription(t, robot.id, subscriptionFault, now).Some?
    ensures var sub := ActiveSubscription(t, robot.id, subscriptionFault, now);
      IsActive(sub.value, now) <==> now != sub.value.periodStart
  {
    SubscriptionRepository.FoundRowIsActiveUnlessAtStart(t.subscriptions, robot.id, now);
  }

  /** Without a subscription, the plan validity bound is inclusive: a robot whose plan is valid
      until exactly now is admitted, and one second later it is refused with 402. */
  lemma PlanBoundInclusive(t: Tables, header: string, verify: string -> Verification, until: int)
    requires NamedRobot(header, verify).Some?
    requires RobotRepository.FindById(t.robots, NamedRobot(header, verify).value).Some?
    requires RobotRepository.FindById(t.robots, NamedRobot(header, verify).value).value.status == RobotActive
    requires RobotRepository.FindById(t.robots, NamedRobot(header, verify).value).value.planValidUntil == Some(until)
    ensures Authorize(t, header, verify, false, true, until).Admitted?
    ensures Authorize(t, header, verify, false, true, until + 1) == Rejected(StatusPaymentRequired)
  {
    AdmittedIff(t, header, verify, false, true, until);
    AdmittedIff(t, header, verify, false, true, until + 1);
  }
}
