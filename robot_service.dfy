/** internal/services/robot_service.go: the plan-validity projection, robot listing, robot token
    issuance and robot creation. */
module RobotService {
  import opened Base
  import opened Models
  import opened Storage
  import RobotRepository
  import PlanRepository
  import PlanService

  /** v is the latest expiry among the active plans, or None when no plan is active. */
  ghost predicate IsLatestActiveExpiry(plans: seq<Plan>, v: Option<int>) {
    match v
    case None => forall i :: 0 <= i < |plans| ==> !plans[i].active
    case Some(t) =>
      && (exists i :: 0 <= i < |plans| && plans[i].active && plans[i].expiredIn == t)
      && (forall i :: 0 <= i < |plans| && plans[i].active ==> plans[i].expiredIn <= t)
  }

  /** The projection is a function of the plans: at most one value satisfies it. */
  lemma LatestActiveExpiryUnique(plans: seq<Plan>, v: Option<int>, w: Option<int>)
    requires IsLatestActiveExpiry(plans, v) && IsLatestActiveExpiry(plans, w)
    ensures v == w
  {
    if v.Some? && w.Some? {
      var i :| 0 <= i < |plans| && plans[i].active && plans[i].expiredIn == v.value;
      var j :| 0 <= j < |plans| && plans[j].active && plans[j].expiredIn == w.value;
      assert plans[i].expiredIn <= w.value && plans[j].expiredIn <= v.value;
    }
  }

  /** The loop of updateRobotPlanValidUntil: scans the plans keeping the latest expiry seen among
      the active ones (a later plan replaces it only when strictly later). */
  method LatestActiveExpiry(plans: seq<Plan>) returns (latest: Option<int>)
    ensures latest.None? <==> forall i :: 0 <= i < |plans| ==> !plans[i].active
    ensures latest.Some? ==> exists i :: 0 <= i < |plans| && plans[i].active && plans[i].expiredIn == latest.value
    ensures latest.Some? ==> forall i :: 0 <= i < |plans| && plans[i].active ==> plans[i].expiredIn <= latest.value
  {
    latest := None;
    for k := 0 to |plans|
      invariant IsLatestActiveExpiry(plans[..k], latest)
    {
      var plan := plans[k];
      if plan.active && (latest.None? || plan.expiredIn > latest.value) {
        latest := Some(plan.expiredIn);
      }
      assert plans[..k + 1] == plans[..k] + [plan];
    }
    assert plans[..|plans|] == plans;
  }

  /** `after` is `before` with PlanValidUntil recomputed from its plans and nothing else changed. */
  ghost predicate Recomputed(before: LoadedRobot, after: LoadedRobot) {
    && after == before.(robot := before.robot.(planValidUntil := after.robot.planValidUntil))
    && IsLatestActiveExpiry(before.plans, after.robot.planValidUntil)
  }

  /** updateRobotPlanValidUntil on robots[i]: nil when the robot has no plans, otherwise the latest
      expiry of its active plans (nil when none is active). */
  method UpdateRobotPlanValidUntil(robots: array<LoadedRobot>, i: nat)
    requires i < robots.Length
    modifies robots
    ensures Recomputed(old(robots[i]), robots[i])
    ensures forall j :: 0 <= j < robots.Length && j != i ==> robots[j] == old(robots[j])
  {
    var robot := robots[i];
    if |robot.plans| == 0 {
      robots[i] := robot.(robot := robot.robot.(planValidUntil := None));
      return;
    }
    var latest := LatestActiveExpiry(robot.plans);
    robots[i] := robot.(robot := robot.robot.(planValidUntil := latest));
  }

  /** FindAll: the repository's robots, same order, each with PlanValidUntil recomputed. */
  method FindAll(db: Database) returns (robots: seq<LoadedRobot>)
    ensures |robots| == |db.robots|
    ensures forall i :: 0 <= i < |robots| ==> Recomputed(Preload(db.State(), db.robots[i]), robots[i])
  {
    var loaded := RobotRepository.FindAll(db.State());
    var a := new LoadedRobot[|loaded|](i requires 0 <= i < |loaded| => loaded[i]);
    for i := 0 to a.Length
      invariant forall j :: 0 <= j < i ==> Recomputed(loaded[j], a[j])
      invariant forall j :: i <= j < a.Length ==> a[j] == loaded[j]
    {
      UpdateRobotPlanValidUntil(a, i);
    }
    robots := a[..];
  }

  /** The claims of a robot token. */
  datatype RobotClaims = RobotClaims(roboId: Id, exp: int)

  datatype TokenError = RobotNotFound | InvalidRobotId | PlanNotFound | PlanExpired

  datatype TokenResult = Issued(claims: RobotClaims) | Refused(error: TokenError)

  /** Token lifetime: 30 days. */
  const RobotTokenLifetime: int := 30 * Day

  /** GenerateRobotToken: owner-scoped robot lookup, then the robot's active plan (the plan service's
      GetPlanByRobotID, absent from its interface, is the plan repository lookup), then the expiry
      check; the claims are what gets signed. */
  function GenerateRobotToken(t: Tables, robotId: RawId, userId: RawId, now: int): (r: TokenResult)
    ensures r == Refused(RobotNotFound) <==> RobotRepository.FindByIDAndUserID(t.robots, robotId, userId).None?
    ensures r.Issued? <==>
      && RobotRepository.FindByIDAndUserID(t.robots, robotId, userId).Some?
      && PlanRepository.FindByRobotID(t.plans, robotId.id).Some?
      && PlanRepository.FindByRobotID(t.plans, robotId.id).value.expiredIn >= now
    ensures r == Refused(PlanExpired) ==>
      && robotId.Uuid? && PlanRepository.FindByRobotID(t.plans, robotId.id).Some?
      && PlanRepository.FindByRobotID(t.plans, robotId.id).value.expiredIn < now
    ensures r.Issued? ==>
      r.claims == RobotClaims(RobotRepository.FindByIDAndUserID(t.robots, robotId, userId).value.id, now + 30 * Day)
    ensures r != Refused(InvalidRobotId)
  {
    match RobotRepository.FindByIDAndUserID(t.robots, robotId, userId)
    case None => Refused(RobotNotFound)
    case Some(robot) =>
      match ParseUuid(robotId)
      case None => Refused(InvalidRobotId)
      case Some(parsed) =>
        match PlanRepository.FindByRobotID(t.plans, parsed)
        case None => Refused(PlanNotFound)
        case Some(plan) =>
          if plan.expiredIn < now then Refused(PlanExpired)
          else Issued(RobotClaims(robot.id, now + RobotTokenLifetime))
  }

  /** A robot owned by someone else is refused exactly as a missing one. */
  lemma ForeignRobotLooksMissing(t: Tables, robotId: Id, owner: Id, requester: Id, now: int)
    requires owner != requester
    requires forall i :: 0 <= i < |t.robots| && t.robots[i].id == robotId ==> t.robots[i].userId == owner
    ensures GenerateRobotToken(t, Uuid(robotId), Uuid(requester), now) == Refused(RobotNotFound)
  {
  }

  /** The plans CreatePlan inserts carry the zero expiry, so when such a plan is the one the lookup
      finds, issuance is refused as expired at any real instant. */
  lemma ZeroExpiryPlanRefused(t: Tables, robotId: Id, userId: Id, now: int)
    requires RobotRepository.FindByIDAndUserID(t.robots, Uuid(robotId), Uuid(userId)).Some?
    requires PlanRepository.FindByRobotID(t.plans, robotId).Some?
    requires PlanRepository.FindByRobotID(t.plans, robotId).value.expiredIn == ZeroTime
    requires now > ZeroTime
    ensures GenerateRobotToken(t, Uuid(robotId), Uuid(userId), now) == Refused(PlanExpired)
  {
  }

  datatype CreateRobotError = MustUsePayment | RobotAlreadyExists | InvalidUserId

  /** CreateRobot: direct creation is refused; robots come from payments. */
  function CreateRobot(name: string, userId: RawId): (r: Option<CreateRobotError>)
    ensures r == Some(MustUsePayment)
  {
    Some(MustUsePayment)
  }

  /** CreateRobotWithPayment: refuses a taken name or a malformed user id without writing;
      otherwise inserts one active robot carrying the given PlanValidUntil and then one plan for it. */
  method CreateRobotWithPayment(db: Database, name: string, userId: RawId, planValidUntil: int)
    returns (err: Option<CreateRobotError>, robot: Option<Robot>, plan: Option<Plan>)
    modifies db
    ensures err == Some(RobotAlreadyExists) <==> RobotRepository.FindByName(old(db.robots), name).Some?
    ensures err == Some(InvalidUserId) <==> RobotRepository.FindByName(old(db.robots), name).None? && userId.NotUuid?
    ensures err.Some? ==> db.State() == old(db.State()) && robot.None? && plan.None?
    ensures err.None? ==> robot.Some? && plan.Some?
    ensures err.None? ==>
      && robot.value == Robot(robot.value.id, name, userId.id, None, RobotActive, Some(planValidUntil), None)
      && Unused(old(db.State()), robot.value.id)
      && plan.value.robotId == robot.value.id && plan.value.userId == userId.id
      && plan.value.planType == BasicPlan && plan.value.active && plan.value.expiredIn == ZeroTime
      && db.State() == old(db.State()).(robots := old(db.robots) + [robot.value], plans := old(db.plans) + [plan.value])
  {
    robot, plan := None, None;
    var existing := RobotRepository.FindByName(db.robots, name);
    if existing.Some? {
      return Some(RobotAlreadyExists), robot, plan;
    }
    var parsed := ParseUuid(userId);
    if parsed.None? {
      return Some(InvalidUserId), robot, plan;
    }
    var created := RobotRepository.Create(db, Robot(NilUuid, name, parsed.value, None, RobotActive, Some(planValidUntil), None));
    var p := PlanService.CreatePlan(db, created.id, parsed.value);
    err, robot, plan := None, Some(created), Some(p);
  }
}
