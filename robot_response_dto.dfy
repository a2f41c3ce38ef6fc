/** internal/dtos/robot_response_dto.go: the robot as the API returns it, with its plans reduced to
    the types of the active ones. */
module RobotResponseDto {
  import opened Base
  import opened Models
  import opened Storage

  /** PlanResponseDTO: a plan shown only by its type. */
  datatype PlanResponse = PlanResponse(planType: string)

  /** RobotResponseDTO: the robot's own fields, its preloaded owner, and the active plans. */
  datatype RobotResponse = RobotResponse(id: Id, name: string, userId: Id, user: Option<User>,
                                         activateIn: Option<int>, status: RobotStatus,
                                         planValidUntil: Option<int>, lastPing: Option<int>,
                                         plans: seq<PlanResponse>)

  /** The plan list the conversion builds: the types of the active plans, in order. Defined on
      the last plan, the way the loop appends. */
  function ActivePlanTypes(plans: seq<Plan>): (r: seq<PlanResponse>)
    ensures |r| <= |plans|
    ensures r == [] <==> forall i :: 0 <= i < |plans| ==> !plans[i].active
  {
    if plans == [] then []
    else
      var last := plans[|plans| - 1];
      var init := ActivePlanTypes(plans[..|plans| - 1]);
      assert forall i :: 0 <= i < |plans| - 1 ==> plans[..|plans| - 1][i] == plans[i];
      init + if last.active then [PlanResponse(last.planType)] else []
  }

  /** An independent description of the same list: filter the active plans, then keep each
      one's type. */
  function TypesOf(plans: seq<Plan>): (r: seq<PlanResponse>)
    ensures |r| == |plans|
    ensures forall i :: 0 <= i < |plans| ==> r[i] == PlanResponse(plans[i].planType)
  {
    seq(|plans|, i requires 0 <= i < |plans| => PlanResponse(plans[i].planType))
  }

  /** The conversion's list is the type of every active plan and nothing else, in the plans'
      order. */
  lemma {:induction false} ActivePlanTypesIsFilter(plans: seq<Plan>)
    ensures ActivePlanTypes(plans) == TypesOf(Filter(plans, (p: Plan) => p.active))
  {
    var active := (p: Plan) => p.active;
    if plans != [] {
      var init, last := plans[..|plans| - 1], plans[|plans| - 1];
      assert plans == init + [last];
      ActivePlanTypesIsFilter(init);
      FilterAppend(init, [last], active);
      assert Filter([last], active) == if last.active then [last] else [];
      assert TypesOf(Filter(init, active) + Filter([last], active))
          == TypesOf(Filter(init, active)) + TypesOf(Filter([last], active));
    }
  }

  /** Every listed type is the type of an active plan of the robot. */
  lemma ActivePlanTypesSound(plans: seq<Plan>, i: nat)
    requires i < |ActivePlanTypes(plans)|
    ensures exists j :: 0 <= j < |plans| && plans[j].active && ActivePlanTypes(plans)[i] == PlanResponse(plans[j].planType)
  {
    var kept := Filter(plans, (p: Plan) => p.active);
    ActivePlanTypesIsFilter(plans);
    assert kept[i] in plans && kept[i].active;
    var j :| 0 <= j < |plans| && plans[j] == kept[i];
    assert ActivePlanTypes(plans)[i] == PlanResponse(plans[j].planType);
  }

  /** Every active plan's type is listed. */
  lemma ActivePlanTypesComplete(plans: seq<Plan>, j: nat)
    requires j < |plans| && plans[j].active
    ensures PlanResponse(plans[j].planType) in ActivePlanTypes(plans)
  {
    var kept := Filter(plans, (p: Plan) => p.active);
    ActivePlanTypesIsFilter(plans);
    assert plans[j] in kept;
    var k :| 0 <= k < |kept| && kept[k] == plans[j];
    assert ActivePlanTypes(plans)[k] == PlanResponse(plans[j].planType);
  }

  /** ConvertToRobotResponseDTO: copies the robot's fields and its owner, and appends the type of
      each active plan while walking the plans. */
  method ConvertToRobotResponseDto(robot: LoadedRobot) returns (dto: RobotResponse)
    ensures dto.plans == ActivePlanTypes(robot.plans)
    ensures dto.id == robot.robot.id && dto.name == robot.robot.name && dto.userId == robot.robot.userId
    ensures dto.user == robot.owner && dto.activateIn == robot.robot.activateIn && dto.status == robot.robot.status
    ensures dto.planValidUntil == robot.robot.planValidUntil && dto.lastPing == robot.robot.lastPing
  {
    var activePlans: seq<PlanResponse> := [];
    for k := 0 to |robot.plans|
      invariant activePlans == ActivePlanTypes(robot.plans[..k])
    {
      var plan := robot.plans[k];
      assert robot.plans[..k + 1][..k] == robot.plans[..k];
      if plan.active {
        activePlans := activePlans + [PlanResponse(plan.planType)];
      }
    }
    assert robot.plans[..|robot.plans|] == robot.plans;
    var r := robot.robot;
    dto := RobotResponse(r.id, r.name, r.userId, robot.owner, r.activateIn, r.status, r.planValidUntil,
                         r.lastPing, activePlans);
  }
}
