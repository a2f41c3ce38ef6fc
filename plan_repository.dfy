/** internal/repository/plan_repository.go: the active-plan lookup, the insert and the bulk deactivation. */
module PlanRepository {
  import opened Base
  import opened Models
  import opened Storage

  /** FindByRobotID: an active plan of that robot; None stands for the record-not-found error. */
  function FindByRobotID(plans: seq<Plan>, robotId: Id): (r: Option<Plan>)
    ensures r.Some? ==> r.value in plans && r.value.robotId == robotId && r.value.active
    ensures r.None? <==> forall i :: 0 <= i < |plans| ==> plans[i].robotId != robotId || !plans[i].active
  {
    First(plans, (p: Plan) => p.robotId == robotId && p.active)
  }

  /** The plans table after UPDATE plans SET active = false WHERE robot_id = ?. */
  function Deactivated(plans: seq<Plan>, robotId: Id): (r: seq<Plan>)
    ensures |r| == |plans|
    ensures forall i :: 0 <= i < |plans| ==> r[i].(active := plans[i].active) == plans[i]
    ensures forall i :: 0 <= i < |plans| && plans[i].robotId == robotId ==> !r[i].active
    ensures forall i :: 0 <= i < |plans| && plans[i].robotId != robotId ==> r[i] == plans[i]
  {
    seq(|plans|, i requires 0 <= i < |plans| => if plans[i].robotId == robotId then plans[i].(active := false) else plans[i])
  }

  /** Once a robot's plans are deactivated, the active-plan lookup for it fails; other robots
      keep whatever answer they had. */
  lemma LookupAfterDeactivation(plans: seq<Plan>, robotId: Id, other: Id)
    requires other != robotId
    ensures FindByRobotID(Deactivated(plans, robotId), robotId).None?
    ensures FindByRobotID(Deactivated(plans, robotId), other) == FindByRobotID(plans, other)
  {
    var d := Deactivated(plans, robotId);
    var p := (x: Plan) => x.robotId == other && x.active;
    FirstIndexPreserved(plans, d, p);
    match FirstIndex(d, p)
    case None =>
    case Some(k) => assert d[k] == plans[k];
  }

  /** CreatePlan: inserts the plan under a fresh id. */
  method CreatePlan(db: Database, plan: Plan) returns (created: Plan)
    modifies db
    ensures created == plan.(id := FreshId(old(db.State())))
    ensures Unused(old(db.State()), created.id)
    ensures db.State() == old(db.State()).(plans := old(db.plans) + [created])
  {
    created := plan.(id := FreshId(db.State()));
    db.plans := db.plans + [created];
  }

  /** DeactivateOldPlans: sets active = false on every plan of the robot and on no other plan. */
  method DeactivateOldPlans(db: Database, robotId: Id)
    modifies db
    ensures db.State() == old(db.State()).(plans := Deactivated(old(db.plans), robotId))
  {
    db.plans := Deactivated(db.plans, robotId);
  }
}
