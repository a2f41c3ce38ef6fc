/** internal/services/plan_service.go: CreatePlan builds a basic, active plan and inserts it. */
module PlanService {
  import opened Base
  import opened Models
  import opened Storage
  import PlanRepository

  /** CreatePlan: inserts one basic, active plan for the robot and user. No expiry is set, so
      ExpiredIn keeps the zero time, and no earlier plan is deactivated. */
  method CreatePlan(db: Database, robotId: Id, userId: Id) returns (created: Plan)
    modifies db
    ensures created.robotId == robotId && created.userId == userId
    ensures created.planType == BasicPlan && created.active && created.expiredIn == ZeroTime
    ensures Unused(old(db.State()), created.id)
    ensures db.State() == old(db.State()).(plans := old(db.plans) + [created])
  {
    var plan := Plan(NilUuid, userId, robotId, BasicPlan, ZeroTime, true, "");
    created := PlanRepository.CreatePlan(db, plan);
  }
}
