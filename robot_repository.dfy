/** internal/repository/robot_repository.go: robot lookups that answer "absent, no error", the
    transactional insert, and the Save that the services call as robotRepo.Update. */
module RobotRepository {
  import opened Base
  import opened Models
  import opened Storage

  /** FindAll: every stored robot, in table order, with its owner and plans preloaded. */
  function FindAll(t: Tables): (r: seq<LoadedRobot>)
    ensures |r| == |t.robots|
    ensures forall i :: 0 <= i < |r| ==> r[i] == Preload(t, t.robots[i])
  {
    seq(|t.robots|, i requires 0 <= i < |t.robots| => Preload(t, t.robots[i]))
  }

  /** FindByIDAndUserID: a robot only when both the id and the owner match; otherwise None,
      which the source returns as (nil, nil). The ids arrive as text and are compared as text, so
      text that is not a UUID matches nothing. */
  function FindByIDAndUserID(robots: seq<Robot>, id: RawId, userId: RawId): (r: Option<Robot>)
    ensures r.Some? ==> r.value in robots && id == Uuid(r.value.id) && userId == Uuid(r.value.userId)
    ensures r.None? <==> forall i :: 0 <= i < |robots| ==> Uuid(robots[i].id) != id || Uuid(robots[i].userId) != userId
  {
    First(robots, (x: Robot) => Uuid(x.id) == id && Uuid(x.userId) == userId)
  }

  /** FindByName: the robot with that name, or None ((nil, nil)) when there is none. */
  function FindByName(robots: seq<Robot>, name: string): (r: Option<Robot>)
    ensures r.Some? ==> r.value in robots && r.value.name == name
    ensures r.None? <==> forall i :: 0 <= i < |robots| ==> robots[i].name != name
  {
    First(robots, (x: Robot) => x.name == name)
  }

  /** FindById: the robot with that id, or None ((nil, nil)) when there is none. Also stands for
      the FindByID that the services call, which the repository does not declare. */
  function FindById(robots: seq<Robot>, id: Id): (r: Option<Robot>)
    ensures r.Some? ==> r.value in robots && r.value.id == id
    ensures r.None? <==> forall i :: 0 <= i < |robots| ==> robots[i].id != id
  {
    First(robots, (x: Robot) => x.id == id)
  }

  /** The primary-key constraint: no two rows share an id. */
  predicate UniqueIds(robots: seq<Robot>) {
    forall i, j :: 0 <= i < |robots| && 0 <= j < |robots| && i != j ==> robots[i].id != robots[j].id
  }

  /** The robots table after saving r (gorm's Save keyed by id). */
  function Saved(robots: seq<Robot>, r: Robot): (s: seq<Robot>)
    ensures r in s
    ensures FindById(robots, r.id).Some? ==>
      |s| == |robots| && forall i :: 0 <= i < |robots| ==> s[i] == if robots[i].id == r.id then r else robots[i]
    ensures FindById(robots, r.id).None? ==> s == robots + [r]
  {
    Upsert(robots, (x: Robot) => x.id, r)
  }

  /** Saving a robot makes it what the id lookup finds next. */
  lemma IdLookupAfterSave(robots: seq<Robot>, r: Robot)
    ensures FindById(Saved(robots, r), r.id) == Some(r)
  {
    var s := Saved(robots, r);
    var k := FirstIndex(s, (x: Robot) => x.id == r.id).value;
    if FindById(robots, r.id).None? {
      assert s[|robots|] == r;
    }
  }

  /** Saving the same robot twice leaves the table as saving it once. */
  lemma SaveTwice(robots: seq<Robot>, r: Robot)
    ensures Saved(Saved(robots, r), r) == Saved(robots, r)
  {
    UpsertTwice(robots, (x: Robot) => x.id, r);
  }

  /** Create: inserts the robot under a fresh id inside a begin/commit transaction. The store model
      has no constraint that the insert could violate, so the rollback branch is never taken. */
  method Create(db: Database, r: Robot) returns (created: Robot)
    modifies db
    ensures created == r.(id := FreshId(old(db.State())))
    ensures Unused(old(db.State()), created.id)
    ensures db.State() == old(db.State()).(robots := old(db.robots) + [created])
  {
    created := r.(id := FreshId(db.State()));
    db.robots := db.robots + [created];
  }

  /** Update (called by the services; the repository does not declare it): gorm's Save of the robot. */
  method Update(db: Database, r: Robot)
    modifies db
    ensures db.State() == old(db.State()).(robots := Saved(old(db.robots), r))
  {
    db.robots := Saved(db.robots, r);
  }
}
