/** The relational store behind every repository: one table per entity, kept in insertion order,
    generic query helpers (gorm's First and Where/Find), the id supply, and gorm's Preload. */
module Storage {
  import opened Base
  import opened Models

  /** The contents of every table at one instant. */
  datatype Tables = Tables(users: seq<User>, robots: seq<Robot>, plans: seq<Plan>,
                           subscriptions: seq<Subscription>, payments: seq<Payment>,
                           logs: seq<ConversationLog>)

  /** The shared database handle (gorm.DB): the tables it holds are updated in place. */
  class Database {
    var users: seq<User>
    var robots: seq<Robot>
    var plans: seq<Plan>
    var subscriptions: seq<Subscription>
    var payments: seq<Payment>
    var logs: seq<ConversationLog>

    /** An empty database. */
    constructor ()
      ensures State() == Tables([], [], [], [], [], [])
    {
      users, robots, plans, subscriptions, payments, logs := [], [], [], [], [], [];
    }

    /** The tables as a value. */
    function State(): Tables
      reads this
    {
      Tables(users, robots, plans, subscriptions, payments, logs)
    }

    /** Puts every table back as it was in `t` (a transaction rollback). */
    method Restore(t: Tables)
      modifies this
      ensures State() == t
    {
      users, robots, plans, subscriptions, payments, logs :=
        t.users, t.robots, t.plans, t.subscriptions, t.payments, t.logs;
    }
  }

  /** The position of the first element satisfying p (gorm's First on a WHERE clause). */
  function FirstIndex<T>(s: seq<T>, p: T -> bool): (r: Option<nat>)
    ensures r.Some? ==> r.value < |s| && p(s[r.value]) && forall j :: 0 <= j < r.value ==> !p(s[j])
    ensures r.None? <==> forall j :: 0 <= j < |s| ==> !p(s[j])
  {
    if s == [] then None
    else if p(s[0]) then Some(0)
    else match FirstIndex(s[1..], p)
      case None => None
      case Some(k) => Some(k + 1)
  }

  /** The position of the last element satisfying p (a query ordered newest first). */
  function LastIndex<T>(s: seq<T>, p: T -> bool): (r: Option<nat>)
    ensures r.Some? ==> r.value < |s| && p(s[r.value]) && forall j :: r.value < j < |s| ==> !p(s[j])
    ensures r.None? <==> forall j :: 0 <= j < |s| ==> !p(s[j])
  {
    if s == [] then None
    else if p(s[|s| - 1]) then Some(|s| - 1)
    else LastIndex(s[..|s| - 1], p)
  }

  /** The first element satisfying p, when there is one. */
  function First<T>(s: seq<T>, p: T -> bool): (r: Option<T>)
    ensures r.Some? ==> r.value in s && p(r.value)
    ensures r.None? <==> forall j :: 0 <= j < |s| ==> !p(s[j])
  {
    match FirstIndex(s, p)
    case None => None
    case Some(i) => Some(s[i])
  }

  /** Overwriting rows with v, the first match among them included, makes v the first match. */
  lemma FirstAfterOverwrite<T>(s: seq<T>, r: seq<T>, p: T -> bool, i: nat, v: T)
    requires |r| == |s| && FirstIndex(s, p) == Some(i) && r[i] == v && p(v)
    requires forall j :: 0 <= j < |s| ==> r[j] == s[j] || r[j] == v
    ensures First(r, p) == Some(v)
  {
    var k := FirstIndex(r, p).value;
    assert k <= i;
    forall j | 0 <= j <= i && p(r[j])
      ensures r[j] == v
    {
      assert r[j] == s[j] || r[j] == v;
    }
  }

  /** A table rewritten row by row without changing which rows match has its first match at the
      same position. */
  lemma FirstIndexPreserved<T>(s: seq<T>, r: seq<T>, p: T -> bool)
    requires |r| == |s|
    requires forall j :: 0 <= j < |s| ==> (p(r[j]) <==> p(s[j]))
    ensures FirstIndex(r, p) == FirstIndex(s, p)
  {
    var a, b := FirstIndex(s, p), FirstIndex(r, p);
    if a.Some? && b.Some? {
      assert p(s[b.value]) && p(r[a.value]);
    }
  }

  /** A row appended to a table with no match is the first match. */
  lemma FirstAppendedOnlyMatch<T>(s: seq<T>, v: T, p: T -> bool)
    requires forall j :: 0 <= j < |s| ==> !p(s[j])
    requires p(v)
    ensures First(s + [v], p) == Some(v)
  {
    assert (s + [v])[|s|] == v;
  }

  /** The elements satisfying p, in table order (gorm's Where(...).Find). */
  function Filter<T>(s: seq<T>, p: T -> bool): (r: seq<T>)
    ensures |r| <= |s|
    ensures forall i :: 0 <= i < |r| ==> r[i] in s && p(r[i])
    ensures forall i :: 0 <= i < |s| && p(s[i]) ==> s[i] in r
  {
    if s == [] then []
    else (if p(s[0]) then [s[0]] else []) + Filter(s[1..], p)
  }

  /** Filtering distributes over appending rows. */
  lemma {:induction false} FilterAppend<T>(s: seq<T>, t: seq<T>, p: T -> bool)
    ensures Filter(s + t, p) == Filter(s, p) + Filter(t, p)
  {
    if s != [] {
      assert (s + t)[1..] == s[1..] + t;
      FilterAppend(s[1..], t, p);
    } else {
      assert s + t == t;
    }
  }

  /** Some row carries key k. */
  predicate HasKey<T>(s: seq<T>, key: T -> Id, k: Id) {
    exists i :: 0 <= i < |s| && key(s[i]) == k
  }

  /** gorm's Save of a record: it replaces every row with its primary key, or is appended when
      no row has that key. */
  function Upsert<T>(s: seq<T>, key: T -> Id, v: T): (r: seq<T>)
    ensures v in r
    ensures HasKey(s, key, key(v)) ==>
      |r| == |s| && forall i :: 0 <= i < |s| ==> r[i] == if key(s[i]) == key(v) then v else s[i]
    ensures !HasKey(s, key, key(v)) ==> r == s + [v]
  {
    if HasKey(s, key, key(v)) then
      var i :| 0 <= i < |s| && key(s[i]) == key(v);
      var r := seq(|s|, j requires 0 <= j < |s| => if key(s[j]) == key(v) then v else s[j]);
      assert r[i] == v;
      r
    else s + [v]
  }

  /** Upserting the same record twice leaves the table as upserting it once. */
  lemma UpsertTwice<T>(s: seq<T>, key: T -> Id, v: T)
    ensures Upsert(Upsert(s, key, v), key, v) == Upsert(s, key, v)
  {
    var r := Upsert(s, key, v);
    assert HasKey(r, key, key(v)) by {
      var i :| 0 <= i < |r| && r[i] == v;
    }
  }

  /** The largest of a list of ids (0 when there are none). */
  function MaxId(ids: seq<Id>): (m: Id)
    ensures forall i :: 0 <= i < |ids| ==> ids[i] <= m
  {
    if ids == [] then 0
    else
      var rest := MaxId(ids[1..]);
      if ids[0] > rest then ids[0] else rest
  }

  function UserIds(t: Tables): seq<Id> { seq(|t.users|, i requires 0 <= i < |t.users| => t.users[i].id) }
  function RobotIds(t: Tables): seq<Id> { seq(|t.robots|, i requires 0 <= i < |t.robots| => t.robots[i].id) }
  function PlanIds(t: Tables): seq<Id> { seq(|t.plans|, i requires 0 <= i < |t.plans| => t.plans[i].id) }
  function SubscriptionIds(t: Tables): seq<Id> {
    seq(|t.subscriptions|, i requires 0 <= i < |t.subscriptions| => t.subscriptions[i].id)
  }
  function PaymentIds(t: Tables): seq<Id> { seq(|t.payments|, i requires 0 <= i < |t.payments| => t.payments[i].id) }
  function LogIds(t: Tables): seq<Id> { seq(|t.logs|, i requires 0 <= i < |t.logs| => t.logs[i].id) }

  /** No row of any table carries this id. */
  ghost predicate Unused(t: Tables, id: Id) {
    && (forall i :: 0 <= i < |t.users| ==> t.users[i].id != id)
    && (forall i :: 0 <= i < |t.robots| ==> t.robots[i].id != id)
    && (forall i :: 0 <= i < |t.plans| ==> t.plans[i].id != id)
    && (forall i :: 0 <= i < |t.subscriptions| ==> t.subscriptions[i].id != id)
    && (forall i :: 0 <= i < |t.payments| ==> t.payments[i].id != id)
    && (forall i :: 0 <= i < |t.logs| ==> t.logs[i].id != id)
  }

  /** The id a BeforeCreate hook assigns (uuid.New()): one that no row uses and that is not uuid.Nil. */
  function FreshId(t: Tables): (r: Id)
    ensures Unused(t, r) && r != NilUuid
  {
    var u, r, p, s, y, l := MaxId(UserIds(t)), MaxId(RobotIds(t)), MaxId(PlanIds(t)),
      MaxId(SubscriptionIds(t)), MaxId(PaymentIds(t)), MaxId(LogIds(t));
    assert forall i :: 0 <= i < |t.users| ==> t.users[i].id == UserIds(t)[i] <= u;
    assert forall i :: 0 <= i < |t.robots| ==> t.robots[i].id == RobotIds(t)[i] <= r;
    assert forall i :: 0 <= i < |t.plans| ==> t.plans[i].id == PlanIds(t)[i] <= p;
    assert forall i :: 0 <= i < |t.subscriptions| ==> t.subscriptions[i].id == SubscriptionIds(t)[i] <= s;
    assert forall i :: 0 <= i < |t.payments| ==> t.payments[i].id == PaymentIds(t)[i] <= y;
    assert forall i :: 0 <= i < |t.logs| ==> t.logs[i].id == LogIds(t)[i] <= l;
    u + r + p + s + y + l + 1
  }

  /** The user row with that id (the owner preload's query). */
  function UserById(users: seq<User>, id: Id): (r: Option<User>)
    ensures r.Some? ==> r.value in users && r.value.id == id
    ensures r.None? <==> forall i :: 0 <= i < |users| ==> users[i].id != id
  {
    First(users, (u: User) => u.id == id)
  }

  /** The plan rows of a robot, in table order (the plans preload's query). */
  function PlansOf(plans: seq<Plan>, robotId: Id): (r: seq<Plan>)
    ensures forall i :: 0 <= i < |r| ==> r[i].robotId == robotId
  {
    Filter(plans, (p: Plan) => p.robotId == robotId)
  }

  /** Preload("User").Preload("Plans"): the robot with its owner row (nil when none) and its plans. */
  function Preload(t: Tables, r: Robot): (l: LoadedRobot)
    ensures l.robot == r && l.owner == UserById(t.users, r.userId)
    ensures forall i :: 0 <= i < |l.plans| ==> l.plans[i].robotId == r.id
  {
    LoadedRobot(r, UserById(t.users, r.userId), PlansOf(t.plans, r.id))
  }
}
