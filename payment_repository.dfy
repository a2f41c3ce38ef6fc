/** internal/repository/payment_repository.go: lookups over the payments table and its three writes. */
module PaymentRepository {
  import opened Base
  import opened Models
  import opened Storage

  /** FindByID: the payment with that primary key; None stands for gorm's record-not-found error. */
  function FindByID(ps: seq<Payment>, id: Id): (r: Option<Payment>)
    ensures r.Some? ==> r.value in ps && r.value.id == id
    ensures r.None? <==> forall i :: 0 <= i < |ps| ==> ps[i].id != id
  {
    First(ps, (p: Payment) => p.id == id)
  }

  /** FindByProviderSessionID: a payment recorded for that checkout session, or the not-found error. */
  function FindByProviderSessionID(ps: seq<Payment>, sessionId: string): (r: Option<Payment>)
    ensures r.Some? ==> r.value in ps && r.value.providerSessionId == sessionId
    ensures r.None? <==> forall i :: 0 <= i < |ps| ==> ps[i].providerSessionId != sessionId
  {
    First(ps, (p: Payment) => p.providerSessionId == sessionId)
  }

  /** FindByUserID: exactly the payments of that user, in table order. */
  function FindByUserID(ps: seq<Payment>, userId: Id): (r: seq<Payment>)
    ensures forall i :: 0 <= i < |r| ==> r[i] in ps && r[i].userId == userId
    ensures forall i :: 0 <= i < |ps| && ps[i].userId == userId ==> ps[i] in r
  {
    Filter(ps, (p: Payment) => p.userId == userId)
  }

  /** FindByRobotID: exactly the payments linked to that robot, in table order. */
  function FindByRobotID(ps: seq<Payment>, robotId: Id): (r: seq<Payment>)
    ensures forall i :: 0 <= i < |r| ==> r[i] in ps && r[i].robotId == Some(robotId)
    ensures forall i :: 0 <= i < |ps| && ps[i].robotId == Some(robotId) ==> ps[i] in r
  {
    Filter(ps, (p: Payment) => p.robotId == Some(robotId))
  }

  /** The table after UPDATE payments SET status = ? WHERE id = ?: only the status column of the
      identified rows changes. */
  function WithStatus(ps: seq<Payment>, id: Id, status: PaymentStatus): (r: seq<Payment>)
    ensures |r| == |ps|
    ensures forall i :: 0 <= i < |ps| ==> r[i].(status := ps[i].status) == ps[i]
    ensures forall i :: 0 <= i < |ps| ==> r[i].status == if ps[i].id == id then status else ps[i].status
  {
    seq(|ps|, i requires 0 <= i < |ps| => if ps[i].id == id then ps[i].(status := status) else ps[i])
  }

  /** The table after gorm's Save: the record replaces the row with its primary key, or is
      inserted when no row has it. */
  function Saved(ps: seq<Payment>, p: Payment): (r: seq<Payment>)
    ensures p in r
    ensures FindByID(ps, p.id).Some? ==>
      |r| == |ps| && forall i :: 0 <= i < |ps| ==> r[i] == if ps[i].id == p.id then p else ps[i]
    ensures FindByID(ps, p.id).None? ==> r == ps + [p]
  {
    Upsert(ps, (q: Payment) => q.id, p)
  }

  /** Saving a record that keeps its session id makes it what the session lookup finds next. */
  lemma SessionLookupAfterSave(ps: seq<Payment>, p: Payment)
    requires FindByProviderSessionID(ps, p.providerSessionId).Some?
    requires FindByProviderSessionID(ps, p.providerSessionId).value.id == p.id
    ensures FindByProviderSessionID(Saved(ps, p), p.providerSessionId) == Some(p)
  {
    var s := p.providerSessionId;
    var i := FirstIndex(ps, (q: Payment) => q.providerSessionId == s).value;
    assert FindByID(ps, p.id).Some? by {
      assert ps[i].id == p.id;
    }
    FirstAfterOverwrite(ps, Saved(ps, p), (q: Payment) => q.providerSessionId == s, i, p);
  }

  /** Saving a record makes it what the primary-key lookup finds next. */
  lemma IdLookupAfterSave(ps: seq<Payment>, p: Payment)
    ensures FindByID(Saved(ps, p), p.id) == Some(p)
  {
    var r := Saved(ps, p);
    var k := FirstIndex(r, (q: Payment) => q.id == p.id).value;
    if FindByID(ps, p.id).None? {
      assert r[|ps|] == p;
    }
  }

  /** Saving the same record twice leaves the table as saving it once. */
  lemma SaveTwice(ps: seq<Payment>, p: Payment)
    ensures Saved(Saved(ps, p), p) == Saved(ps, p)
  {
    UpsertTwice(ps, (q: Payment) => q.id, p);
  }

  /** Create: inserts the payment under a fresh id (BeforeCreate assigns uuid.New()). */
  method Create(db: Database, p: Payment) returns (created: Payment)
    modifies db
    ensures created == p.(id := FreshId(old(db.State())))
    ensures Unused(old(db.State()), created.id)
    ensures db.State() == old(db.State()).(payments := old(db.payments) + [created])
  {
    created := p.(id := FreshId(db.State()));
    db.payments := db.payments + [created];
  }

  /** UpdateStatus: sets the status of the identified payment and nothing else. */
  method UpdateStatus(db: Database, id: Id, status: PaymentStatus)
    modifies db
    ensures db.State() == old(db.State()).(payments := WithStatus(old(db.payments), id, status))
  {
    db.payments := WithStatus(db.payments, id, status);
  }

  /** Update: writes the whole record back, keyed by its id (gorm's Save). */
  method Update(db: Database, p: Payment)
    modifies db
    ensures db.State() == old(db.State()).(payments := Saved(old(db.payments), p))
  {
    db.payments := Saved(db.payments, p);
  }
}
