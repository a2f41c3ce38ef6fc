/** internal/repository/user_repository.go: the email lookup, the transactional insert and the
    selector rule of Delete. */
module UserRepository {
  import opened Base
  import opened Models
  import opened Storage

  /** FindByEmail: the user with that email, or None ((nil, nil)) when there is none. */
  function FindByEmail(users: seq<User>, email: string): (r: Option<User>)
    ensures r.Some? ==> r.value in users && r.value.email == email
    ensures r.None? <==> forall i :: 0 <= i < |users| ==> users[i].email != email
  {
    First(users, (u: User) => u.email == email)
  }

  /** The unique index on email: no two rows share an email. */
  predicate UniqueEmails(users: seq<User>) {
    forall i, j :: 0 <= i < |users| && 0 <= j < |users| && i != j ==> users[i].email != users[j].email
  }

  /** Which rows a Delete call removes: by email when one is given (the id is then ignored), by id
      otherwise; None when neither is given. */
  datatype Selector = ByEmail(email: string) | ById(id: RawId)

  function DeleteSelector(email: string, id: RawId): (r: Option<Selector>)
    ensures r.None? <==> email == "" && IsEmptyRaw(id)
    ensures email != "" ==> r == Some(ByEmail(email))
    ensures email == "" && !IsEmptyRaw(id) ==> r == Some(ById(id))
  {
    if email == "" && IsEmptyRaw(id) then None
    else if email != "" then Some(ByEmail(email))
    else Some(ById(id))
  }

  predicate Selected(u: User, sel: Selector) {
    match sel
    case ByEmail(e) => u.email == e
    case ById(id) => Uuid(u.id) == id
  }

  /** The users table without the selected rows, the others kept in order. */
  function Without(users: seq<User>, sel: Selector): (r: seq<User>)
    ensures forall i :: 0 <= i < |r| ==> r[i] in users && !Selected(r[i], sel)
    ensures forall i :: 0 <= i < |users| && !Selected(users[i], sel) ==> users[i] in r
  {
    Filter(users, (u: User) => !Selected(u, sel))
  }

  datatype DeleteError = NoSelector

  /** Delete: refuses a call with neither email nor id and deletes nothing; otherwise removes the
      rows the selector picks. */
  method Delete(db: Database, email: string, id: RawId) returns (err: Option<DeleteError>)
    modifies db
    ensures err.Some? <==> DeleteSelector(email, id).None?
    ensures err.Some? ==> db.State() == old(db.State())
    ensures err.None? ==> db.State() == old(db.State()).(users := Without(old(db.users), DeleteSelector(email, id).value))
  {
    if email == "" && IsEmptyRaw(id) {
      return Some(NoSelector);
    }
    var sel: Selector;
    if email != "" {
      sel := ByEmail(email);
    } else {
      sel := ById(id);
    }
    db.users := Without(db.users, sel);
    err := None;
  }

  datatype CreateError = UniqueEmailViolation

  /** Create: inserts the user under a fresh id inside a transaction; the unique index on email
      makes the insert fail, and the transaction roll back, when the email is taken. */
  method Create(db: Database, u: User) returns (r: CreateResult)
    modifies db
    ensures r.Failed? <==> FindByEmail(old(db.users), u.email).Some?
    ensures r.Failed? ==> db.State() == old(db.State())
    ensures r.Created? ==> r.user == u.(id := FreshId(old(db.State()))) && Unused(old(db.State()), r.user.id)
    ensures r.Created? ==> db.State() == old(db.State()).(users := old(db.users) + [r.user])
  {
    var snapshot := db.State();
    var created := u.(id := FreshId(snapshot));
    db.users := db.users + [created];
    if FindByEmail(snapshot.users, u.email).Some? {
      db.Restore(snapshot);
      return Failed(UniqueEmailViolation);
    }
    r := Created(created);
  }

  datatype CreateResult = Created(user: User) | Failed(error: CreateError)
}
