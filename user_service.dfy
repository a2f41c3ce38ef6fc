/** internal/services/user_service.go: account creation and the profile update. Input validation
    (the validator tags), the email check and the password hash come before the insert; the
    update edits a loaded copy of the user and never writes it back. The email syntax check and
    bcrypt are parameters of the model. */
module UserService {
  import opened Base
  import opened Models
  import opened Storage
  import UserRepository

  /** UserInput: the fields of a new account. */
  datatype UserInput = UserInput(name: string, email: string, password: string)

  /** UpdateUserInputDTO: every field optional (the empty string means absent). */
  datatype UpdateInput = UpdateInput(name: string, email: string, password: string)

  /** The max=255 bound of the validator tags. */
  const MaxFieldLength: nat := 255

  /** UserInput's tags: name required, 2..255; email required, an email, at most 255; password
      required, at least 8 (lengths in characters). */
  predicate ValidUserInput(input: UserInput, isEmail: string -> bool) {
    && 2 <= |input.name| <= MaxFieldLength
    && input.email != "" && isEmail(input.email) && |input.email| <= MaxFieldLength
    && 8 <= |input.password|
  }

  /** UpdateUserInputDTO's tags: each field, when present, name 2..255, email an email of at most
      255, password 4..255. */
  predicate ValidUpdateInput(input: UpdateInput, isEmail: string -> bool) {
    && (input.name == "" || 2 <= |input.name| <= MaxFieldLength)
    && (input.email == "" || (isEmail(input.email) && |input.email| <= MaxFieldLength))
    && (input.password == "" || 4 <= |input.password| <= MaxFieldLength)
  }

  datatype UserError = InvalidInput | LookupFailed(detail: string) | EmailAlreadyExists | HashFailed

  datatype Outcome = Outcome(tables: Tables, err: Option<UserError>)

  /** CreateUser as a function. `lookupFault` is the store's error when FindByEmail fails;
      `hashPassword` stands for bcrypt at cost 14, None when it fails. The new row has a fresh id,
      the name and email given, the hash as password and no messages used. */
  function CreateUserOutcome(t: Tables, input: UserInput, isEmail: string -> bool, lookupFault: Option<string>,
                             hashPassword: string -> Option<string>): (r: Outcome)
    ensures r.err.Some? ==> r.tables == t
    ensures !ValidUserInput(input, isEmail) ==> r.err == Some(InvalidInput)
    ensures ValidUserInput(input, isEmail) && lookupFault.Some? ==> r.err == Some(LookupFailed(lookupFault.value))
    ensures ValidUserInput(input, isEmail) && lookupFault.None? && UserRepository.FindByEmail(t.users, input.email).Some?
      ==> r.err == Some(EmailAlreadyExists)
    ensures r.err.None? <==>
      && ValidUserInput(input, isEmail) && lookupFault.None?
      && UserRepository.FindByEmail(t.users, input.email).None? && hashPassword(input.password).Some?
  {
    if !ValidUserInput(input, isEmail) then Outcome(t, Some(InvalidInput))
    else if lookupFault.Some? then Outcome(t, Some(LookupFailed(lookupFault.value)))
    else if UserRepository.FindByEmail(t.users, input.email).Some? then Outcome(t, Some(EmailAlreadyExists))
    else
      match hashPassword(input.password)
      case None => Outcome(t, Some(HashFailed))
      case Some(hash) =>
        Outcome(t.(users := t.users + [User(FreshId(t), input.name, input.email, hash, 0)]), None)
  }

  /** A successful CreateUser adds exactly one user, under an id nobody uses, with the name and
      email given and the hash, not the password, stored; no other table changes. */
  lemma CreateUserAddsOne(t: Tables, input: UserInput, isEmail: string -> bool,
                          hashPassword: string -> Option<string>)
    requires CreateUserOutcome(t, input, isEmail, None, hashPassword).err.None?
    ensures var after := CreateUserOutcome(t, input, isEmail, None, hashPassword).tables;
      && |after.users| == |t.users| + 1 && after.users[..|t.users|] == t.users
      && after.(users := t.users) == t
      && var u := after.users[|t.users|];
         && Unused(t, u.id) && u.name == input.name && u.email == input.email
         && hashPassword(input.password) == Some(u.password)
  {
    var after := CreateUserOutcome(t, input, isEmail, None, hashPassword).tables;
    assert after.users[..|t.users|] == t.users;
  }

  /** CreateUser keeps emails unique: the email check rules out a second row with the same email. */
  lemma CreateUserKeepsEmailsUnique(t: Tables, input: UserInput, isEmail: string -> bool, lookupFault: Option<string>,
                                    hashPassword: string -> Option<string>)
    requires UserRepository.UniqueEmails(t.users)
    ensures UserRepository.UniqueEmails(CreateUserOutcome(t, input, isEmail, lookupFault, hashPassword).tables.users)
  {
    var r := CreateUserOutcome(t, input, isEmail, lookupFault, hashPassword);
    if r.err.None? {
      var users := r.tables.users;
      forall i, j | 0 <= i < |users| && 0 <= j < |users| && i != j
        ensures users[i].email != users[j].email
      {
        if i < |t.users| && j < |t.users| {
          assert users[i] == t.users[i] && users[j] == t.users[j];
        } else if i < |t.users| {
          assert users[i] == t.users[i] && users[j].email == input.email;
        } else {
          assert users[j] == t.users[j] && users[i].email == input.email;
        }
      }
    }
  }

  /** CreateUser: validate, look the email up, hash, insert. The insert cannot hit the unique
      index, since the email was looked up just before. */
  method CreateUser(db: Database, input: UserInput, isEmail: string -> bool, lookupFault: Option<string>,
                    hashPassword: string -> Option<string>) returns (err: Option<UserError>)
    modifies db
    ensures Outcome(db.State(), err) == CreateUserOutcome(old(db.State()), input, isEmail, lookupFault, hashPassword)
  {
    if !ValidUserInput(input, isEmail) {
      return Some(InvalidInput);
    }
    if lookupFault.Some? {
      return Some(LookupFailed(lookupFault.value));
    }
    var existing := UserRepository.FindByEmail(db.users, input.email);
    if existing.Some? {
      return Some(EmailAlreadyExists);
    }
    var hash := hashPassword(input.password);
    if hash.None? {
      return Some(HashFailed);
    }
    var created := UserRepository.Create(db, User(0, input.name, input.email, hash.value, 0));
    assert created.Created?;
    err := None;
  }

  /** The answer of Update. The user is looked up by the input's email, so a found user always
      has that email and the "email already exists" branch, written as in the source, is never
      taken; the id argument plays no part. */
  function UpdateError(users: seq<User>, input: UpdateInput, isEmail: string -> bool, lookupFault: Option<string>,
                       hashPassword: string -> Option<string>): (r: Option<UserError>)
    ensures !ValidUpdateInput(input, isEmail) ==> r == Some(InvalidInput)
  {
    if !ValidUpdateInput(input, isEmail) then Some(InvalidInput)
    else if lookupFault.Some? then Some(LookupFailed(lookupFault.value))
    else
      match UserRepository.FindByEmail(users, input.email)
      case None => None
      case Some(user) =>
        if input.email != "" && input.email != user.email && UserRepository.FindByEmail(users, input.email).Some?
        then Some(EmailAlreadyExists)
        else if input.password != "" && hashPassword(input.password).None? then Some(HashFailed)
        else None
  }

  /** The loaded user after Update's field-by-field edits: the email and name when given, and the
      hash of the password when one is given. */
  function Edited(user: User, input: UpdateInput, hashPassword: string -> Option<string>): (u: User)
    requires input.password != "" ==> hashPassword(input.password).Some?
    ensures u.id == user.id && u.messagesUsed == user.messagesUsed
    ensures u.email == (if input.email != "" then input.email else user.email)
    ensures u.name == (if input.name != "" then input.name else user.name)
    ensures u.password == (if input.password != "" then hashPassword(input.password).value else user.password)
  {
    var withEmail := if input.email != "" then user.(email := input.email) else user;
    var withName := if input.name != "" then withEmail.(name := input.name) else withEmail;
    if input.password != "" then withName.(password := hashPassword(input.password).value) else withName
  }

  /** Update never reports a taken email: the user it edits is the one found by that email. */
  lemma UpdateNeverReportsTakenEmail(users: seq<User>, input: UpdateInput, isEmail: string -> bool,
                                     lookupFault: Option<string>, hashPassword: string -> Option<string>)
    ensures UpdateError(users, input, isEmail, lookupFault, hashPassword) != Some(EmailAlreadyExists)
  {
    var found := UserRepository.FindByEmail(users, input.email);
    if ValidUpdateInput(input, isEmail) && lookupFault.None? && found.Some? {
      assert found.value.email == input.email;
    }
  }

  /** With valid input and a working store, an email no user has makes Update return nil. */
  lemma UpdateUnknownEmailIsNil(users: seq<User>, input: UpdateInput, isEmail: string -> bool,
                                hashPassword: string -> Option<string>)
    requires ValidUpdateInput(input, isEmail)
    requires forall i :: 0 <= i < |users| ==> users[i].email != input.email
    ensures UpdateError(users, input, isEmail, None, hashPassword).None?
  {
    assert UserRepository.FindByEmail(users, input.email).None?;
  }

  /** Update. It reads the users table and has no write access to the store: the edited copy is
      returned here only to state what the source computes and then drops. */
  method Update(db: Database, id: int, input: UpdateInput, isEmail: string -> bool, lookupFault: Option<string>,
                hashPassword: string -> Option<string>) returns (err: Option<UserError>, edited: Option<User>)
    ensures err == UpdateError(db.users, input, isEmail, lookupFault, hashPassword)
    ensures edited.Some? <==> err.None? && UserRepository.FindByEmail(db.users, input.email).Some?
    ensures edited.Some? ==> edited.value == Edited(UserRepository.FindByEmail(db.users, input.email).value, input, hashPassword)
  {
    edited := None;
    if !ValidUpdateInput(input, isEmail) {
      return Some(InvalidInput), edited;
    }
    if lookupFault.Some? {
      return Some(LookupFailed(lookupFault.value)), edited;
    }
    var found := UserRepository.FindByEmail(db.users, input.email);
    if found.None? {
      return None, edited;
    }
    var user := found.value;
    // The duplicate-email check compares the input email with the email it was found by.
    assert !(input.email != "" && input.email != user.email);
    if input.email != "" {
      user := user.(email := input.email);
    }
    if input.name != "" {
      user := user.(name := input.name);
    }
    if input.password != "" {
      var hash := hashPassword(input.password);
      if hash.None? {
        return Some(HashFailed), edited;
      }
      user := user.(password := hash.value);
    }
    err, edited := None, Some(user);
  }
}
