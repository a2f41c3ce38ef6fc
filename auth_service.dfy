/** internal/services/auth_service.go: user login. The user is looked up by email, the password is
    checked against the stored hash, and a token is issued whose claims name the user and expire a
    day later. Hash comparison and token signing are parameters of the model. */
module AuthService {
  import opened Base
  import opened Models
  import UserRepository

  /** What the login returns instead of a token; FailedToFindUser carries the store's message. */
  datatype AuthError = FailedToFindUser(detail: string) | UserNotFound | InvalidPassword | TokenNotSigned

  /** The claims createToken signs: user_id and exp. */
  datatype UserClaims = UserClaims(userId: Id, exp: int)

  datatype AuthResult = Authenticated(claims: UserClaims) | Refused(error: AuthError)

  /** Token lifetime of createToken: 24 hours. */
  const UserTokenLifetime: int := 24 * 3600

  /** The error text AuthUser returns for each refusal. */
  function ErrorText(e: AuthError): (s: string)
    ensures e.FailedToFindUser? ==> s == "failed to find user: " + e.detail
  {
    match e
    case FailedToFindUser(detail) => "failed to find user: " + detail
    case UserNotFound => "user not found"
    case InvalidPassword => "invalid password"
    case TokenNotSigned => "failed to generate token"
  }

  /** AuthUser. `lookupFault` is the store's error message when FindByEmail fails; `checkPassword`
      stands for CheckPasswordHash(password, hash); `signFails` says whether signing fails. */
  function AuthUser(users: seq<User>, email: string, password: string, lookupFault: Option<string>,
                    checkPassword: (string, string) -> bool, signFails: bool, now: int): (r: AuthResult)
    ensures lookupFault.Some? ==> r == Refused(FailedToFindUser(lookupFault.value))
    ensures lookupFault.None? && UserRepository.FindByEmail(users, email).None? ==> r == Refused(UserNotFound)
    ensures r.Authenticated? <==>
      && lookupFault.None? && !signFails
      && UserRepository.FindByEmail(users, email).Some?
      && checkPassword(password, UserRepository.FindByEmail(users, email).value.password)
    ensures r.Authenticated? ==>
      && UserRepository.FindByEmail(users, email).Some?
      && r.claims == UserClaims(UserRepository.FindByEmail(users, email).value.id, now + UserTokenLifetime)
  {
    if lookupFault.Some? then Refused(FailedToFindUser(lookupFault.value))
    else
      match UserRepository.FindByEmail(users, email)
      case None => Refused(UserNotFound)
      case Some(user) =>
        if !checkPassword(password, user.password) then Refused(InvalidPassword)
        else if signFails then Refused(TokenNotSigned)
        else Authenticated(UserClaims(user.id, now + UserTokenLifetime))
  }

  /** When no user has the email the password check is never consulted: any two checkers give
      the same refusal. */
  lemma MissingUserSkipsPasswordCheck(users: seq<User>, email: string, password: string,
                                      check1: (string, string) -> bool, check2: (string, string) -> bool,
                                      signFails: bool, now: int)
    requires UserRepository.FindByEmail(users, email).None?
    ensures AuthUser(users, email, password, None, check1, signFails, now)
         == AuthUser(users, email, password, None, check2, signFails, now)
         == Refused(UserNotFound)
  {
  }

  /** A token is only issued for a stored user with that email, and it is valid for exactly one
      day from the login. */
  lemma TokenNamesStoredUser(users: seq<User>, email: string, password: string, lookupFault: Option<string>,
                             checkPassword: (string, string) -> bool, signFails: bool, now: int)
    requires AuthUser(users, email, password, lookupFault, checkPassword, signFails, now).Authenticated?
    ensures var c := AuthUser(users, email, password, lookupFault, checkPassword, signFails, now).claims;
      && (exists i :: 0 <= i < |users| && users[i].id == c.userId && users[i].email == email)
      && c.exp - now == Day
  {
    var u := UserRepository.FindByEmail(users, email).value;
    var i :| 0 <= i < |users| && users[i] == u;
  }
}
