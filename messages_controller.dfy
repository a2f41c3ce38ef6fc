/** internal/controller/messages_controller.go: the Conversa handler. Its transaction loads the
    robot with its owner and plans, checks ownership, plan validity and the message quota, asks the
    text generator for a reply, and then writes a log row, the robot's last ping and the owner's
    message counter; any error rolls all of it back. */
module MessagesController {
  import opened Base
  import opened Models
  import opened Storage

  /** Messages a user may send on the basic plan. */
  const MessageLimit: nat := 200

  /** The robo_id the authentication middleware left in the request context. */
  datatype RoboIdClaim = ClaimMissing | ClaimNotString | ClaimString(raw: RawId)

  /** The request body: not JSON of the request's shape, or its texto. */
  datatype RequestBody = Unreadable | Body(texto: string)

  /** The text generator's answer: a reply and a mood, or an error. */
  datatype Generation = Generated(reply: string, mood: string) | GenerationFailed(reason: string)

  /** The generator's own contract: a reply it returns has a non-empty text and mood. */
  predicate HonoursContract(g: Generation) {
    g.Generated? ==> g.reply != "" && g.mood != ""
  }

  /** Which store statement of the transaction, if any, fails with a driver error. */
  datatype StoreFault = NoFault | LoadFails | LogInsertFails | PingUpdateFails | CounterUpdateFails

  datatype Reason = RobotNotFound | NoOwner | PlanInactive | QuotaReached | GenerationError(detail: string)

  /** The error the transaction closure returns: an appError with its HTTP status, or a store error. */
  datatype TxError = AppError(status: int, reason: Reason) | DriverError

  datatype TxResult = Committed(tables: Tables, reply: string, mood: string) | RolledBack(error: TxError)

  datatype Response = ErrorResponse(status: int) | Answer(reply: string, mood: string)

  /** The tables after the transaction and the response sent. */
  datatype Exchange = Exchange(tables: Tables, response: Response)

  /** The robot lookup by the context's id string, with User and Plans preloaded. */
  function LoadRobot(t: Tables, roboId: RawId): (r: Option<LoadedRobot>)
    ensures r.Some? ==> r.value.robot in t.robots && Uuid(r.value.robot.id) == roboId && r.value == Preload(t, r.value.robot)
    ensures r.None? <==> forall i :: 0 <= i < |t.robots| ==> Uuid(t.robots[i].id) != roboId
  {
    match First(t.robots, (x: Robot) => Uuid(x.id) == roboId)
    case None => None
    case Some(robot) => Some(Preload(t, robot))
  }

  /** The plan window check: a robot may talk while now is not after PlanValidUntil. */
  predicate PlanValid(r: Robot, now: int) {
    r.planValidUntil.Some? && now <= r.planValidUntil.value
  }

  /** The last_ping update: every row with that id gets the ping, no other field or row changes. */
  function Pinged(robots: seq<Robot>, id: Id, now: int): (r: seq<Robot>)
    ensures |r| == |robots|
    ensures forall i :: 0 <= i < |robots| ==>
      r[i] == if robots[i].id == id then robots[i].(lastPing := Some(now)) else robots[i]
  {
    seq(|robots|, i requires 0 <= i < |robots| => if robots[i].id == id then robots[i].(lastPing := Some(now)) else robots[i])
  }

  /** The messages_used + 1 update on the owner's rows. */
  function Counted(users: seq<User>, id: Id): (r: seq<User>)
    ensures |r| == |users|
    ensures forall i :: 0 <= i < |users| ==>
      r[i] == if users[i].id == id then users[i].(messagesUsed := users[i].messagesUsed + 1) else users[i]
  {
    seq(|users|, i requires 0 <= i < |users| => if users[i].id == id then users[i].(messagesUsed := users[i].messagesUsed + 1) else users[i])
  }

  /** The transaction closure, as a function: the tables it commits, or the error that rolls it back. */
  function TransactionOutcome(t: Tables, roboId: RawId, texto: string, now: int, generated: Generation,
                              fault: StoreFault): (r: TxResult)
    ensures r.RolledBack? && r.error.AppError? ==>
      r.error.status in {StatusUnauthorized, StatusForbidden, StatusPaymentRequired, StatusTooManyRequests, StatusInternalServerError}
    ensures r.Committed? ==> fault == NoFault && generated == Generated(r.reply, r.mood)
  {
    if fault == LoadFails then RolledBack(DriverError)
    else
      match LoadRobot(t, roboId)
      case None => RolledBack(AppError(StatusUnauthorized, RobotNotFound))
      case Some(robo) =>
        if robo.owner.None? then RolledBack(AppError(StatusForbidden, NoOwner))
        else if !PlanValid(robo.robot, now) then RolledBack(AppError(StatusPaymentRequired, PlanInactive))
        else if robo.owner.value.messagesUsed >= MessageLimit then RolledBack(AppError(StatusTooManyRequests, QuotaReached))
        else
          match generated
          case GenerationFailed(detail) => RolledBack(AppError(StatusInternalServerError, GenerationError(detail)))
          case Generated(reply, mood) =>
            if fault != NoFault then RolledBack(DriverError)
            else
              Committed(Recorded(t, robo.robot.id, robo.owner.value.id, texto, reply, mood, now), reply, mood)
  }

  /** Conversa, as a function: the context and body checks, then the transaction; an error response
      leaves the tables as they were. */
  function ConversaOutcome(t: Tables, claim: RoboIdClaim, body: RequestBody, now: int, generated: Generation,
                           fault: StoreFault): (r: Exchange)
    ensures r.response.ErrorResponse? ==> r.tables == t
    ensures !claim.ClaimString? ==> r.response == ErrorResponse(StatusUnauthorized)
    ensures claim.ClaimString? && (body.Unreadable? || body.texto == "") ==> r.response == ErrorResponse(StatusBadRequest)
    ensures r.response.ErrorResponse? ==>
      r.response.status in {StatusBadRequest, StatusUnauthorized, StatusPaymentRequired, StatusForbidden,
                            StatusTooManyRequests, StatusInternalServerError}
  {
    match claim
    case ClaimMissing => Exchange(t, ErrorResponse(StatusUnauthorized))
    case ClaimNotString => Exchange(t, ErrorResponse(StatusUnauthorized))
    case ClaimString(raw) =>
      if body.Unreadable? || body.texto == "" then Exchange(t, ErrorResponse(StatusBadRequest))
      else
        match TransactionOutcome(t, raw, body.texto, now, generated, fault)
        case Committed(after, reply, mood) => Exchange(after, Answer(reply, mood))
        case RolledBack(AppError(status, _)) => Exchange(t, ErrorResponse(status))
        case RolledBack(DriverError) => Exchange(t, ErrorResponse(StatusInternalServerError))
  }

  /** The checks that must all pass for an answer: a request well formed, a robot found with an
      owner, a plan still valid at now, quota left, a reply generated and no store failure. */
  ghost predicate Admissible(t: Tables, claim: RoboIdClaim, body: RequestBody, now: int, generated: Generation,
                             fault: StoreFault) {
    && claim.ClaimString? && body.Body? && body.texto != ""
    && fault == NoFault && generated.Generated?
    && LoadRobot(t, claim.raw).Some?
    && LoadRobot(t, claim.raw).value.owner.Some?
    && PlanValid(LoadRobot(t, claim.raw).value.robot, now)
    && LoadRobot(t, claim.raw).value.owner.value.messagesUsed < MessageLimit
  }

  /** A request is answered exactly when every check passes. */
  lemma AnsweredIffAdmissible(t: Tables, claim: RoboIdClaim, body: RequestBody, now: int, generated: Generation,
                              fault: StoreFault)
    ensures ConversaOutcome(t, claim, body, now, generated, fault).response.Answer? <==>
      Admissible(t, claim, body, now, generated, fault)
  {
    if claim.ClaimString? && body.Body? && body.texto != "" {
      var raw := claim.raw;
      if TransactionOutcome(t, raw, body.texto, now, generated, fault).Committed? {
        assert fault == NoFault;
      }
    }
  }

  /** What an answered request writes and nothing else: one log row with the robot id, the prompt
      and the reply, the ping on the robot, one more message on the owner; the answer is the reply
      that was logged. */
  lemma AnswerWrites(t: Tables, claim: RoboIdClaim, body: RequestBody, now: int, generated: Generation,
                     fault: StoreFault)
    requires Admissible(t, claim, body, now, generated, fault)
    ensures var robo := LoadRobot(t, claim.raw).value;
      var r := ConversaOutcome(t, claim, body, now, generated, fault);
      && r.response == Answer(generated.reply, generated.mood)
      && |r.tables.logs| == |t.logs| + 1
      && r.tables.logs[..|t.logs|] == t.logs
      && r.tables.logs[|t.logs|].robotId == robo.robot.id
      && r.tables.logs[|t.logs|].question == body.texto
      && r.tables.logs[|t.logs|].answer == r.response.reply
      && r.tables.logs[|t.logs|].mood == r.response.mood
      && Unused(t, r.tables.logs[|t.logs|].id)
      && r.tables.robots == Pinged(t.robots, robo.robot.id, now)
      && r.tables.users == Counted(t.users, robo.owner.value.id)
      && r.tables.(logs := t.logs, robots := t.robots, users := t.users) == t
  {
    var robo := LoadRobot(t, claim.raw).value;
    var entry := ConversationLog(FreshId(t), robo.robot.id, body.texto, generated.reply, generated.mood);
    assert (t.logs + [entry])[..|t.logs|] == t.logs;
  }

  /** With a generator that honours its contract, an answer carries a non-empty reply and mood. */
  lemma AnswerNonEmpty(t: Tables, claim: RoboIdClaim, body: RequestBody, now: int, generated: Generation,
                       fault: StoreFault)
    requires HonoursContract(generated)
    requires ConversaOutcome(t, claim, body, now, generated, fault).response.Answer?
    ensures ConversaOutcome(t, claim, body, now, generated, fault).response.reply != ""
    ensures ConversaOutcome(t, claim, body, now, generated, fault).response.mood != ""
  {
    AnsweredIffAdmissible(t, claim, body, now, generated, fault);
  }

  /** The plan window is inclusive: a plan valid until exactly now still answers, one second later
      the request is refused with 402 and nothing is written. */
  lemma PlanWindowBoundary(t: Tables, claim: RoboIdClaim, body: RequestBody, generated: Generation, fault: StoreFault)
    requires claim.ClaimString? && body.Body? && body.texto != "" && fault != LoadFails
    requires LoadRobot(t, claim.raw).Some? && LoadRobot(t, claim.raw).value.owner.Some?
    requires LoadRobot(t, claim.raw).value.robot.planValidUntil.Some?
    ensures var until := LoadRobot(t, claim.raw).value.robot.planValidUntil.value;
      && ConversaOutcome(t, claim, body, until + 1, generated, fault) == Exchange(t, ErrorResponse(StatusPaymentRequired))
      && PlanValid(LoadRobot(t, claim.raw).value.robot, until)
  {
  }

  /** At the quota the generator is not consulted: the outcome is 429 whatever it would answer. */
  lemma QuotaStopsGeneration(t: Tables, claim: RoboIdClaim, body: RequestBody, now: int, g1: Generation,
                             g2: Generation, fault: StoreFault)
    requires claim.ClaimString? && body.Body? && body.texto != "" && fault != LoadFails
    requires LoadRobot(t, claim.raw).Some? && LoadRobot(t, claim.raw).value.owner.Some?
    requires PlanValid(LoadRobot(t, claim.raw).value.robot, now)
    requires LoadRobot(t, claim.raw).value.owner.value.messagesUsed >= MessageLimit
    ensures ConversaOutcome(t, claim, body, now, g1, fault) == ConversaOutcome(t, claim, body, now, g2, fault)
    ensures ConversaOutcome(t, claim, body, now, g1, fault) == Exchange(t, ErrorResponse(StatusTooManyRequests))
  {
  }

  /** A generator failure, or a store failure at any write, answers 500 and rolls everything back. */
  lemma FailuresRollBack(t: Tables, claim: RoboIdClaim, body: RequestBody, now: int, generated: Generation,
                         fault: StoreFault)
    requires claim.ClaimString? && body.Body? && body.texto != ""
    requires generated.GenerationFailed? || fault != NoFault
    requires LoadRobot(t, claim.raw).Some? && LoadRobot(t, claim.raw).value.owner.Some?
    requires PlanValid(LoadRobot(t, claim.raw).value.robot, now)
    requires LoadRobot(t, claim.raw).value.owner.value.messagesUsed < MessageLimit
    ensures ConversaOutcome(t, claim, body, now, generated, fault) == Exchange(t, ErrorResponse(StatusInternalServerError))
  {
  }

  /** The robot lookup after the ping finds the same robot, pinged. */
  lemma LoadedRobotAfterPing(robots: seq<Robot>, raw: RawId, now: int)
    requires First(robots, (x: Robot) => Uuid(x.id) == raw).Some?
    ensures var robot := First(robots, (x: Robot) => Uuid(x.id) == raw).value;
      First(Pinged(robots, robot.id, now), (x: Robot) => Uuid(x.id) == raw) == Some(robot.(lastPing := Some(now)))
  {
    var robot := First(robots, (x: Robot) => Uuid(x.id) == raw).value;
    var pinged := Pinged(robots, robot.id, now);
    FirstIndexPreserved(robots, pinged, (x: Robot) => Uuid(x.id) == raw);
  }

  /** The owner lookup after the counter update finds the same user, one message further. */
  lemma OwnerAfterCount(users: seq<User>, owner: User)
    requires UserById(users, owner.id) == Some(owner)
    ensures UserById(Counted(users, owner.id), owner.id) == Some(owner.(messagesUsed := owner.messagesUsed + 1))
  {
    var p := (u: User) => u.id == owner.id;
    var counted := Counted(users, owner.id);
    FirstIndexPreserved(users, counted, p);
    var i := FirstIndex(users, p).value;
    assert users[i] == owner;
    assert counted[i] == owner.(messagesUsed := owner.messagesUsed + 1);
  }

  /** After the answer's writes, the lookup finds the same robot, pinged, with its owner one
      message further and the same plans. */
  lemma LoadAfterWrites(t: Tables, raw: RawId, now: int, logs: seq<ConversationLog>, robo: LoadedRobot, owner: User)
    requires LoadRobot(t, raw) == Some(robo) && robo.owner == Some(owner)
    ensures LoadRobot(t.(logs := logs, robots := Pinged(t.robots, robo.robot.id, now), users := Counted(t.users, owner.id)), raw)
         == Some(LoadedRobot(robo.robot.(lastPing := Some(now)), Some(owner.(messagesUsed := owner.messagesUsed + 1)), robo.plans))
  {
    var t2 := t.(logs := logs, robots := Pinged(t.robots, robo.robot.id, now), users := Counted(t.users, owner.id));
    var pinged := robo.robot.(lastPing := Some(now));
    assert UserById(t.users, robo.robot.userId) == Some(owner);
    OwnerAfterCount(t.users, owner);
    LoadedRobotAfterPing(t.robots, raw, now);
    assert LoadRobot(t2, raw) == Some(Preload(t2, pinged));
  }

  /** The quota is exact: an owner at 199 messages gets one more answer, and the next request, by
      then at the limit, is refused with 429 without consulting the generator. */
  lemma LastMessageThenQuota(t: Tables, claim: RoboIdClaim, body: RequestBody, now: int, later: int,
                             generated: Generation, next: Generation)
    requires Admissible(t, claim, body, now, generated, NoFault)
    requires LoadRobot(t, claim.raw).value.owner.value.messagesUsed == MessageLimit - 1
    requires PlanValid(LoadRobot(t, claim.raw).value.robot, later)
    ensures var t2 := ConversaOutcome(t, claim, body, now, generated, NoFault).tables;
      ConversaOutcome(t2, claim, body, later, next, NoFault) == Exchange(t2, ErrorResponse(StatusTooManyRequests))
  {
    var robo := LoadRobot(t, claim.raw).value;
    var owner := robo.owner.value;
    var t2 := ConversaOutcome(t, claim, body, now, generated, NoFault).tables;
    AnswerWrites(t, claim, body, now, generated, NoFault);
    assert t2 == t.(logs := t2.logs, robots := Pinged(t.robots, robo.robot.id, now), users := Counted(t.users, owner.id));
    LoadAfterWrites(t, claim.raw, now, t2.logs, robo, owner);
    var again := LoadRobot(t2, claim.raw).value;
    assert again.owner.value.messagesUsed == MessageLimit && PlanValid(again.robot, later);
    assert TransactionOutcome(t2, claim.raw, body.texto, later, next, NoFault)
        == RolledBack(AppError(StatusTooManyRequests, QuotaReached));
  }

  /** The transaction closure: it writes step by step and stops at the first error, leaving the
      partial writes for the caller to roll back. */
  method RunTransaction(db: Database, roboId: RawId, texto: string, now: int, generated: Generation, fault: StoreFault)
    returns (err: Option<TxError>, reply: string, mood: string)
    modifies db
    ensures err.None? ==> TransactionOutcome(old(db.State()), roboId, texto, now, generated, fault) == Committed(db.State(), reply, mood)
    ensures err.Some? ==> TransactionOutcome(old(db.State()), roboId, texto, now, generated, fault) == RolledBack(err.value)
  {
    reply, mood := "", "";
    if fault == LoadFails {
      return Some(DriverError), reply, mood;
    }
    var robo := LoadRobot(db.State(), roboId);
    if robo.None? {
      return Some(AppError(StatusUnauthorized, RobotNotFound)), reply, mood;
    }
    var robot := robo.value.robot;
    if robo.value.owner.None? {
      return Some(AppError(StatusForbidden, NoOwner)), reply, mood;
    }
    var owner := robo.value.owner.value;
    if robot.planValidUntil.None? || now > robot.planValidUntil.value {
      return Some(AppError(StatusPaymentRequired, PlanInactive)), reply, mood;
    }
    if owner.messagesUsed >= MessageLimit {
      return Some(AppError(StatusTooManyRequests, QuotaReached)), reply, mood;
    }
    if generated.GenerationFailed? {
      return Some(AppError(StatusInternalServerError, GenerationError(generated.reason))), reply, mood;
    }
    reply, mood := generated.reply, generated.mood;
    ghost var before := db.State();
    assert TransactionOutcome(before, roboId, texto, now, generated, fault)
        == if fault == NoFault then Committed(Recorded(before, robot.id, owner.id, texto, reply, mood, now), reply, mood)
           else RolledBack(DriverError);
    err := RecordExchange(db, robot.id, owner.id, texto, reply, mood, now, fault);
  }

  /** The tables after the three writes of an answered request. */
  function Recorded(t: Tables, robotId: Id, ownerId: Id, texto: string, reply: string, mood: string, now: int): Tables
  {
    t.(logs := t.logs + [ConversationLog(FreshId(t), robotId, texto, reply, mood)],
       robots := Pinged(t.robots, robotId, now),
       users := Counted(t.users, ownerId))
  }

  /** The three writes of an answered request, in order, stopping at the first failing one. */
  method RecordExchange(db: Database, robotId: Id, ownerId: Id, texto: string, reply: string, mood: string,
                        now: int, fault: StoreFault) returns (err: Option<TxError>)
    requires fault != LoadFails
    modifies db
    ensures err.None? <==> fault == NoFault
    ensures err.Some? ==> err == Some(DriverError)
    ensures err.None? ==> db.State() == Recorded(old(db.State()), robotId, ownerId, texto, reply, mood, now)
  {
    if fault == LogInsertFails {
      return Some(DriverError);
    }
    db.logs := db.logs + [ConversationLog(FreshId(db.State()), robotId, texto, reply, mood)];
    if fault == PingUpdateFails {
      return Some(DriverError);
    }
    db.robots := Pinged(db.robots, robotId, now);
    if fault == CounterUpdateFails {
      return Some(DriverError);
    }
    db.users := Counted(db.users, ownerId);
    err := None;
  }

  /** Conversa: checks the context and the body, runs the transaction, rolls it back on any error
      and maps the error to its status. */
  method Conversa(db: Database, claim: RoboIdClaim, body: RequestBody, now: int, generated: Generation,
                  fault: StoreFault) returns (response: Response)
    modifies db
    ensures Exchange(db.State(), response) == ConversaOutcome(old(db.State()), claim, body, now, generated, fault)
  {
    if !claim.ClaimString? {
      return ErrorResponse(StatusUnauthorized);
    }
    if body.Unreadable? || body.texto == "" {
      return ErrorResponse(StatusBadRequest);
    }
    var snapshot := db.State();
    var err, reply, mood := RunTransaction(db, claim.raw, body.texto, now, generated, fault);
    if err.Some? {
      db.Restore(snapshot);
      match err.value {
        case AppError(status, _) => response := ErrorResponse(status);
        case DriverError => response := ErrorResponse(StatusInternalServerError);
      }
      return;
    }
    response := Answer(reply, mood);
  }
}
