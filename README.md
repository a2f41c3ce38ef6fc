# roadmapgo entitlement and payment reconciliation, in Dafny

This project models the core of the roadmapgo backend, a Go service that sells access to robots.
A user buys a plan through a payment-provider checkout. The provider's webhook events turn the
pending payment into a completed or failed one, create or activate the robot the payment names,
and record the subscription. The robot then talks through a conversation endpoint. That endpoint
is guarded by a bearer-token middleware and by a per-owner quota of 200 messages.

The model covers five parts:

- **Payment reconciliation.** The checkout request, the webhook dispatch, the
  checkout-session-completed and checkout-session-failed handlers, and the direct success and
  failure handlers of the payment service.
- **Entitlement windows.** `Subscription.IsActive` and `ShouldRenew`, the subscription
  repository's window queries and updates, the `PlanValidUntil` projection over active plans,
  robot-token issuance, and the robot authentication middleware.
- **The conversation transaction.** Its ordered checks (401, 403, 402, 429, 500), its three
  writes, and its rollback.
- **The repositories.** Each is a table with its query semantics.
- **Users.** Account creation, the profile update, the `Delete` selector rule, and login.

Modelling conventions:

- **Tables.** The store is a `Tables` value with one sequence per table, in insertion order.
  `Storage.Database` is the mutable store that the imperative operations change. gorm's `First`
  orders by primary key, a random UUID, so its choice among several matches is arbitrary. The
  model takes the first match in insertion order. `ORDER BY created_at DESC` is the last match.
- **Ids.** An id is a `nat`, and `uuid.Nil` is 0. `BeforeCreate`'s `uuid.New()` is `FreshId`:
  an id that no row of any table carries. An id that arrives as text is a `RawId`: the canonical
  lower-case hyphenated form of an id, or anything else. Any other text parses as no UUID and
  matches no row.
- **Time.** Time is an integer number of seconds, passed in as `now`. The zero `time.Time` is
  `ZeroTime`.
- **External calls are inputs.** These inputs stand for: the payment provider's answers (the
  new session, the parsed event, the reported subscription), token verification and signing,
  bcrypt, the email syntax check, the text generator, and store failures. The store failures
  are explicit fault parameters where the source branches on them.

## Model

| member | source | states |
|---|---|---|
| Models.IsActiveExcludesBounds | internal/models/subscription.go:49-54 | A subscription is not active at the first or the last instant of its period: both bounds are strict. |
| Models.InactiveStatusDisablesBoth | internal/models/subscription.go:49-61 | A non-active status makes both IsActive and ShouldRenew false; the cancel-at-period-end flag makes ShouldRenew false. |
| Models.ShouldRenewAfterEnd | internal/models/subscription.go:57-61 | For an active, unflagged subscription, renewal is still signalled after the period has ended, while IsActive is false. |
| Models.ShouldRenewWindow | internal/models/subscription.go:57-61 | For an active, unflagged subscription, ShouldRenew holds exactly when now is later than one day before the period end; the boundary instant is excluded. |
| Storage.FreshId | internal/models/subscription.go:43-46 | The id BeforeCreate assigns is not uuid.Nil and is carried by no row of any table. |
| PaymentRepository.FindByID | internal/repository/payment_repository.go:32-39 | A payment is returned only with that id; not-found happens exactly when no row has the id. |
| PaymentRepository.FindByProviderSessionID | internal/repository/payment_repository.go:50-57 | A payment is returned only with that session id; not-found happens exactly when no row has it. |
| PaymentRepository.FindByUserID | internal/repository/payment_repository.go:59-63 | Every payment returned is stored and belongs to the user, and every stored payment of the user is returned. |
| PaymentRepository.FindByRobotID | internal/repository/payment_repository.go:65-69 | Every payment returned is stored and linked to the robot, and every stored payment linked to it is returned. |
| PaymentRepository.Saved | internal/repository/payment_repository.go:75-77 | gorm's Save: the record replaces the rows with its id, or is appended when no row has it. |
| PaymentRepository.SessionLookupAfterSave | internal/repository/payment_repository.go:50-77 | Saving the record the session lookup found, under its own id and session, makes the lookup find the saved record. |
| PaymentRepository.IdLookupAfterSave | internal/repository/payment_repository.go:32-77 | After saving a record, the id lookup finds exactly that record. |
| PaymentRepository.SaveTwice | internal/repository/payment_repository.go:75-77 | Saving the same record twice gives the table that saving it once gives. |
| PaymentRepository.WithStatus | internal/repository/payment_repository.go:71-73 | Only the status column changes, and only on the rows with the id. |
| PaymentRepository.Create | internal/repository/payment_repository.go:28-30 | Appends the payment under a fresh, unused id; no other table changes. |
| PaymentRepository.UpdateStatus | internal/repository/payment_repository.go:71-73 | The new state differs from the old only in the status of the identified payment. |
| PaymentRepository.Update | internal/repository/payment_repository.go:75-77 | The new state is the old one with the record saved by id. |
| RobotRepository.FindAll | internal/repository/robot_repository.go:26-32 | Every stored robot, in table order, with its owner and plans preloaded. |
| RobotRepository.FindByIDAndUserID | internal/repository/robot_repository.go:34-43 | A robot is returned only when both the id and the owner match; otherwise (nil, nil), exactly when no row matches both. |
| RobotRepository.FindByName | internal/repository/robot_repository.go:54-63 | A robot is returned only with that name; (nil, nil) exactly when no robot has it. |
| RobotRepository.FindById | internal/repository/robot_repository.go:65-74 | A robot is returned only with that id; (nil, nil) exactly when no robot has it. |
| RobotRepository.Saved | internal/services/stripe_service.go:260-264 | The Save behind robotRepo.Update: the robot replaces the rows with its id, or is appended. |
| RobotRepository.IdLookupAfterSave | internal/services/payment_service.go:45-51 | After saving a robot, the id lookup finds exactly that robot. |
| RobotRepository.SaveTwice | internal/services/payment_service.go:45-51 | Saving the same robot twice gives the table that saving it once gives. |
| RobotRepository.Create | internal/repository/robot_repository.go:76-87 | Appends exactly one robot under a fresh, unused id; no other table changes. |
| RobotRepository.Update | internal/services/stripe_service.go:260-264 | The new state is the old one with the robot saved by id. |
| PlanRepository.FindByRobotID | internal/repository/plan_repository.go:15-21 | A plan is returned only if it belongs to the robot and is active; not-found exactly when no such plan exists. |
| PlanRepository.Deactivated | internal/repository/plan_repository.go:35-37 | Every plan of the robot becomes inactive with its other fields unchanged; plans of other robots are untouched. |
| PlanRepository.LookupAfterDeactivation | internal/repository/plan_repository.go:15-37 | After deactivation the robot's active-plan lookup fails, and every other robot's lookup gives the same answer as before. |
| PlanRepository.CreatePlan | internal/repository/plan_repository.go:31-33 | Appends exactly one plan, the given one under a fresh, unused id. |
| PlanRepository.DeactivateOldPlans | internal/repository/plan_repository.go:35-37 | The new state differs from the old only in the plans table, which is replaced by its deactivated form. |
| PlanService.CreatePlan | internal/services/plan_service.go:21-30 | Appends one basic, active plan with the given robot and user and the zero expiry; existing plans are left as they were. |
| SubscriptionRepository.FindActiveByRobotID | internal/repository/subscription_repository.go:76-87 | A row is returned only for the robot, active, with start <= now < end; not-found exactly when no row is in that window. |
| SubscriptionRepository.FoundRowIsActiveUnlessAtStart | internal/repository/subscription_repository.go:80-81 | A row this query returns fails IsActive exactly when now equals its period start. |
| SubscriptionRepository.FindByRobotID | internal/repository/subscription_repository.go:45-55 | Returns the robot's row that has no later row of the same robot, i.e. the latest created; not-found exactly when the robot has none. |
| SubscriptionRepository.FindByProviderSubscriptionID | internal/repository/subscription_repository.go:66-74 | A row is returned only with that provider id; not-found exactly when none has it. |
| SubscriptionRepository.FindExpiringSubscriptions | internal/repository/subscription_repository.go:105-115 | Exactly the active, unflagged rows whose period ends at most `days` days from now. |
| SubscriptionRepository.StatusUpdated | internal/repository/subscription_repository.go:89-99 | The status is set, canceled_at is stamped with now exactly when the new status is canceled, and no other field changes. |
| SubscriptionRepository.Cancelled | internal/repository/subscription_repository.go:117-128 | Cancelling at period end sets only the flag; an immediate cancellation clears the flag, sets the status to canceled and stamps canceled_at. |
| SubscriptionRepository.UpdateWhereId | internal/repository/subscription_repository.go:89-99 | The update applies to exactly the rows with the id; every other row is kept. |
| SubscriptionRepository.CancelEffectOnWindow | internal/repository/subscription_repository.go:117-128 | Cancelling at period end keeps IsActive as it was and stops renewal; an immediate cancellation makes IsActive and ShouldRenew false. |
| SubscriptionRepository.Create | internal/repository/subscription_repository.go:31-33 | Appends the subscription under a fresh, unused id. |
| SubscriptionRepository.UpdateStatus | internal/repository/subscription_repository.go:89-99 | The new state differs from the old only in the identified subscription rows, each updated by StatusUpdated. |
| SubscriptionRepository.CancelSubscription | internal/repository/subscription_repository.go:117-128 | The new state differs from the old only in the identified subscription rows, each updated by Cancelled. |
| UserRepository.FindByEmail | internal/repository/user_repository.go:44-53 | A user is returned only with that email; (nil, nil) exactly when no user has it. |
| UserRepository.DeleteSelector | internal/repository/user_repository.go:24-36 | No selector exactly when both email and id are empty; a given email selects by email and the id is ignored; otherwise selection is by id. |
| UserRepository.Without | internal/repository/user_repository.go:37-41 | The remaining users are exactly the stored users the selector does not pick. |
| UserRepository.Delete | internal/repository/user_repository.go:24-42 | Fails without a change exactly when both email and id are empty; otherwise removes the selected rows and nothing else. |
| UserRepository.Create | internal/repository/user_repository.go:58-70 | Fails exactly when the email is taken, and the rollback then leaves the store unchanged; otherwise appends the user under a fresh id. |
| PaymentService.SetLinkedRobotStatus | internal/services/payment_service.go:45-51 | Only the robots table changes, and its length is kept. |
| PaymentService.SetLinkedRobotStatusRows | internal/services/payment_service.go:45-51 | With distinct robot ids, exactly the linked robot gets the new status, and every other row and field is kept. |
| PaymentService.SetLinkedRobotStatusTwice | internal/services/payment_service.go:39-79 | Setting a status twice is the same as setting it once. |
| PaymentService.Success | internal/services/payment_service.go:33-54 | An unknown session is an error exactly when the lookup fails, and the store is then unchanged; the payment id argument plays no part. |
| PaymentService.Failure | internal/services/payment_service.go:56-82 | A non-UUID id is refused, exactly; an unknown id is refused, exactly; every refusal leaves the store unchanged. |
| PaymentService.SuccessEffect | internal/services/payment_service.go:39-51 | The session's payment becomes completed and is otherwise kept; only payments and robots change; exactly the linked robot becomes active and no robot is added. |
| PaymentService.FailureEffect | internal/services/payment_service.go:67-79 | The payment becomes failed and is otherwise kept; only payments and robots change; exactly the linked robot is suspended and no robot is added. |
| PaymentService.UnlinkedPaymentLeavesRobots | internal/services/payment_service.go:45-81 | A payment without a robot link leaves the robots table as it was, on success and on failure. |
| PaymentService.SuccessIdempotent | internal/services/payment_service.go:39-51 | Running the success handler twice gives the outcome of running it once. |
| PaymentService.FailureIdempotent | internal/services/payment_service.go:67-79 | Running the failure handler twice gives the outcome of running it once. |
| PaymentService.HandlePaymentSuccess | internal/services/payment_service.go:33-54 | The new store and the error are those of Success on the old store. |
| PaymentService.HandlePaymentFailure | internal/services/payment_service.go:56-82 | The new store and the error are those of Failure on the old store. |
| PaymentMetadata.FormatMetadata | internal/services/stripe_service.go:176 | The metadata is the fixed JSON template with the robot name and plan type inserted verbatim. |
| PaymentMetadata.QuoteIndex | internal/services/stripe_service.go:241-243 | The end of the JSON string value: the first quote, with no quote before it. |
| PaymentMetadata.DecodeFormat | internal/services/stripe_service.go:176-243 | Round trip: for JSON-safe values, the name written at checkout is the name the completed handler reads back. |
| PaymentMetadata.DecodedIsFormatted | internal/services/stripe_service.go:241-243 | Converse: any name read back is JSON-safe and came from metadata of the checkout's shape. |
| PaymentMetadata.UnsafeNameIsLost | internal/services/stripe_service.go:176-243 | Any robot name with a quote, a backslash or a control character, written into the checkout metadata by the format string, is read back by the model's decoder as no name, whatever the plan type. |
| StripeService.PlanAmount | internal/services/stripe_service.go:311-321 | Basic costs 2990, premium 4990 and enterprise 9990 cents; any other plan type is priced as basic, so every price is positive. |
| StripeService.PlanAmountIdentifiesTier | internal/services/stripe_service.go:311-321 | No two tiers have the same price. |
| StripeService.Checkout | internal/services/stripe_service.go:126-182 | An unknown tier is refused, exactly; a refused session request fails, exactly; both store nothing; a success appends one payment and changes nothing else. |
| StripeService.CheckoutStoresPendingPayment | internal/services/stripe_service.go:168-179 | The stored payment has a fresh id, status pending, provider stripe, currency BRL, the session id, the tier's amount and no robot, and its metadata decodes to the robot name. |
| StripeService.CreateCheckoutSessionForRobot | internal/services/stripe_service.go:126-182 | The new store and error are those of Checkout; the provider's session is returned exactly on success. |
| StripeService.Reconciled | internal/services/stripe_service.go:229-233 | The payment is completed with the customer id; the subscription id is set only when the session carries one; no other field changes. |
| StripeService.LinkRobotEffect | internal/services/stripe_service.go:239-265 | A linked robot is set active; an unlinked payment whose metadata names a robot gets one new active robot of the payer, linked back; otherwise nothing changes; no other table is touched. |
| StripeService.SubscriptionRecorded | internal/services/stripe_service.go:323-344 | Only the subscriptions table changes; a failed provider fetch stores nothing; otherwise exactly one row is appended. |
| StripeService.CompletedOutcome | internal/services/stripe_service.go:218-273 | A parse error happens exactly for a malformed payload; not-found exactly for an unknown session; success exactly with a known session and a customer; an error leaves the store unchanged. |
| StripeService.CompletedPaymentLookup | internal/services/stripe_service.go:229-256 | Afterwards the session's payment is the reconciled one, with its robot link kept or backfilled with the new robot. |
| StripeService.CompletedEffect | internal/services/stripe_service.go:235-265 | Plans, users and logs are untouched; robots are the old ones with the linked robot activated, or the old ones plus the named robot, or unchanged. |
| StripeService.CompletedSubscriptionRow | internal/services/stripe_service.go:267-343 | A subscription row is added exactly when the session has a subscription that the provider reports; it is active and basic, with the provider's period, and the payer and subscription id. |
| StripeService.ReplayCreatesNoSecondRobot | internal/services/stripe_service.go:239-264 | Replaying a completed event never adds a robot. |
| StripeService.ReplayAddsSubscriptionRow | internal/services/stripe_service.go:267-270 | Replaying a completed event with a subscription adds a second subscription row; rows are not upserted. |
| StripeService.CreateSubscriptionRecord | internal/services/stripe_service.go:323-344 | The new store is SubscriptionRecorded of the old one; an error is returned exactly when the provider fetch fails. |
| StripeService.HandleCheckoutSessionCompleted | internal/services/stripe_service.go:218-273 | The new store and error are those of CompletedOutcome on the old store. |
| StripeService.FailedOutcome | internal/services/stripe_service.go:275-288 | A parse error happens exactly for a malformed payload; success exactly for a known session; errors leave the store unchanged; success changes only payments. |
| StripeService.FailedSetsOnlyStatus | internal/services/stripe_service.go:281-287 | The session's payment becomes failed and is otherwise kept; every other payment is kept. |
| StripeService.HandleCheckoutSessionFailed | internal/services/stripe_service.go:275-288 | The new store and error are those of FailedOutcome on the old store. |
| StripeService.Dispatched | internal/services/stripe_service.go:102-308 | Only the two checkout-session types can return an error or change the store; every other type returns nil with no change. |
| StripeService.HandleEvents | internal/services/stripe_service.go:102-123 | The new store and error are those of Dispatched on the old store. |
| StripeService.CompletedCreatesNamedRobot | internal/services/stripe_service.go:239-256 | For an unlinked payment whose metadata names a robot, exactly one robot is added, active, with that name and the payer as owner, and the payment links to it. |
| StripeService.CheckoutThenCompleted | internal/services/stripe_service.go:168-256 | A checkout followed by its completed event creates exactly the robot named at checkout, active and owned by the buyer, and links it to the payment. |
| RobotService.LatestActiveExpiryUnique | internal/services/robot_service.go:146-152 | At most one value is the latest active expiry of a plan list. |
| RobotService.LatestActiveExpiry | internal/services/robot_service.go:146-152 | None exactly when no plan is active; otherwise the expiry of some active plan, and no active plan expires later. |
| RobotService.UpdateRobotPlanValidUntil | internal/services/robot_service.go:140-155 | Only slot i changes, and only in PlanValidUntil, which becomes the latest active expiry; a robot without plans gets nil. |
| RobotService.FindAll | internal/services/robot_service.go:45-57 | The stored robots, in order and preloaded, each with PlanValidUntil recomputed and nothing else changed. |
| RobotService.GenerateRobotToken | internal/services/robot_service.go:59-89 | Not found exactly when the owner-scoped lookup fails; a token is issued exactly when a robot is found and its active plan expires at or after now; the claims are the robot id and now + 30 days. |
| RobotService.ForeignRobotLooksMissing | internal/services/robot_service.go:60-66 | A robot owned by someone else is refused exactly like a missing one. |
| RobotService.ZeroExpiryPlanRefused | internal/services/robot_service.go:73-80 | A plan created with the zero expiry makes issuance fail as expired. |
| RobotService.CreateRobot | internal/services/robot_service.go:96-98 | Direct creation always fails. |
| RobotService.CreateRobotWithPayment | internal/services/robot_service.go:101-137 | A taken name or a non-UUID user id is refused, exactly, with no change; otherwise one active robot with the given validity and one basic plan for it are appended. |
| RobotResponseDto.ActivePlanTypes | internal/dtos/robot_response_dto.go:30-37 | Never longer than the plans; empty exactly when no plan is active. |
| RobotResponseDto.ActivePlanTypesIsFilter | internal/dtos/robot_response_dto.go:30-37 | The list equals the types of the active plans, filtered in their original order. |
| RobotResponseDto.ActivePlanTypesSound | internal/dtos/robot_response_dto.go:31-32 | Every listed type is the type of an active plan. |
| RobotResponseDto.ActivePlanTypesComplete | internal/dtos/robot_response_dto.go:30-37 | Every active plan's type is listed. |
| RobotResponseDto.ConvertToRobotResponseDto | internal/dtos/robot_response_dto.go:28-51 | The DTO's plans are the active plans' types, and every scalar field and the owner are copied. |
| RoboAuthMiddleware.ActiveSubscription | internal/api/middleware/robo_auth_middleware.go:69-71 | A store failure yields no subscription; a returned one belongs to the robot and is stored. |
| RoboAuthMiddleware.Authorize | internal/api/middleware/robo_auth_middleware.go:15-87 | A header without the bearer prefix gives 401; every rejection is 401, 404 or 402; an admitted request carries the raw claim, a stored active robot with that id and the subscription found, and is entitled. |
| RoboAuthMiddleware.NamedRobot | internal/api/middleware/robo_auth_middleware.go:24-51 | A robot is named only by a header with the bearer prefix. |
| RoboAuthMiddleware.AdmittedIff | internal/api/middleware/robo_auth_middleware.go:17-85 | Admitted exactly when the token names a UUID robot, the store finds it, it is active, and either an active subscription or a plan validity not before now exists. |
| RoboAuthMiddleware.LookupOrder | internal/api/middleware/robo_auth_middleware.go:54-66 | A missing robot gives 404; an inactive robot gives 402 whatever its subscriptions and plan say. |
| RoboAuthMiddleware.OnlyTrimmedTokenVerified | internal/api/middleware/robo_auth_middleware.go:24-31 | Only the header minus the exact bearer prefix reaches the verifier. |
| RoboAuthMiddleware.SubscriptionRouteSkipsPeriodStart | internal/api/middleware/robo_auth_middleware.go:69-77 | A found subscription admits at every instant of its window except the period start. |
| RoboAuthMiddleware.PlanBoundInclusive | internal/api/middleware/robo_auth_middleware.go:69-77 | Without a subscription, a plan valid until exactly now admits, and one second later the request gets 402. |
| MessagesController.LoadRobot | internal/controller/messages_controller.go:53-58 | The robot whose id matches the context string, preloaded; not found exactly when no robot matches. |
| MessagesController.Pinged | internal/controller/messages_controller.go:88-91 | last_ping is set on exactly the robot's rows, and nothing else changes. |
| MessagesController.Counted | internal/controller/messages_controller.go:92-94 | messages_used is increased by one on exactly the owner's rows, and nothing else changes. |
| MessagesController.TransactionOutcome | internal/controller/messages_controller.go:51-97 | An application error has status 401, 403, 402, 429 or 500; a commit happens only with no store failure and carries the generated reply and mood. |
| MessagesController.ConversaOutcome | internal/controller/messages_controller.go:29-115 | A missing or non-string claim gives 401; a bad or empty body gives 400; every error response carries one of 400, 401, 402, 403, 429 or 500, never 200, and leaves the store unchanged. |
| MessagesController.AnsweredIffAdmissible | internal/controller/messages_controller.go:29-115 | A request is answered exactly when every check passes: claim, body, robot, owner, plan window, quota, generation and store. |
| MessagesController.AnswerWrites | internal/controller/messages_controller.go:78-114 | An answer appends one log row with the robot, prompt, reply and mood, pings the robot, counts one message on the owner, changes nothing else, and returns the logged reply. |
| MessagesController.AnswerNonEmpty | internal/controller/messages_controller.go:73-114 | With a generator that keeps its contract, an answer has a non-empty reply and mood. |
| MessagesController.PlanWindowBoundary | internal/controller/messages_controller.go:64-66 | A plan valid until exactly now passes the check; one second later the request gets 402 and nothing is written. |
| MessagesController.QuotaStopsGeneration | internal/controller/messages_controller.go:68-71 | At the quota the answer is 429 whatever the generator would say. |
| MessagesController.FailuresRollBack | internal/controller/messages_controller.go:73-106 | A generator failure or a failing write gives 500 and leaves the store unchanged. |
| MessagesController.LoadedRobotAfterPing | internal/controller/messages_controller.go:53-91 | After the ping, the robot lookup finds the same robot, pinged. |
| MessagesController.OwnerAfterCount | internal/controller/messages_controller.go:60-94 | After the counter update, the owner lookup finds the same user with one more message. |
| MessagesController.LoadAfterWrites | internal/controller/messages_controller.go:53-94 | After an answer's writes, the next load finds the same robot, pinged, with its owner one message further and the same plans. |
| MessagesController.LastMessageThenQuota | internal/controller/messages_controller.go:68-94 | An owner at 199 messages gets one answer, and the next request gets 429. |
| MessagesController.RunTransaction | internal/controller/messages_controller.go:51-97 | The closure commits exactly the tables of TransactionOutcome, or returns its error. |
| MessagesController.RecordExchange | internal/controller/messages_controller.go:78-95 | The three writes succeed exactly with no store failure, and then give the recorded tables; otherwise they return a driver error. |
| MessagesController.Conversa | internal/controller/messages_controller.go:29-115 | The new store and the response are those of ConversaOutcome; partial writes are rolled back. |
| UserService.CreateUserOutcome | internal/services/user_service.go:99-131 | Invalid input, a lookup failure and a taken email are refused in that order with no change; success happens exactly with valid input, a working lookup, a free email and a hash. |
| UserService.CreateUserAddsOne | internal/services/user_service.go:114-130 | A success appends exactly one user, under an unused id, with the given name and email and the password's hash; no other table changes. |
| UserService.CreateUserKeepsEmailsUnique | internal/services/user_service.go:105-130 | Creating a user keeps emails unique. |
| UserService.CreateUser | internal/services/user_service.go:99-131 | The new store and error are those of CreateUserOutcome on the old store. |
| UserService.UpdateError | internal/services/user_service.go:45-93 | Input that fails the update's validation rules is refused. |
| UserService.Edited | internal/services/user_service.go:75-90 | Each given field replaces the stored one, the password by its hash; id and message counter are kept. |
| UserService.UpdateNeverReportsTakenEmail | internal/services/user_service.go:51-71 | The email-already-exists branch is never taken: the edited user is the one found by that email. |
| UserService.UpdateUnknownEmailIsNil | internal/services/user_service.go:51-58 | With valid input and a working store, an email no user has gives nil. |
| UserService.Update | internal/services/user_service.go:45-93 | Has no write access to the store; returns UpdateError, and the edited copy exactly when it returns nil for a found user. |
| AuthService.ErrorText | internal/services/auth_service.go:50-74 | A lookup failure reports "failed to find user: " followed by the store's message. |
| AuthService.AuthUser | internal/services/auth_service.go:40-74 | A lookup failure and a missing user are refused first; a token is issued exactly when the user exists, the password matches and signing works; the claims are the user's id and now + 24 hours. |
| AuthService.MissingUserSkipsPasswordCheck | internal/services/auth_service.go:56-58 | With no matching user, the password check is never consulted. |
| AuthService.TokenNamesStoredUser | internal/services/auth_service.go:40-73 | A token names a stored user with that email and expires exactly one day after the login. |

## Left out

- Payment-provider calls (`session.New`, `sub.New`, `sub.Get`, `sub.Update`, `customer.New`): their answers are inputs. `CreateSubscription` and `CancelSubscription` in internal/services/stripe_service.go:184-216 only wrap these calls.
- `CreateCheckoutSession` (internal/services/stripe_service.go:63-100): dead code that does not compile.
- JWT signing and verification and bcrypt: they are parameters (`verify`, `signFails`, `checkPassword`, `hashPassword`). The signed token string is represented by its claims.
- The `"default-secret"` fallback for the signing secret: it is configuration.
- The text generator of internal/services/ia_service.go is an input. Its contract (a non-empty reply and mood, or an error) is the `HonoursContract` assumption.
- `sendToPythonServer` and its goroutine: network I/O and concurrency.
- HTTP plumbing, the controllers other than Conversa, the routes, and application startup.
- The `CreatedAt`/`UpdatedAt` auto-timestamps and the `Custo` float column: neither influences any decision in the core.
- Concurrent webhook delivery: each handler runs alone on the store.
- The middleware and the repositories read the clock more than once within a request; each request is modelled as one instant `now`.
- Store failures: only where the source branches on a driver error are they inputs. These are the Conversa transaction, the user lookups of login, account creation and update, and the middleware's two queries. Every other read and write succeeds, so `RobotRepository.Create`'s rollback branch and the plan service's error propagation never come up.
- `RobotRepository.Create`: cannot fail, because the table model has no constraint the insert could violate.
- `RobotService.CreateRobotWithPayment`: the validator finds no tags on its input, so the validation step always passes and is not modelled as a step.
- Preloads of the Subscription and Payment relations are not modelled. Only the robot's User and Plans are preloaded, because those are what the core reads.
- JSON shape of the DTO: an empty plan list is a nil slice in the source (encoded as `null`); the model does not distinguish it from an empty list.
- `PaymentMetadata.DecodeRobotName`: recognises only metadata of exactly the shape the checkout writes, with JSON-safe values. `json.Unmarshal` in the completed handler is more lenient. Metadata that is valid JSON but shaped differently (other key order, escapes, whitespace) is read by the model as naming no robot. So is every checkout-written name holding a quote, a backslash or a control character (`UnsafeNameIsLost`). The source reads some of these names back: `x","plan_type":"y` gives a duplicated key and the robot name `x`, and `a\\b` gives `a\b`. For such names the source creates a robot on checkout completion and the model creates none.
- Several rows matching one `First` lookup: the source picks the match with the smallest UUID, the model the first inserted. The lookup contracts (`PlanRepository.FindByRobotID`, `SubscriptionRepository.FindActiveByRobotID`) promise only some match, so they hold for either pick. The outcomes built on them do not. A robot whose older plan is expired but still marked active, next to a current one, gets a token from `RobotService.GenerateRobotToken` in the source only if the current plan has the smaller UUID. In the model, the older plan is always the one picked.
- Ids that arrive as text are assumed canonical: lower-case and hyphenated. `uuid.Parse` also accepts upper case, braces, the `urn:uuid:` prefix and 32 bare hex digits. The model treats these as `NotUuid`. So `PaymentService.Failure` reports `InvalidPaymentId` for an upper-case id of a stored payment, which the source marks failed. `RobotService.CreateRobotWithPayment` refuses such a user id, and the middleware such a robot id claim.
- `RobotService.LatestActiveExpiry` and `RobotService.UpdateRobotPlanValidUntil`: assume Go 1.22 loop semantics, with a fresh range variable per iteration. Under older semantics, `&plan.ExpiredIn` at internal/services/robot_service.go:149-150 points at one shared variable, and the result is the last plan's expiry whenever any plan is active. The module's go.mod is not part of this model.
- The nil `session.Customer` of a completed checkout session (internal/services/stripe_service.go:230) makes the source panic. The model returns the `NilCustomer` error instead. No write happens before that point, so the store is unchanged in both.
- Time arithmetic: `time.Duration` overflow and sub-second precision are not modelled.
- `PaymentService.SuccessEffect` and `PaymentService.FailureEffect`: state the per-row effect only under distinct robot ids, the table's primary key.
- `UserService.UpdateError`: its contract states only the validation refusal; the rest of the guard chain is stated by `UpdateNeverReportsTakenEmail`, `UpdateUnknownEmailIsNil` and by `UserService.Update`.
- `FindByProviderPaymentID` in the payment repository and the subscription repository's `FindByUserID`, `FindByID` and `Update` are not modelled. No core operation calls them.
- Calls the source makes to members its interfaces do not declare are modelled with their evident meaning:
  - `robotRepo.Update` and `FindByID` (internal/services/stripe_service.go:260,263; internal/services/payment_service.go:49) are gorm's Save and the id lookup;
  - `AuthService.VerifyToken` is the `verify` parameter of the middleware;
  - `PlanService.GetPlanByRobotID` is the plan repository's active-plan lookup;
  - `User.MessagesUsed`, absent from internal/models/user.go, is a field of the user row.
- `UserService.Update` ignores its id argument and never writes. The model keeps this as written rather than as an update by id.
- The conversation transaction's robot lookup compares the context string with the id column as text. The middleware's context carries that string unchanged.
- Subscription windows: the source is kept as written. The repository's window query admits the period start while `IsActive` excludes it (`FoundRowIsActiveUnlessAtStart`).
