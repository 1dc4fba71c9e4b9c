/** The local provider's durable state and the sequential state machine it must implement:
    one request is decided against the state and, when accepted, committed to it. */
module ProviderModel {
  import opened Text
  import opened Routing
  import opened RoleList
  import opened Sorting

  // ---------------------------------------------------------------- resources

  datatype Field = Field(code: string, dataType: string, required: bool, readOnly: bool)
  datatype Entity = Entity(code: string, name: string, kind: string, version: int, fields: seq<Field>)
  datatype User = User(id: string, displayName: string, email: string, status: string,
                       roles: seq<string>, version: int)
  datatype Role = Role(key: string, displayName: string, system: bool, version: int)
  datatype Run = Run(id: string, workflow: string, state: string, version: int, createdAt: string,
                     updatedAt: string, leaseState: string, leaseExpiresAt: string, nextWakeAt: string)
  datatype Task = Task(id: string, runId: string, code: string, state: string, attempt: int,
                       version: int, nextAttemptAt: string, errorCode: string, leaseState: string,
                       leaseExpiresAt: string, recoveryState: string)
  /** `limits` holds each limit's JSON text. */
  datatype QuotaPlan = QuotaPlan(code: string, version: int, effectiveAt: string,
                                 windowSeconds: int, limits: map<string, string>)
  datatype DeletionPlan = DeletionPlan(code: string, expectedVersion: int, deletable: bool,
                                       dependencies: seq<string>, impactSummary: string)
  datatype Receipt = Receipt(code: string, deletedVersion: int, deletedAt: string)

  // ---------------------------------------------------------------- bookkeeping

  datatype Value =
    | EntityValue(entity: Entity) | PlanValue(deletion: DeletionPlan) | ReceiptValue(receipt: Receipt)
    | UserValue(user: User) | RoleValue(role: Role) | RunValue(run: Run) | QuotaValue(plan: QuotaPlan)

  datatype Cached = Cached(status: int, value: Value)

  datatype Details =
    | LoginDetails | VersionDetails(version: int) | DeletedDetails(deletedVersion: int)
    | StatusDetails(status: string, version: int) | RoleDetails(role: string, version: int)

  /** The audited actions; `ActionText` gives the recorded strings. */
  datatype Action =
    | LoggedIn
    | EntityCreated | EntityUpdated | EntityDeleted
    | UserCreated | UserStatusSet | RoleCreated | RoleUpdated | RoleAssigned | RoleRevoked
    | RunCancelled | TaskRetried | PlanPublished

  datatype Audit = Audit(id: string, action: Action, targetType: string, targetId: string,
                         occurredAt: string, details: Details)

  datatype State = State(entities: map<string, Entity>, idempotency: map<string, Cached>,
                         audits: seq<Audit>, users: map<string, User>, roles: map<string, Role>,
                         run: Run, task: Task, plan: QuotaPlan)

  /** The state as the row holds it in JSON, where each map may also be null. */
  datatype Encoded = Encoded(entities: Option<map<string, Entity>>, idempotency: Option<map<string, Cached>>,
                             audits: seq<Audit>, users: Option<map<string, User>>,
                             roles: Option<map<string, Role>>, run: Run, task: Task, plan: QuotaPlan)

  function OrEmpty<T>(items: Option<map<string, T>>): map<string, T> {
    if items.Some? then items.value else map[]
  }

  /** The state that a row stands for. */
  function StateIn(row: Encoded): State {
    State(OrEmpty(row.entities), OrEmpty(row.idempotency), row.audits, OrEmpty(row.users), OrEmpty(row.roles),
          row.run, row.task, row.plan)
  }

  function Encode(s: State): Encoded {
    Encoded(Some(s.entities), Some(s.idempotency), s.audits, Some(s.users), Some(s.roles), s.run, s.task, s.plan)
  }

  const SAMPLE_TIME := "2026-07-19T00:00:00Z"

  const SAMPLE_ROLE_KEYS: seq<string> := [
    "identity.admin", "studio.audit.read", "studio.metadata.apply", "studio.metadata.read",
    "studio.metadata.write", "studio.quota.admin", "studio.quota.read",
    "studio.workflow.operate", "studio.workflow.read"]

  function SeedEntity(): Entity {
    Entity("orders", "Orders", "standard", 1,
           [Field("id", "uuid", true, true), Field("status", "string", true, false)])
  }

  function SeedUser(): User {
    User("local-admin", "Local Studio Administrator", "admin@example.com", "active", SAMPLE_ROLE_KEYS, 1)
  }

  function SeedRun(): Run {
    Run("run-001", "local-order-processing", "running", 1, SAMPLE_TIME, SAMPLE_TIME, "active",
        SAMPLE_TIME, "")
  }

  function SeedTask(): Task {
    Task("task-001", "run-001", "validate-order", "running", 1, 1, "", "", "active", SAMPLE_TIME, "none")
  }

  function SeedPlan(): QuotaPlan {
    QuotaPlan("local-default", 1, SAMPLE_TIME, 60, map["requests" := "1000"])
  }

  function InitialState(): State {
    State(map["orders" := SeedEntity()],
          map[],
          [Audit("audit-001", LoggedIn, "session", "local-session", SAMPLE_TIME, LoginDetails)],
          map["local-admin" := SeedUser()],
          map key | key in SAMPLE_ROLE_KEYS :: Role(key, key, true, 1),
          SeedRun(), SeedTask(), SeedPlan())
  }

  // ---------------------------------------------------------------- requests and replies

  /** Every member a mutation body may carry; an absent JSON member is the zero value. */
  datatype Body = Body(confirmation: string, expectedVersion: int, idempotencyKey: string,
                       displayName: string, email: string, id: string, key: string, status: string,
                       entity: Entity, plan: QuotaPlan)

  datatype Decoded = Decoded(body: Body) | Malformed

  /** What the handler reads from the clock while it serves one request. */
  datatype Clock = Clock(changedAt: string, auditStamp: string, auditedAt: string)

  /** A request as it comes off the wire. */
  datatype Wire = Wire(verb: Verb, path: string, content: Decoded, clock: Clock)

  /** A request at its handler: the identifiers from the path, whether the method is PUT and whether
      the path is that of migration apply. */
  datatype Request = Request(route: Route, target: Target, put: bool, apply: bool, content: Decoded, clock: Clock)

  function At(route: Route, wire: Wire): Request {
    Request(route, TargetOf(route, wire.path), wire.verb == PUT, wire.path == MIGRATION_APPLY, wire.content, wire.clock)
  }

  /** Where the switch takes a request. */
  function Arrive(wire: Wire): Request {
    At(Dispatch(wire.verb, wire.path), wire)
  }

  /** Error codes, named after the strings in the reply bodies. */
  datatype Code =
    | InvalidEntity | EntityCodeMismatch | InvalidMutation | ConfirmationRequired | EntityNotFound
    | InvalidUser | InvalidStatus | InvalidPath | UserExists
    | InvalidRole | InvalidAssignment | RoleExists | SystemRole
    | InvalidWorkflowMutation | InvalidQuotaPlan
    | VersionConflict | NotFoundCode | StorageUnavailable

  datatype Payload =
    | Stored(value: Value) | Problem(code: Code)
    | EntityItems(entities: seq<Entity>) | UserItems(users: seq<User>)
    | RoleItems(roles: seq<Role>) | RunItem(run: Run) | TaskItem(task: Task)
    | QuotaItem(plan: QuotaPlan) | AuditItems(audits: seq<Audit>)
    | Sample(name: string) | Preview(requiresConfirmation: bool)

  datatype Reply = Reply(status: int, payload: Payload)

  const IMPACT_SUMMARY := "The local provider found no " + "dependent metadata definitions."

  const ACTIVE := "active"
  const DISABLED := "disabled"
  const DISABLE_USER := "DISABLE_USER"
  const DELETE_ENTITY := "DELETE_ENTITY"
  const CANCEL_RUN := "CANCEL_RUN"
  const RETRY_TASK := "RETRY_TASK"
  const PUBLISH_QUOTA_PLAN := "PUBLISH_QUOTA_PLAN"

  predicate IsMutation(route: Route) {
    match route
    case UpdateEntity | PlanDeletion | DeleteEntity => true
    case CreateUser | SetUserStatus | CreateRole | UpdateRole | ChangeUserRole => true
    case CancelRun | RetryTask | PublishPlan => true
    case _ => false
  }

  // ---------------------------------------------------------------- deciding

  /** The single change an accepted mutation makes to the resources. */
  datatype Change =
    | StoreEntity(code: string, entity: Entity, existed: bool)
    | ReviewDeletion(code: string, version: int)
    | RemoveEntity(code: string, version: int, at: string)
    | AddUser(user: User)
    | SetStatus(id: string, user: User)
    | AddRole(role: Role)
    | RenameRole(key: string, role: Role)
    | AssignRole(id: string, user: User, key: string)
    | RevokeRole(id: string, user: User, key: string)
    | Cancel(run: Run)
    | Retry(run: Run, task: Task)
    | Publish(plan: QuotaPlan)

  datatype Decision = Refuse(status: int, code: Code) | Replay(cached: Cached) | Accept(change: Change)

  /** The request's own validity, checked before any state is read. */
  datatype Form = WellFormed | IllFormed(status: int, code: Code)

  function CheckForm(request: Request): Form
    requires IsMutation(request.route)
  {
    var target := request.target;
    if request.content.Malformed? || request.content.body.idempotencyKey == "" then
      IllFormed(400, BrokenCode(request.route))
    else
      var body := request.content.body;
      match request.route
      case UpdateEntity =>
        if body.entity.code == "" || body.entity.name == "" then IllFormed(400, InvalidEntity)
        else if IdOf(target) != body.entity.code || '/' in IdOf(target) then IllFormed(400, EntityCodeMismatch)
        else WellFormed
      case PlanDeletion =>
        if body.expectedVersion < 0 then IllFormed(400, InvalidMutation) else WellFormed
      case DeleteEntity =>
        if body.expectedVersion < 0 then IllFormed(400, InvalidMutation)
        else if body.confirmation != DELETE_ENTITY then IllFormed(400, ConfirmationRequired)
        else WellFormed
      case CreateUser =>
        if body.id == "" || body.displayName == "" then IllFormed(400, InvalidUser) else WellFormed
      case SetUserStatus =>
        if body.confirmation != DISABLE_USER || (body.status != ACTIVE && body.status != DISABLED)
        then IllFormed(400, InvalidStatus)
        else if target == BadPath then IllFormed(400, InvalidPath)
        else WellFormed
      case CreateRole =>
        if body.key == "" || body.displayName == "" then IllFormed(400, InvalidRole) else WellFormed
      case UpdateRole =>
        if body.displayName == "" then IllFormed(400, InvalidRole) else WellFormed
      case ChangeUserRole =>
        if target == BadPath then IllFormed(400, InvalidPath) else WellFormed
      case CancelRun =>
        if body.confirmation != CANCEL_RUN then IllFormed(400, InvalidWorkflowMutation) else WellFormed
      case RetryTask =>
        if body.confirmation != RETRY_TASK then IllFormed(400, InvalidWorkflowMutation) else WellFormed
      case PublishPlan =>
        if body.confirmation != PUBLISH_QUOTA_PLAN then IllFormed(400, InvalidQuotaPlan) else WellFormed
  }

  function BrokenCode(route: Route): Code
    requires IsMutation(route)
  {
    match route
    case UpdateEntity => InvalidEntity
    case PlanDeletion | DeleteEntity => InvalidMutation
    case CreateUser => InvalidUser
    case SetUserStatus => InvalidStatus
    case CreateRole | UpdateRole => InvalidRole
    case ChangeUserRole => InvalidAssignment
    case CancelRun | RetryTask => InvalidWorkflowMutation
    case PublishPlan => InvalidQuotaPlan
  }

  /** What a well-formed mutation with an unused key asks of the state. */
  function Judge(s: State, request: Request, body: Body): Decision
    requires IsMutation(request.route)
  {
    var target, clock := request.target, request.clock;
    match request.route
    case UpdateEntity => JudgeUpdateEntity(s, IdOf(target), body)
    case PlanDeletion => JudgePlanDeletion(s, IdOf(target), body)
    case DeleteEntity => JudgeDeleteEntity(s, IdOf(target), body, clock)
    case CreateUser => JudgeCreateUser(s, body)
    case SetUserStatus => JudgeSetUserStatus(s, IdOf(target), body)
    case CreateRole => JudgeCreateRole(s, body)
    case UpdateRole => JudgeUpdateRole(s, IdOf(target), body)
    case ChangeUserRole => JudgeChangeUserRole(s, request.put, UserIdOf(target), RoleKeyOf(target), body)
    case CancelRun => JudgeCancelRun(s, body, clock)
    case RetryTask => JudgeRetryTask(s, body, clock)
    case PublishPlan => JudgePublishPlan(s, body)
  }

  /** The identifiers a handler took from the path. */
  function IdOf(target: Target): string {
    if target.One? then target.id else ""
  }

  function UserIdOf(target: Target): string {
    if target.Two? then target.user else ""
  }

  function RoleKeyOf(target: Target): string {
    if target.Two? then target.role else ""
  }

  function JudgeUpdateEntity(s: State, code: string, body: Body): Decision {
    var present := code in s.entities;
    var current := if present then s.entities[code].version else 0;
    if current != body.expectedVersion then Refuse(409, VersionConflict)
    else Accept(StoreEntity(code, body.entity.(version := current + 1), present))
  }

  function JudgePlanDeletion(s: State, code: string, body: Body): Decision {
    if code !in s.entities then Refuse(404, EntityNotFound)
    else if s.entities[code].version != body.expectedVersion then Refuse(409, VersionConflict)
    else Accept(ReviewDeletion(code, body.expectedVersion))
  }

  function JudgeDeleteEntity(s: State, code: string, body: Body, clock: Clock): Decision {
    if code !in s.entities then Refuse(404, EntityNotFound)
    else if s.entities[code].version != body.expectedVersion then Refuse(409, VersionConflict)
    else Accept(RemoveEntity(code, body.expectedVersion, clock.changedAt))
  }

  function JudgeCreateUser(s: State, body: Body): Decision {
    if body.id in s.users then Refuse(409, UserExists)
    else Accept(AddUser(User(body.id, body.displayName, body.email, ACTIVE, [], 1)))
  }

  function JudgeSetUserStatus(s: State, id: string, body: Body): Decision {
    if id !in s.users || s.users[id].version != body.expectedVersion then Refuse(409, VersionConflict)
    else Accept(SetStatus(id, s.users[id].(status := body.status, version := s.users[id].version + 1)))
  }

  function JudgeCreateRole(s: State, body: Body): Decision {
    if body.key in s.roles then Refuse(409, RoleExists)
    else Accept(AddRole(Role(body.key, body.displayName, false, 1)))
  }

  function JudgeUpdateRole(s: State, key: string, body: Body): Decision {
    if key !in s.roles || s.roles[key].version != body.expectedVersion then Refuse(409, VersionConflict)
    else if s.roles[key].system then Refuse(400, SystemRole)
    else
      Accept(RenameRole(key, s.roles[key].(displayName := body.displayName,
                                           version := s.roles[key].version + 1)))
  }

  /** A user after a role was assigned or revoked. */
  function Rewritten(user: User, key: string, assign: bool): User {
    user.(roles := Changed(user.roles, key, assign), version := user.version + 1)
  }

  function JudgeChangeUserRole(s: State, assign: bool, id: string, key: string, body: Body): Decision {
    if id !in s.users || key !in s.roles || s.users[id].version != body.expectedVersion
    then Refuse(409, VersionConflict)
    else
      var user := Rewritten(s.users[id], key, assign);
      Accept(if assign then AssignRole(id, user, key) else RevokeRole(id, user, key))
  }

  function JudgeCancelRun(s: State, body: Body, clock: Clock): Decision {
    if s.run.version != body.expectedVersion then Refuse(409, VersionConflict)
    else Accept(Cancel(s.run.(state := "cancelled", version := s.run.version + 1,
                              updatedAt := clock.changedAt, leaseState := "none", leaseExpiresAt := "")))
  }

  function JudgeRetryTask(s: State, body: Body, clock: Clock): Decision {
    if s.task.version != body.expectedVersion then Refuse(409, VersionConflict)
    else Accept(Retry(s.run.(state := "running", version := s.run.version + 1, updatedAt := clock.changedAt),
                      s.task.(state := "running", attempt := s.task.attempt + 1,
                              version := s.task.version + 1)))
  }

  function JudgePublishPlan(s: State, body: Body): Decision {
    if s.plan.version != body.expectedVersion then Refuse(409, VersionConflict)
    else Accept(Publish(body.plan.(version := s.plan.version + 1)))
  }

  // ---------------------------------------------------------------- committing

  function ValueOf(change: Change): Value {
    match change
    case StoreEntity(_, entity, _) => EntityValue(entity)
    case ReviewDeletion(code, version) =>
      PlanValue(DeletionPlan(code, version, true, [],
                             IMPACT_SUMMARY))
    case RemoveEntity(code, version, at) => ReceiptValue(Receipt(code, version, at))
    case AddUser(user) => UserValue(user)
    case SetStatus(_, user) => UserValue(user)
    case AddRole(role) => RoleValue(role)
    case RenameRole(_, role) => RoleValue(role)
    case AssignRole(_, user, _) => UserValue(user)
    case RevokeRole(_, user, _) => UserValue(user)
    case Cancel(run) => RunValue(run)
    case Retry(run, _) => RunValue(run)
    case Publish(plan) => QuotaValue(plan)
  }

  function Apply(s: State, change: Change): State {
    match change
    case StoreEntity(code, entity, _) => s.(entities := s.entities[code := entity])
    case ReviewDeletion(_, _) => s
    case RemoveEntity(code, _, _) => s.(entities := s.entities - {code})
    case AddUser(user) => s.(users := s.users[user.id := user])
    case SetStatus(id, user) => s.(users := s.users[id := user])
    case AddRole(role) => s.(roles := s.roles[role.key := role])
    case RenameRole(key, role) => s.(roles := s.roles[key := role])
    case AssignRole(id, user, _) => s.(users := s.users[id := user])
    case RevokeRole(id, user, _) => s.(users := s.users[id := user])
    case Cancel(run) => s.(run := run)
    case Retry(run, task) => s.(run := run, task := task)
    case Publish(plan) => s.(plan := plan)
  }

  datatype Entry = Entry(action: Action, target: string, details: Details)

  /** The audit entry of a change; a deletion preview writes none. */
  function EntryOf(change: Change): Option<Entry> {
    match change
    case StoreEntity(code, entity, existed) =>
      Some(Entry(if existed then EntityUpdated else EntityCreated,
             code, VersionDetails(entity.version)))
    case ReviewDeletion(_, _) => None
    case RemoveEntity(code, version, _) =>
      Some(Entry(EntityDeleted, code, DeletedDetails(version)))
    case AddUser(user) => Some(Entry(UserCreated, user.id, VersionDetails(user.version)))
    case SetStatus(id, user) =>
      Some(Entry(UserStatusSet, id, StatusDetails(user.status, user.version)))
    case AddRole(role) => Some(Entry(RoleCreated, role.key, VersionDetails(role.version)))
    case RenameRole(key, role) => Some(Entry(RoleUpdated, key, VersionDetails(role.version)))
    case AssignRole(id, user, key) =>
      Some(Entry(RoleAssigned, id, RoleDetails(key, user.version)))
    case RevokeRole(id, user, key) =>
      Some(Entry(RoleRevoked, id, RoleDetails(key, user.version)))
    case Cancel(run) => Some(Entry(RunCancelled, run.id, VersionDetails(run.version)))
    case Retry(_, task) => Some(Entry(TaskRetried, task.id, VersionDetails(task.version)))
    case Publish(plan) => Some(Entry(PlanPublished, plan.code, VersionDetails(plan.version)))
  }

  function AuditOf(entry: Entry, clock: Clock): Audit {
    Audit("audit-local-" + clock.auditStamp, entry.action, "metadata_entity", entry.target,
          clock.auditedAt, entry.details)
  }

  function Commit(s: State, key: string, change: Change, clock: Clock): State {
    var changed := Apply(s, change);
    changed.(idempotency := s.idempotency[key := Cached(200, ValueOf(change))],
             audits := match EntryOf(change)
                       case None => s.audits
                       case Some(entry) => s.audits + [AuditOf(entry, clock)])
  }

  // ---------------------------------------------------------------- serving

  function Decide(s: State, request: Request): Decision
    requires IsMutation(request.route)
  {
    match CheckForm(request)
    case IllFormed(status, code) => Refuse(status, code)
    case WellFormed =>
      var body := request.content.body;
      if body.idempotencyKey in s.idempotency then Replay(s.idempotency[body.idempotencyKey])
      else Judge(s, request, body)
  }

  /** The values of a map in the order of their keys. */
  ghost function Listing<T>(items: map<string, T>): (listed: seq<T>)
    ensures |listed| == |InOrder(items.Keys)|
    ensures forall i | 0 <= i < |listed| ::
              InOrder(items.Keys)[i] in items && listed[i] == items[InOrder(items.Keys)[i]]
  {
    var keys := InOrder(items.Keys);
    assert forall i | 0 <= i < |keys| :: keys[i] in Elements(keys);
    seq(|keys|, i requires 0 <= i < |keys| => items[keys[i]])
  }

  ghost function ReadReply(s: State, request: Request): Reply
    requires !IsMutation(request.route)
  {
    match request.route
    case ListEntities => Reply(200, EntityItems(Listing(s.entities)))
    case ListUsers => Reply(200, UserItems(Listing(s.users)))
    case ListRoles => Reply(200, RoleItems(Listing(s.roles)))
    case ListRuns => Reply(200, RunItem(s.run))
    case ListTasks => Reply(200, TaskItem(s.task))
    case ListPlans => Reply(200, QuotaItem(s.plan))
    case ListUsage => Reply(200, Sample("usage"))
    case ListDiscrepancies => Reply(200, Sample("discrepancies"))
    case ListAudit => Reply(200, AuditItems(s.audits))
    case MigrationPreview => Reply(200, Preview(request.apply))
    case NotFound => Reply(404, Problem(NotFoundCode))
  }

  /** Carries out a decision. */
  function Settle(s: State, decision: Decision, key: string, clock: Clock): (State, Reply) {
    match decision
    case Refuse(status, code) => (s, Reply(status, Problem(code)))
    case Replay(cached) => (s, Reply(cached.status, Stored(cached.value)))
    case Accept(change) => (Commit(s, key, change, clock), Reply(200, Stored(ValueOf(change))))
  }

  /** The sequential machine: the state after one request, and the reply to it. */
  ghost function Serve(s: State, request: Request): (State, Reply) {
    if !IsMutation(request.route) then (s, ReadReply(s, request))
    else
      Settle(s, Decide(s, request),
             if request.content.Decoded? then request.content.body.idempotencyKey else "", request.clock)
  }

  /** The request is accepted in this state: it takes effect for the first time. */
  predicate Fresh(s: State, request: Request) {
    IsMutation(request.route) && Decide(s, request).Accept?
  }

  function ChangeMade(s: State, request: Request): Change
    requires Fresh(s, request)
  {
    Decide(s, request).change
  }

  // ---------------------------------------------------------------- statuses

  /** Only successful results are recorded. */
  ghost predicate RecordsSucceed(s: State) {
    forall key | key in s.idempotency :: s.idempotency[key].status == 200
  }

  lemma RefusalStatus(s: State, request: Request)
    requires IsMutation(request.route) && Decide(s, request).Refuse?
    ensures Decide(s, request).status in {400, 404, 409}
  {
    match request.route
    case UpdateEntity =>
    case PlanDeletion =>
    case DeleteEntity =>
    case CreateUser =>
    case SetUserStatus =>
    case CreateRole =>
    case UpdateRole =>
    case ChangeUserRole =>
    case CancelRun =>
    case RetryTask =>
    case PublishPlan =>
  }

  /** No handler answers with a server error, so a served request is always saved. */
  lemma ServeStatus(s: State, request: Request)
    requires RecordsSucceed(s)
    ensures Serve(s, request).1.status in {200, 400, 404, 409}
    ensures RecordsSucceed(Serve(s, request).0)
  {
    if IsMutation(request.route) && Decide(s, request).Refuse? {
      RefusalStatus(s, request);
    }
  }
}
