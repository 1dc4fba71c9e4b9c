/** What each client call does to the provider and is answered with, in the call's own identifiers: the
    path and the switch, the handler's tests and the commit taken together. */
module Effects {
  import opened Text
  import opened Sorting
  import opened Routing
  import opened Escaping
  import opened Utf8
  import opened ProviderModel
  import opened ClientPaths
  import opened RoundTrip
  import opened RoleList
  import opened Validators
  import opened Acceptance

  // ---------------------------------------------------------------- ways to end

  /** Nothing happens but a refusal. */
  ghost predicate Refused(s: State, t: State, reply: Reply, status: int, code: Code) {
    t == s && reply == Reply(status, Problem(code))
  }

  /** The answer is the value, and the key's record holds it. */
  ghost predicate Recorded(s: State, t: State, reply: Reply, key: string, value: Value) {
    t.idempotency == s.idempotency[key := Cached(200, value)] && reply == Reply(200, Stored(value))
  }

  /** The log has one more entry, about this target. */
  ghost predicate Logged(s: State, t: State, clock: Clock, action: Action, target: string, details: Details) {
    t.audits == s.audits + [Audit("audit-local-" + clock.auditStamp, action, "metadata_entity", target,
                                  clock.auditedAt, details)]
  }

  /** The user's list is in strict order and has just this role more or less. */
  ghost predicate RoleMoved(before: seq<string>, after: seq<string>, role: string, assign: bool) {
    StrictlySorted(after) && Elements(after) == if assign then Elements(before) + {role} else Elements(before) - {role}
  }

  // ---------------------------------------------------------------- what each call asks for

  /** The entity is at the version of the call, where 0 stands for an entity that is not there. */
  predicate EntityAt(s: State, code: string, version: int) {
    if code in s.entities then s.entities[code].version == version else version == 0
  }

  ghost predicate Stores(s: State, code: string, sent: Entity, version: int, key: string, clock: Clock, t: State,
                         reply: Reply)
  {
    if sent.code != code then Refused(s, t, reply, 400, EntityCodeMismatch)
    else if !EntityAt(s, code, version) then Refused(s, t, reply, 409, VersionConflict)
    else
      var stored := sent.(version := version + 1);
      && t == s.(entities := s.entities[code := stored], idempotency := t.idempotency, audits := t.audits)
      && Recorded(s, t, reply, key, EntityValue(stored))
      && Logged(s, t, clock, if code in s.entities then EntityUpdated else EntityCreated, code,
                VersionDetails(version + 1))
  }

  ghost predicate Previews(s: State, code: string, version: int, key: string, t: State, reply: Reply) {
    if code !in s.entities then Refused(s, t, reply, 404, EntityNotFound)
    else if s.entities[code].version != version then Refused(s, t, reply, 409, VersionConflict)
    else
      && t == s.(idempotency := t.idempotency)
      && Recorded(s, t, reply, key, PlanValue(DeletionPlan(code, version, true, [], IMPACT_SUMMARY)))
  }

  ghost predicate Removes(s: State, code: string, version: int, key: string, clock: Clock, t: State, reply: Reply) {
    if code !in s.entities then Refused(s, t, reply, 404, EntityNotFound)
    else if s.entities[code].version != version then Refused(s, t, reply, 409, VersionConflict)
    else
      && t == s.(entities := s.entities - {code}, idempotency := t.idempotency, audits := t.audits)
      && Recorded(s, t, reply, key, ReceiptValue(Receipt(code, version, clock.changedAt)))
      && Logged(s, t, clock, EntityDeleted, code, DeletedDetails(version))
  }

  ghost predicate AddsUser(s: State, id: string, displayName: string, email: string, key: string, clock: Clock,
                           t: State, reply: Reply)
  {
    if id in s.users then Refused(s, t, reply, 409, UserExists)
    else
      var user := User(id, displayName, email, "active", [], 1);
      && t == s.(users := s.users[id := user], idempotency := t.idempotency, audits := t.audits)
      && Recorded(s, t, reply, key, UserValue(user))
      && Logged(s, t, clock, UserCreated, id, VersionDetails(1))
  }

  ghost predicate SetsStatus(s: State, id: string, status: string, version: int, key: string, clock: Clock, t: State,
                             reply: Reply)
  {
    if id !in s.users || s.users[id].version != version then Refused(s, t, reply, 409, VersionConflict)
    else
      var user := s.users[id].(status := status, version := version + 1);
      && t == s.(users := s.users[id := user], idempotency := t.idempotency, audits := t.audits)
      && Recorded(s, t, reply, key, UserValue(user))
      && Logged(s, t, clock, UserStatusSet, id, StatusDetails(status, version + 1))
  }

  ghost predicate AddsRole(s: State, role: string, displayName: string, key: string, clock: Clock, t: State,
                           reply: Reply)
  {
    if role in s.roles then Refused(s, t, reply, 409, RoleExists)
    else
      && t == s.(roles := s.roles[role := Role(role, displayName, false, 1)], idempotency := t.idempotency,
                 audits := t.audits)
      && Recorded(s, t, reply, key, RoleValue(Role(role, displayName, false, 1)))
      && Logged(s, t, clock, RoleCreated, role, VersionDetails(1))
  }

  ghost predicate Renames(s: State, role: string, displayName: string, version: int, key: string, clock: Clock,
                          t: State, reply: Reply)
  {
    if role !in s.roles || s.roles[role].version != version then Refused(s, t, reply, 409, VersionConflict)
    else if s.roles[role].system then Refused(s, t, reply, 400, SystemRole)
    else
      var renamed := s.roles[role].(displayName := displayName, version := version + 1);
      && t == s.(roles := s.roles[role := renamed], idempotency := t.idempotency, audits := t.audits)
      && Recorded(s, t, reply, key, RoleValue(renamed))
      && Logged(s, t, clock, RoleUpdated, role, VersionDetails(version + 1))
  }

  ghost predicate MovesRole(s: State, id: string, role: string, version: int, key: string, assign: bool, clock: Clock,
                            t: State, reply: Reply)
  {
    if id !in s.users || role !in s.roles || s.users[id].version != version
    then Refused(s, t, reply, 409, VersionConflict)
    else
      && id in t.users
      && var user := t.users[id];
      && user == s.users[id].(roles := user.roles, version := version + 1)
      && RoleMoved(s.users[id].roles, user.roles, role, assign)
      && t == s.(users := s.users[id := user], idempotency := t.idempotency, audits := t.audits)
      && Recorded(s, t, reply, key, UserValue(user))
      && Logged(s, t, clock, if assign then RoleAssigned else RoleRevoked, id, RoleDetails(role, version + 1))
  }

  ghost predicate CancelsRun(s: State, version: int, key: string, clock: Clock, t: State, reply: Reply) {
    if s.run.version != version then Refused(s, t, reply, 409, VersionConflict)
    else
      var run := s.run.(state := "cancelled", version := version + 1, updatedAt := clock.changedAt,
                        leaseState := "none", leaseExpiresAt := "");
      && t == s.(run := run, idempotency := t.idempotency, audits := t.audits)
      && Recorded(s, t, reply, key, RunValue(run))
      && Logged(s, t, clock, RunCancelled, s.run.id, VersionDetails(version + 1))
  }

  /** The task runs again at its next attempt, and so does its run, at the run's own next version. */
  ghost predicate RetriesTask(s: State, version: int, key: string, clock: Clock, t: State, reply: Reply) {
    if s.task.version != version then Refused(s, t, reply, 409, VersionConflict)
    else
      var run := s.run.(state := "running", version := s.run.version + 1, updatedAt := clock.changedAt);
      var task := s.task.(state := "running", attempt := s.task.attempt + 1, version := version + 1);
      && t == s.(run := run, task := task, idempotency := t.idempotency, audits := t.audits)
      && Recorded(s, t, reply, key, RunValue(run))
      && Logged(s, t, clock, TaskRetried, s.task.id, VersionDetails(version + 1))
  }

  ghost predicate PublishesPlan(s: State, sent: QuotaPlan, version: int, key: string, clock: Clock, t: State,
                                reply: Reply)
  {
    if s.plan.version != version then Refused(s, t, reply, 409, VersionConflict)
    else
      var plan := sent.(version := version + 1);
      && t == s.(plan := plan, idempotency := t.idempotency, audits := t.audits)
      && Recorded(s, t, reply, key, QuotaValue(plan))
      && Logged(s, t, clock, PlanPublished, sent.code, VersionDetails(version + 1))
  }

  /** What a call about these resources comes to. Identifiers from the path are the call's own, texts
      from the body are as JSON leaves them. */
  ghost predicate Does(lib: Library, s: State, call: Call, clock: Clock, t: State, reply: Reply) {
    match call
    case PutEntity(entity, version, key) =>
      Stores(s, entity.code, CoercedEntity(entity), version, key, clock, t, reply)
    case PlanEntityDeletion(code, version, key) => Previews(s, code, version, key, t, reply)
    case RemoveNow(code, version, key) => Removes(s, code, version, key, clock, t, reply)
    case NewUser(id, displayName, email, key) =>
      AddsUser(s, Coerced(id), Coerced(displayName), Coerced(email), key, clock, t, reply)
    case UserStatus(id, status, version, key) => SetsStatus(s, id, status, version, key, clock, t, reply)
    case NewRole(role, displayName, key) => AddsRole(s, Coerced(role), Coerced(displayName), key, clock, t, reply)
    case EditRole(role, displayName, version, key) =>
      Renames(s, role, Coerced(displayName), version, key, clock, t, reply)
    case UserRole(id, role, version, key, assign) =>
      MovesRole(s, id, role, version, key, assign, clock, t, reply)
    case CancelWorkflowRun(_, version, key) => CancelsRun(s, version, key, clock, t, reply)
    case RetryWorkflowTask(_, version, key) => RetriesTask(s, version, key, clock, t, reply)
    case PublishQuotaPlan(plan, version, key) =>
      PublishesPlan(s, CoercedPlan(lib, plan), version, key, clock, t, reply)
    case ListWorkflowTasks(_) => t == s && reply == Reply(200, TaskItem(s.task))
  }

  // ---------------------------------------------------------------- calls and requests

  /** A call that the client sends and that reaches its handler, with a new key. */
  predicate Reaches(lib: Library, s: State, call: Call) {
    && Accepts(lib, call) && SafeIds(call) && Routable(call)
    && (call.ListWorkflowTasks? || call.key !in s.idempotency)
  }

  /** Its request, as it arrives. */
  ghost predicate Carries(lib: Library, call: Call, clock: Clock, request: Request)
    requires !call.ListWorkflowTasks?
  {
    && Delivery(request.route, request.target) == Intended(call)
    && request.content == Decoded(BodySeen(lib, call)) && request.put == (VerbOf(call) == PUT)
    && request.clock == clock && BodySeen(lib, call).idempotencyKey == call.key != ""
    && (call.UserStatus? ==> BodySeen(lib, call).status == call.status)
  }

  lemma Carried(lib: Library, s: State, call: Call, clock: Clock)
    requires Reaches(lib, s, call) && !call.ListWorkflowTasks?
    ensures Sendable(lib, call) && Carries(lib, call, clock, RequestOf(lib, call, clock))
  {
    Arrives(lib, call, clock);
    KeyArrives(lib, call);
  }

  // ---------------------------------------------------------------- one handler at a time

  predicate HasBody(s: State, request: Request, key: string) {
    request.content.Decoded? && request.content.body.idempotencyKey == key != "" && key !in s.idempotency
  }

  lemma PutServes(s: State, code: string, sent: Entity, version: int, key: string, request: Request)
    requires HasBody(s, request, key) && request.route == UpdateEntity && request.target == One(code) && '/' !in code
    requires sent.code != "" && sent.name != ""
    requires request.content.body.entity == sent && request.content.body.expectedVersion == version
    ensures Stores(s, code, sent, version, key, request.clock, Serve(s, request).0, Serve(s, request).1)
  {
    if sent.code == code {
      assert Decide(s, request) == JudgeUpdateEntity(s, code, request.content.body);
    }
  }

  lemma PreviewServes(s: State, code: string, version: int, key: string, request: Request)
    requires HasBody(s, request, key) && request.route == PlanDeletion && request.target == One(code)
    requires request.content.body.expectedVersion == version >= 0
    ensures Previews(s, code, version, key, Serve(s, request).0, Serve(s, request).1)
  {
    assert Decide(s, request) == JudgePlanDeletion(s, code, request.content.body);
  }

  lemma RemovalServes(s: State, code: string, version: int, key: string, request: Request)
    requires HasBody(s, request, key) && request.route == DeleteEntity && request.target == One(code)
    requires request.content.body.expectedVersion == version >= 0
    requires request.content.body.confirmation == DELETE_ENTITY
    ensures Removes(s, code, version, key, request.clock, Serve(s, request).0, Serve(s, request).1)
  {
    assert Decide(s, request) == JudgeDeleteEntity(s, code, request.content.body, request.clock);
  }

  lemma NewUserServes(s: State, id: string, displayName: string, email: string, key: string, request: Request)
    requires HasBody(s, request, key) && request.route == CreateUser && id != "" && displayName != ""
    requires var body := request.content.body; body.id == id && body.displayName == displayName && body.email == email
    ensures AddsUser(s, id, displayName, email, key, request.clock, Serve(s, request).0, Serve(s, request).1)
  {
    assert Decide(s, request) == JudgeCreateUser(s, request.content.body);
  }

  lemma StatusServes(s: State, id: string, status: string, version: int, key: string, request: Request)
    requires HasBody(s, request, key) && request.route == SetUserStatus && request.target == One(id)
    requires status == ACTIVE || status == DISABLED
    requires var body := request.content.body;
             body.confirmation == DISABLE_USER && body.status == status && body.expectedVersion == version
    ensures SetsStatus(s, id, status, version, key, request.clock, Serve(s, request).0, Serve(s, request).1)
  {
    assert Decide(s, request) == JudgeSetUserStatus(s, id, request.content.body);
  }

  lemma NewRoleServes(s: State, role: string, displayName: string, key: string, request: Request)
    requires HasBody(s, request, key) && request.route == CreateRole && role != "" && displayName != ""
    requires request.content.body.key == role && request.content.body.displayName == displayName
    ensures AddsRole(s, role, displayName, key, request.clock, Serve(s, request).0, Serve(s, request).1)
  {
    assert Decide(s, request) == JudgeCreateRole(s, request.content.body);
  }

  lemma RenamingServes(s: State, role: string, displayName: string, version: int, key: string, request: Request)
    requires HasBody(s, request, key) && request.route == UpdateRole && request.target == One(role)
    requires displayName != "" && request.content.body.displayName == displayName
    requires request.content.body.expectedVersion == version
    ensures Renames(s, role, displayName, version, key, request.clock, Serve(s, request).0, Serve(s, request).1)
  {
    assert Decide(s, request) == JudgeUpdateRole(s, role, request.content.body);
  }

  lemma AssignmentServes(s: State, id: string, role: string, version: int, key: string, assign: bool, request: Request)
    requires HasBody(s, request, key) && request.route == ChangeUserRole && request.target == Two(id, role)
    requires request.content.body.expectedVersion == version && request.put == assign
    ensures MovesRole(s, id, role, version, key, assign, request.clock, Serve(s, request).0, Serve(s, request).1)
  {
    assert Decide(s, request) == JudgeChangeUserRole(s, assign, id, role, request.content.body);
    if id in s.users {
      ChangeMovesRole(s.users[id].roles, role, assign);
    }
  }

  lemma ChangeMovesRole(roles: seq<string>, role: string, assign: bool)
    ensures RoleMoved(roles, Changed(roles, role, assign), role, assign)
  {
    ChangeIsSetChange(roles, role);
  }

  lemma CancelServes(s: State, version: int, key: string, request: Request)
    requires HasBody(s, request, key) && request.route == CancelRun
    requires request.content.body.confirmation == CANCEL_RUN && request.content.body.expectedVersion == version
    ensures CancelsRun(s, version, key, request.clock, Serve(s, request).0, Serve(s, request).1)
  {
    assert Decide(s, request) == JudgeCancelRun(s, request.content.body, request.clock);
  }

  lemma RetryServes(s: State, version: int, key: string, request: Request)
    requires HasBody(s, request, key) && request.route == RetryTask
    requires request.content.body.confirmation == RETRY_TASK && request.content.body.expectedVersion == version
    ensures RetriesTask(s, version, key, request.clock, Serve(s, request).0, Serve(s, request).1)
  {
    assert Decide(s, request) == JudgeRetryTask(s, request.content.body, request.clock);
  }

  lemma PublicationServes(s: State, sent: QuotaPlan, version: int, key: string, request: Request)
    requires HasBody(s, request, key) && request.route == PublishPlan && request.content.body.plan == sent
    requires request.content.body.confirmation == PUBLISH_QUOTA_PLAN && request.content.body.expectedVersion == version
    ensures PublishesPlan(s, sent, version, key, request.clock, Serve(s, request).0, Serve(s, request).1)
  {
    assert Decide(s, request) == JudgePublishPlan(s, request.content.body);
  }

  // ---------------------------------------------------------------- every call

  lemma TasksCallDoes(lib: Library, s: State, call: Call, clock: Clock)
    requires Reaches(lib, s, call) && call.ListWorkflowTasks?
    ensures Sendable(lib, call)
    ensures var request := RequestOf(lib, call, clock);
            Does(lib, s, call, clock, Serve(s, request).0, Serve(s, request).1)
  {
    RoundTripExactly(call);
  }

  /** Every call that reaches its handler with a new key does to the state, and is answered with, what
      the call asks for: the resources that it names and no other change, exactly when they are at its
      version; otherwise nothing changes and the answer says which it was, missing or moved on. */
  lemma CallDoes(lib: Library, s: State, call: Call, clock: Clock)
    requires Reaches(lib, s, call)
    ensures Sendable(lib, call)
    ensures var request := RequestOf(lib, call, clock);
            Does(lib, s, call, clock, Serve(s, request).0, Serve(s, request).1)
  {
    if call.ListWorkflowTasks? {
      TasksCallDoes(lib, s, call, clock);
    } else {
      Carried(lib, s, call, clock);
      RequestDoes(lib, s, call, RequestOf(lib, call, clock));
    }
  }

  lemma RequestDoes(lib: Library, s: State, call: Call, request: Request)
    requires Accepts(lib, call) && SafeIds(call) && !call.ListWorkflowTasks? && call.key !in s.idempotency
    requires Carries(lib, call, request.clock, request)
    ensures Does(lib, s, call, request.clock, Serve(s, request).0, Serve(s, request).1)
  {
    SentTexts(lib, call);
    match call
    case PutEntity(entity, version, key) => PutServes(s, entity.code, CoercedEntity(entity), version, key, request);
    case PlanEntityDeletion(code, version, key) => PreviewServes(s, code, version, key, request);
    case RemoveNow(code, version, key) => RemovalServes(s, code, version, key, request);
    case NewUser(id, displayName, email, key) =>
      NewUserServes(s, Coerced(id), Coerced(displayName), Coerced(email), key, request);
    case UserStatus(id, status, version, key) => StatusServes(s, id, status, version, key, request);
    case NewRole(role, displayName, key) => NewRoleServes(s, Coerced(role), Coerced(displayName), key, request);
    case EditRole(role, displayName, version, key) =>
      RenamingServes(s, role, Coerced(displayName), version, key, request);
    case UserRole(id, role, version, key, assign) =>
      AssignmentServes(s, id, role, version, key, assign, request);
    case CancelWorkflowRun(_, version, key) => CancelServes(s, version, key, request);
    case RetryWorkflowTask(_, version, key) => RetryServes(s, version, key, request);
    case PublishQuotaPlan(plan, version, key) => PublicationServes(s, CoercedPlan(lib, plan), version, key, request);
  }

  /** Texts that the client asks for are still there when they arrive. */
  lemma SentTexts(lib: Library, call: Call)
    requires Accepts(lib, call)
    ensures match call
            case PutEntity(entity, _, _) =>
              '/' !in entity.code && CoercedEntity(entity).code != "" && CoercedEntity(entity).name != ""
            case NewUser(id, displayName, _, _) => Coerced(id) != "" && Coerced(displayName) != ""
            case NewRole(role, displayName, _) => Coerced(role) != "" && Coerced(displayName) != ""
            case EditRole(_, displayName, _, _) => Coerced(displayName) != ""
            case _ => true
  {
    match call
    case PutEntity(entity, _, _) =>
      CoercedLength(entity.code);
      CoercedLength(entity.name);
    case NewUser(id, displayName, _, _) =>
      CoercedLength(id);
      CoercedLength(displayName);
    case NewRole(role, displayName, _) =>
      CoercedLength(role);
      CoercedLength(displayName);
    case EditRole(_, displayName, _, _) => CoercedLength(displayName);
    case _ =>
  }

  // ---------------------------------------------------------------- refused before the state is read

  /** What a handler refuses whatever the state is: a body that is none or has no key, a missing or a
      wrong confirmation, a missing text, a negative version or a path that does not fit. */
  predicate Deficient(request: Request)
    requires IsMutation(request.route)
  {
    request.content.Malformed? || request.content.body.idempotencyKey == ""
    || var body := request.content.body;
    match request.route
    case UpdateEntity =>
      body.entity.code == "" || body.entity.name == "" || request.target != One(body.entity.code)
      || '/' in body.entity.code
    case PlanDeletion => body.expectedVersion < 0
    case DeleteEntity => body.expectedVersion < 0 || body.confirmation != "DELETE_ENTITY"
    case CreateUser => body.id == "" || body.displayName == ""
    case SetUserStatus =>
      body.confirmation != "DISABLE_USER" || body.status !in {"active", "disabled"} || request.target.BadPath?
    case CreateRole => body.key == "" || body.displayName == ""
    case UpdateRole => body.displayName == ""
    case ChangeUserRole => request.target.BadPath?
    case CancelRun => body.confirmation != "CANCEL_RUN"
    case RetryTask => body.confirmation != "RETRY_TASK"
    case PublishPlan => body.confirmation != "PUBLISH_QUOTA_PLAN"
  }

  /** Exactly these requests are refused with status 400, except for the renaming of a system role, and
      they change nothing. */
  lemma RefusedExactly(s: State, request: Request)
    requires IsMutation(request.route) && (request.route == UpdateEntity ==> request.target.One?)
    ensures var (t, reply) := Serve(s, request);
            && (Deficient(request) <==>
                  reply.status == 400 && reply.payload.Problem? && reply.payload != Problem(SystemRole))
            && (Deficient(request) ==> t == s)
  {
  }

  // ---------------------------------------------------------------- reading

  /** The values of a map in the order of their keys. */
  ghost predicate InKeyOrder<T>(items: map<string, T>, listed: seq<T>) {
    exists keys: seq<string> ::
      && StrictlySorted(keys) && Elements(keys) == items.Keys && |keys| == |listed|
      && forall i | 0 <= i < |keys| :: keys[i] in items && items[keys[i]] == listed[i]
  }

  lemma ListingIsInKeyOrder<T>(items: map<string, T>)
    ensures InKeyOrder(items, Listing(items))
  {
    var keys := InOrder(items.Keys);
    assert forall i | 0 <= i < |keys| :: keys[i] in items && items[keys[i]] == Listing(items)[i];
  }

  /** A request of this method for this path, served. */
  ghost function Answer(s: State, verb: Verb, path: string, content: Decoded, clock: Clock): (State, Reply) {
    Serve(s, Arrive(Wire(verb, path, content, clock)))
  }

  lemma MetadataPaths()
    ensures ENTITIES == "/studio/v1/metadata/entities" && AUDIT == "/studio/v1/audit"
  {
  }

  lemma IdentityPaths()
    ensures USERS == "/studio/v1/identity/users" && ROLES == "/studio/v1/identity/roles"
  {
  }

  lemma OperationPaths()
    ensures RUNS == "/studio/v1/workflows/runs" && PLANS == "/studio/v1/quota/plans"
  {
  }

  /** Lists by their path lengths and by what tells those of equal length apart. */
  lemma ListRoutes()
    ensures DispatchGet(ENTITIES) == ListEntities && DispatchGet(USERS) == ListUsers
    ensures DispatchGet(ROLES) == ListRoles && DispatchGet(RUNS) == ListRuns
    ensures DispatchGet(PLANS) == ListPlans && DispatchGet(AUDIT) == ListAudit
  {
    assert |ENTITIES| == 28 && |USERS| == 25 && |ROLES| == 25 && |RUNS| == 25 && |PLANS| == 22 && |AUDIT| == 16;
    assert ROLES[20] == 'r' && USERS[20] == 'u' && USERS[11] == 'i' && ROLES[11] == 'i' && RUNS[11] == 'w';
    assert |RUN_PREFIX| == 26 && |USAGE| == 22 && USAGE[17] == 'u' && PLANS[17] == 'p' && |DISCREPANCIES| == 30;
  }

  lemma ReadAnswers(s: State, path: string, content: Decoded, clock: Clock, route: Route)
    requires DispatchGet(path) == route && !IsMutation(route)
    ensures var (t, reply) := Answer(s, GET, path, content, clock);
            && t == s
            && (route == ListEntities ==>
                  reply.status == 200 && reply.payload.EntityItems? && InKeyOrder(s.entities, reply.payload.entities))
            && (route == ListUsers ==>
                  reply.status == 200 && reply.payload.UserItems? && InKeyOrder(s.users, reply.payload.users))
            && (route == ListRoles ==>
                  reply.status == 200 && reply.payload.RoleItems? && InKeyOrder(s.roles, reply.payload.roles))
            && (route == ListRuns ==> reply == Reply(200, RunItem(s.run)))
            && (route == ListPlans ==> reply == Reply(200, QuotaItem(s.plan)))
            && (route == ListAudit ==> reply == Reply(200, AuditItems(s.audits)))
  {
    ListingIsInKeyOrder(s.entities);
    ListingIsInKeyOrder(s.users);
    ListingIsInKeyOrder(s.roles);
  }

  /** The list of entities answers with what is stored, in the order of the codes, and changes nothing. */
  lemma EntitiesAnswer(s: State, content: Decoded, clock: Clock)
    ensures var (t, reply) := Answer(s, GET, "/studio/v1/metadata/entities", content, clock);
            && t == s && reply.status == 200 && reply.payload.EntityItems?
            && InKeyOrder(s.entities, reply.payload.entities)
  {
    MetadataPaths();
    ListRoutes();
    ReadAnswers(s, ENTITIES, content, clock, ListEntities);
  }

  /** So does the list of users. */
  lemma UsersAnswer(s: State, content: Decoded, clock: Clock)
    ensures var (t, reply) := Answer(s, GET, "/studio/v1/identity/users", content, clock);
            t == s && reply.status == 200 && reply.payload.UserItems? && InKeyOrder(s.users, reply.payload.users)
  {
    IdentityPaths();
    ListRoutes();
    ReadAnswers(s, USERS, content, clock, ListUsers);
  }

  /** And the list of roles. */
  lemma RolesAnswer(s: State, content: Decoded, clock: Clock)
    ensures var (t, reply) := Answer(s, GET, "/studio/v1/identity/roles", content, clock);
            t == s && reply.status == 200 && reply.payload.RoleItems? && InKeyOrder(s.roles, reply.payload.roles)
  {
    IdentityPaths();
    ListRoutes();
    ReadAnswers(s, ROLES, content, clock, ListRoles);
  }

  /** The lists of runs, of plans and of the log answer with the one run, the one plan and the log. */
  lemma OperationsAnswer(s: State, content: Decoded, clock: Clock)
    ensures Answer(s, GET, "/studio/v1/workflows/runs", content, clock) == (s, Reply(200, RunItem(s.run)))
    ensures Answer(s, GET, "/studio/v1/quota/plans", content, clock) == (s, Reply(200, QuotaItem(s.plan)))
    ensures Answer(s, GET, "/studio/v1/audit", content, clock) == (s, Reply(200, AuditItems(s.audits)))
  {
    MetadataPaths();
    OperationPaths();
    ListRoutes();
    ReadAnswers(s, RUNS, content, clock, ListRuns);
    ReadAnswers(s, PLANS, content, clock, ListPlans);
    ReadAnswers(s, AUDIT, content, clock, ListAudit);
  }
}
