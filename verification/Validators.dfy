/** The provider client's validators, what its calls send, and the proof that the validators accept
    whatever the local provider can store or answer as long as the texts of the calls still fit their
    bounds after they went through JSON. */
module Validators {
  import opened Text
  import opened Sorting
  import opened RoleList
  import opened Routing
  import opened Escaping
  import opened Utf8
  import opened ProviderModel
  import opened Reachable
  import opened Runs
  import opened ClientPaths
  import opened RoundTrip

  /** `time.Parse(time.RFC3339, value)` succeeds; the length of the JSON encoding of limits; and what
      limits are after they went through JSON. */
  datatype Library = Library(isTime: string -> bool, jsonSize: map<string, string> -> int,
                             resent: map<string, string> -> map<string, string>)

  predicate ValidTime(lib: Library, value: string, optional: bool) {
    if value == "" then optional else lib.isTime(value)
  }

  // ---------------------------------------------------------------- the validators

  predicate ValidField(field: Field) {
    SafePathValue(field.code, 256) && BoundedText(field.dataType, 256)
  }

  predicate ValidEntity(entity: Entity) {
    && SafePathValue(entity.code, 256) && BoundedText(entity.name, 512)
    && |entity.kind| <= 128 && !HasControl(entity.kind)
    && entity.version >= 0 && |entity.fields| <= 200
    && forall i | 0 <= i < |entity.fields| :: ValidField(entity.fields[i])
  }

  predicate ValidUser(user: User) {
    && SafePathValue(user.id, 256) && BoundedText(user.displayName, 512)
    && |user.email| <= 512 && !HasControl(user.email)
    && (user.status == ACTIVE || user.status == DISABLED)
    && user.version >= 0 && |user.roles| <= 200
    && forall i | 0 <= i < |user.roles| :: SafePathValue(user.roles[i], 256)
  }

  predicate ValidRole(role: Role) {
    SafePathValue(role.key, 256) && BoundedText(role.displayName, 512) && role.version >= 0
  }

  predicate ValidRun(lib: Library, run: Run) {
    && SafePathValue(run.id, 256) && BoundedText(run.workflow, 256) && BoundedText(run.state, 64)
    && run.version >= 0
    && ValidTime(lib, run.createdAt, false) && ValidTime(lib, run.updatedAt, false)
    && (run.leaseState == "none" || run.leaseState == "active" || run.leaseState == "expired")
    && ValidTime(lib, run.leaseExpiresAt, true) && ValidTime(lib, run.nextWakeAt, true)
  }

  predicate ValidTaskState(state: string) {
    || state == "pending" || state == "running" || state == "succeeded" || state == "retry_waiting"
    || state == "failed" || state == "compensating" || state == "compensated"
    || state == "compensation_failed"
  }

  predicate ValidTask(lib: Library, task: Task, runId: string) {
    && SafePathValue(task.id, 256) && task.runId == runId && SafePathValue(task.runId, 256)
    && BoundedText(task.code, 256) && task.attempt >= 0 && task.version >= 0
    && ValidTaskState(task.state)
    && (task.leaseState == "none" || task.leaseState == "active" || task.leaseState == "expired")
    && (task.recoveryState == "none" || task.recoveryState == "retry_waiting"
        || task.recoveryState == "lease_expired")
    && |task.errorCode| <= 256 && !HasControl(task.errorCode)
    && ValidTime(lib, task.nextAttemptAt, true) && ValidTime(lib, task.leaseExpiresAt, true)
  }

  predicate ValidPlan(lib: Library, plan: QuotaPlan) {
    && SafePathValue(plan.code, 256) && plan.version >= 0 && plan.windowSeconds >= 1
    && ValidTime(lib, plan.effectiveAt, false)
    && |plan.limits| <= 200 && lib.jsonSize(plan.limits) <= 65536
  }

  predicate ValidDeletionPlan(plan: DeletionPlan, code: string, expectedVersion: int) {
    && plan.code == code && plan.expectedVersion == expectedVersion
    && |plan.dependencies| <= 200 && |plan.impactSummary| <= 4096 && !HasControl(plan.impactSummary)
    && forall i | 0 <= i < |plan.dependencies| :: BoundedText(plan.dependencies[i], 512)
  }

  predicate ValidReceipt(lib: Library, receipt: Receipt, code: string, expectedVersion: int) {
    receipt.code == code && receipt.deletedVersion == expectedVersion && lib.isTime(receipt.deletedAt)
  }

  /** A value for a path has 1 to `limit` bytes, none of them of a control character and none of the
      four that end or split a path. */
  predicate PathBytes(value: string, limit: nat) {
    1 <= |value| <= limit && Plain(value) && forall i | 0 <= i < |value| :: value[i] !in {'/', '\\', '?', '#'}
  }

  predicate TextBytes(value: string, limit: nat) {
    1 <= |value| <= limit && Plain(value)
  }

  /** The users, roles and entities that the client accepts, in bytes and numbers. */
  lemma AcceptedInBytes(user: User, role: Role, entity: Entity)
    ensures ValidUser(user) <==>
              && PathBytes(user.id, 256) && TextBytes(user.displayName, 512)
              && |user.email| <= 512 && Plain(user.email) && user.status in {"active", "disabled"}
              && user.version >= 0 && |user.roles| <= 200 && forall role | role in user.roles :: PathBytes(role, 256)
    ensures ValidRole(role) <==>
              PathBytes(role.key, 256) && TextBytes(role.displayName, 512) && role.version >= 0
    ensures ValidEntity(entity) <==>
              && PathBytes(entity.code, 256) && TextBytes(entity.name, 512)
              && |entity.kind| <= 128 && Plain(entity.kind)
              && entity.version >= 0 && |entity.fields| <= 200
              && forall field | field in entity.fields :: PathBytes(field.code, 256) && TextBytes(field.dataType, 256)
  {
    forall value, limit: nat
      ensures (SafePathValue(value, limit) <==> PathBytes(value, limit))
              && (BoundedText(value, limit) <==> TextBytes(value, limit))
    {
      PlainIsUncontrolled(value);
    }
    PlainIsUncontrolled(user.email);
    PlainIsUncontrolled(entity.kind);
  }

  /** The plans and receipts of deletions that the client accepts: for the code and version it asked about. */
  lemma DeletionsInBytes(lib: Library, plan: DeletionPlan, receipt: Receipt, code: string, version: int)
    ensures ValidDeletionPlan(plan, code, version) <==>
              && plan.code == code && plan.expectedVersion == version
              && |plan.dependencies| <= 200 && |plan.impactSummary| <= 4096 && Plain(plan.impactSummary)
              && forall text | text in plan.dependencies :: TextBytes(text, 512)
    ensures ValidReceipt(lib, receipt, code, version) <==>
              receipt.code == code && receipt.deletedVersion == version && lib.isTime(receipt.deletedAt)
  {
    PlainIsUncontrolled(plan.impactSummary);
    forall text | text in plan.dependencies ensures BoundedText(text, 512) <==> TextBytes(text, 512) {
      PlainIsUncontrolled(text);
    }
  }

  // ---------------------------------------------------------------- client-built bodies

  /** The bytes of `safeToken`: letters, digits and `._~+/=-`. */
  predicate TokenChar(c: char) {
    || 'a' <= c <= 'z' || 'A' <= c <= 'Z' || '0' <= c <= '9'
    || c in {'.', '_', '~', '+', '/', '=', '-'}
  }

  predicate SafeKey(key: string) {
    key != "" && |key| <= 256 && forall i | 0 <= i < |key| :: TokenChar(key[i])
  }

  /** The checks each client call makes before it sends anything. */
  predicate Accepts(lib: Library, call: Call) {
    match call
    case PutEntity(entity, version, key) => ValidEntity(entity) && version >= 0 && SafeKey(key)
    case PlanEntityDeletion(code, version, key) => SafePathValue(code, 256) && version >= 0 && SafeKey(key)
    case RemoveNow(code, version, key) => SafePathValue(code, 256) && version >= 0 && SafeKey(key)
    case NewUser(id, displayName, email, key) =>
      SafePathValue(id, 256) && BoundedText(displayName, 512) && BoundedText(email, 512) && SafeKey(key)
    case UserStatus(id, status, version, key) =>
      SafePathValue(id, 256) && (status == ACTIVE || status == DISABLED) && version >= 0 && SafeKey(key)
    case NewRole(roleKey, displayName, key) =>
      SafePathValue(roleKey, 256) && BoundedText(displayName, 512) && SafeKey(key)
    case EditRole(roleKey, displayName, version, key) =>
      SafePathValue(roleKey, 256) && BoundedText(displayName, 512) && version >= 0 && SafeKey(key)
    case UserRole(id, roleKey, version, key, _) =>
      SafePathValue(id, 256) && SafePathValue(roleKey, 256) && version >= 0 && SafeKey(key)
    case CancelWorkflowRun(id, version, key) => SafePathValue(id, 256) && version >= 0 && SafeKey(key)
    case RetryWorkflowTask(id, version, key) => SafePathValue(id, 256) && version >= 0 && SafeKey(key)
    case PublishQuotaPlan(plan, version, key) => ValidPlan(lib, plan) && version >= 0 && SafeKey(key)
    case ListWorkflowTasks(runId) => SafePathValue(runId, 256)
  }

  const ZERO_ENTITY := Entity("", "", "", 0, [])
  const ZERO_PLAN := QuotaPlan("", 0, "", 0, map[])
  const ZERO_BODY := Body("", 0, "", "", "", "", "", "", ZERO_ENTITY, ZERO_PLAN)

  /** The JSON members each client call sends. */
  function BodyOf(call: Call): Body {
    match call
    case PutEntity(entity, version, key) =>
      ZERO_BODY.(entity := entity, expectedVersion := version, idempotencyKey := key)
    case PlanEntityDeletion(_, version, key) =>
      ZERO_BODY.(expectedVersion := version, idempotencyKey := key)
    case RemoveNow(_, version, key) =>
      ZERO_BODY.(confirmation := DELETE_ENTITY, expectedVersion := version, idempotencyKey := key)
    case NewUser(id, displayName, email, key) =>
      ZERO_BODY.(id := id, displayName := displayName, email := email, idempotencyKey := key)
    case UserStatus(_, status, version, key) =>
      ZERO_BODY.(confirmation := DISABLE_USER, status := status, expectedVersion := version,
                 idempotencyKey := key)
    case NewRole(roleKey, displayName, key) =>
      ZERO_BODY.(key := roleKey, displayName := displayName, idempotencyKey := key)
    case EditRole(_, displayName, version, key) =>
      ZERO_BODY.(displayName := displayName, expectedVersion := version, idempotencyKey := key)
    case UserRole(_, _, version, key, _) => ZERO_BODY.(expectedVersion := version, idempotencyKey := key)
    case CancelWorkflowRun(_, version, key) =>
      ZERO_BODY.(confirmation := CANCEL_RUN, expectedVersion := version, idempotencyKey := key)
    case RetryWorkflowTask(_, version, key) =>
      ZERO_BODY.(confirmation := RETRY_TASK, expectedVersion := version, idempotencyKey := key)
    case PublishQuotaPlan(plan, version, key) =>
      ZERO_BODY.(confirmation := PUBLISH_QUOTA_PLAN, plan := plan, expectedVersion := version,
                 idempotencyKey := key)
    case ListWorkflowTasks(_) => ZERO_BODY
  }

  function CoercedFields(fields: seq<Field>): (coerced: seq<Field>)
    ensures |coerced| == |fields|
    ensures forall i | 0 <= i < |fields| ::
              coerced[i] == fields[i].(code := Coerced(fields[i].code), dataType := Coerced(fields[i].dataType))
  {
    seq(|fields|, i requires 0 <= i < |fields| =>
      fields[i].(code := Coerced(fields[i].code), dataType := Coerced(fields[i].dataType)))
  }

  function CoercedEntity(entity: Entity): Entity {
    Entity(Coerced(entity.code), Coerced(entity.name), Coerced(entity.kind), entity.version,
           CoercedFields(entity.fields))
  }

  function CoercedPlan(lib: Library, plan: QuotaPlan): QuotaPlan {
    plan.(code := Coerced(plan.code), effectiveAt := Coerced(plan.effectiveAt), limits := lib.resent(plan.limits))
  }

  /** The call as its JSON body spells it. The path has the identifiers as they are. */
  function AsJson(lib: Library, call: Call): Call {
    match call
    case PutEntity(entity, version, key) => PutEntity(CoercedEntity(entity), version, Coerced(key))
    case PlanEntityDeletion(code, version, key) => PlanEntityDeletion(code, version, Coerced(key))
    case RemoveNow(code, version, key) => RemoveNow(code, version, Coerced(key))
    case NewUser(id, displayName, email, key) =>
      NewUser(Coerced(id), Coerced(displayName), Coerced(email), Coerced(key))
    case UserStatus(id, status, version, key) => UserStatus(id, Coerced(status), version, Coerced(key))
    case NewRole(roleKey, displayName, key) => NewRole(Coerced(roleKey), Coerced(displayName), Coerced(key))
    case EditRole(roleKey, displayName, version, key) => EditRole(roleKey, Coerced(displayName), version, Coerced(key))
    case UserRole(id, roleKey, version, key, assign) => UserRole(id, roleKey, version, Coerced(key), assign)
    case CancelWorkflowRun(id, version, key) => CancelWorkflowRun(id, version, Coerced(key))
    case RetryWorkflowTask(id, version, key) => RetryWorkflowTask(id, version, Coerced(key))
    case PublishQuotaPlan(plan, version, key) => PublishQuotaPlan(CoercedPlan(lib, plan), version, Coerced(key))
    case ListWorkflowTasks(_) => call
  }

  /** The members that arrive. */
  function BodySeen(lib: Library, call: Call): Body {
    BodyOf(AsJson(lib, call))
  }

  /** The request a call becomes, as the provider receives it. */
  function RequestOf(lib: Library, call: Call, clock: Clock): Request
    requires SafeIds(call) && PathSeen(call).Some?
  {
    Arrive(Wire(VerbOf(call), PathSeen(call).value,
                if call.ListWorkflowTasks? then Malformed else Decoded(BodySeen(lib, call)), clock))
  }

  lemma KeyUnchanged(key: string)
    requires SafeKey(key)
    ensures Coerced(key) == key
  {
    assert forall i | 0 <= i < |key| :: TokenChar(key[i]) ==> key[i] as int < 0x80;
    AsciiIsUtf8(key);
  }

  lemma StatusUnchanged(status: string)
    requires status == ACTIVE || status == DISABLED
    ensures Coerced(status) == status
  {
    AsciiIsUtf8(ACTIVE);
    AsciiIsUtf8(DISABLED);
  }

  /** Keys and statuses arrive as they are; so does the version. */
  lemma KeyArrives(lib: Library, call: Call)
    requires Accepts(lib, call) && !call.ListWorkflowTasks?
    ensures BodySeen(lib, call).idempotencyKey == call.key
    ensures call.UserStatus? ==> BodySeen(lib, call).status == call.status
  {
    KeyUnchanged(call.key);
    if call.UserStatus? {
      StatusUnchanged(call.status);
    }
  }

  /** What a body can bring into the stored state, whichever handler reads it. */
  predicate SoundBody(lib: Library, body: Body) {
    && (body.entity.code != "" ==> ValidEntity(body.entity))
    && (body.id != "" ==> SafePathValue(body.id, 256) && |body.email| <= 512 && !HasControl(body.email))
    && (body.key != "" ==> SafePathValue(body.key, 256))
    && (body.displayName != "" ==> BoundedText(body.displayName, 512))
    && (body.confirmation == PUBLISH_QUOTA_PLAN ==> ValidPlan(lib, body.plan))
  }

  predicate SoundRequest(lib: Library, request: Request) {
    && lib.isTime(request.clock.changedAt) && request.clock.changedAt != ""
    && (request.content.Decoded? ==> SoundBody(lib, request.content.body))
  }

  lemma ConfirmationsDiffer()
    ensures PUBLISH_QUOTA_PLAN !in {DISABLE_USER, DELETE_ENTITY, CANCEL_RUN, RETRY_TASK, ""}
  {
    assert |PUBLISH_QUOTA_PLAN| == 18;
  }

  // ---------------------------------------------------------------- what still fits when it arrives

  predicate FieldFits(field: Field) {
    Fits(field.code, 256) && Fits(field.dataType, 256)
  }

  predicate EntityFits(entity: Entity) {
    && Fits(entity.code, 256) && Fits(entity.name, 512) && Fits(entity.kind, 128)
    && forall i | 0 <= i < |entity.fields| :: FieldFits(entity.fields[i])
  }

  predicate PlanFits(lib: Library, plan: QuotaPlan) {
    && Fits(plan.code, 256) && ValidTime(lib, Coerced(plan.effectiveAt), false)
    && |lib.resent(plan.limits)| <= 200 && lib.jsonSize(lib.resent(plan.limits)) <= 65536
  }

  /** The texts that a call brings are still within their bounds after they went through JSON. A
      caller can count this: each byte that is no part of UTF-8 counts three times. */
  predicate CallFits(lib: Library, call: Call) {
    match call
    case PutEntity(entity, _, _) => EntityFits(entity)
    case NewUser(id, displayName, email, _) => Fits(id, 256) && Fits(displayName, 512) && Fits(email, 512)
    case NewRole(roleKey, displayName, _) => Fits(roleKey, 256) && Fits(displayName, 512)
    case EditRole(_, displayName, _, _) => Fits(displayName, 512)
    case PublishQuotaPlan(plan, _, _) => PlanFits(lib, plan)
    case _ => true
  }

  lemma KindWhenSent(kind: string)
    requires |kind| <= 128 && !HasControl(kind)
    ensures !HasControl(Coerced(kind)) && (|Coerced(kind)| <= 128 <==> Fits(kind, 128))
  {
    CoercedLength(kind);
    CoercedControl(kind);
  }

  lemma FieldsWhenSent(fields: seq<Field>)
    requires forall i | 0 <= i < |fields| :: ValidField(fields[i])
    ensures forall i | 0 <= i < |fields| :: ValidField(CoercedFields(fields)[i]) <==> FieldFits(fields[i])
  {
    forall i | 0 <= i < |fields|
      ensures ValidField(CoercedFields(fields)[i]) <==> FieldFits(fields[i])
    {
      SafeWhenSent(fields[i].code, 256);
      BoundedWhenSent(fields[i].dataType, 256);
    }
  }

  lemma EntityWhenSent(entity: Entity)
    requires ValidEntity(entity)
    ensures ValidEntity(CoercedEntity(entity)) <==> EntityFits(entity)
  {
    SafeWhenSent(entity.code, 256);
    BoundedWhenSent(entity.name, 512);
    KindWhenSent(entity.kind);
    FieldsWhenSent(entity.fields);
  }

  lemma PlanWhenSent(lib: Library, plan: QuotaPlan)
    requires ValidPlan(lib, plan)
    ensures ValidPlan(lib, CoercedPlan(lib, plan)) <==> PlanFits(lib, plan)
  {
    SafeWhenSent(plan.code, 256);
  }

  lemma UserWhenSent(call: Call, lib: Library)
    requires call.NewUser? && Accepts(lib, call)
    ensures var sent := AsJson(lib, call);
            CallFits(lib, call) <==> SafePathValue(sent.id, 256) && BoundedText(sent.displayName, 512)
                                     && |sent.email| <= 512
    ensures var sent := AsJson(lib, call);
            sent.id != "" && sent.displayName != "" && !HasControl(sent.email)
  {
    SafeWhenSent(call.id, 256);
    BoundedWhenSent(call.displayName, 512);
    BoundedWhenSent(call.email, 512);
    CoercedLength(call.id);
    CoercedLength(call.displayName);
    CoercedLength(call.email);
    CoercedControl(call.email);
  }

  lemma RoleWhenSent(call: Call, lib: Library)
    requires (call.NewRole? || call.EditRole?) && Accepts(lib, call)
    ensures var sent := AsJson(lib, call);
            CallFits(lib, call) <==> BoundedText(sent.displayName, 512)
                                     && (call.NewRole? ==> SafePathValue(sent.roleKey, 256))
    ensures AsJson(lib, call).displayName != "" && AsJson(lib, call).roleKey != ""
  {
    SafeWhenSent(call.roleKey, 256);
    BoundedWhenSent(call.displayName, 512);
    CoercedLength(call.displayName);
    CoercedLength(call.roleKey);
  }

  /** A call that the client accepts arrives as a sound body exactly when its texts still fit. */
  lemma ClientBodiesAreSound(lib: Library, call: Call)
    requires Accepts(lib, call)
    ensures SoundBody(lib, BodySeen(lib, call)) <==> CallFits(lib, call)
  {
    ConfirmationsDiffer();
    match call
    case PutEntity(entity, _, _) =>
      EntityWhenSent(entity);
      CoercedLength(entity.code);
    case NewUser(_, _, _, _) => UserWhenSent(call, lib);
    case NewRole(_, _, _) | EditRole(_, _, _, _) => RoleWhenSent(call, lib);
    case PublishQuotaPlan(plan, _, _) => PlanWhenSent(lib, plan);
    case _ =>
  }

  /** A call that the client sends off. */
  predicate Sendable(lib: Library, call: Call) {
    Accepts(lib, call) && SafeIds(call) && PathSeen(call).Some?
  }

  ghost predicate FromCall(lib: Library, call: Call, request: Request) {
    Sendable(lib, call) && request == RequestOf(lib, call, request.clock)
  }

  ghost predicate FromClient(lib: Library, request: Request) {
    exists call :: FromCall(lib, call, request)
  }

  ghost predicate TimeTold(lib: Library, request: Request) {
    lib.isTime(request.clock.changedAt) && request.clock.changedAt != ""
  }

  /** The request of a client call is sound exactly when the call's texts still fit. */
  lemma ClientsAreSound(lib: Library, call: Call, request: Request)
    requires FromCall(lib, call, request) && TimeTold(lib, request)
    ensures call.ListWorkflowTasks? || (SoundRequest(lib, request) <==> CallFits(lib, call))
    ensures CallFits(lib, call) ==> SoundRequest(lib, request)
  {
    ClientBodiesAreSound(lib, call);
  }

  lemma LostIdsAreSafe()
    ensures SafePathValue("status", 256) && IsByteString("status") && SafePathValue(".", 256) && IsByteString(".")
  {
    PrintableIsSafe("status", 256);
    PrintableIsSafe(".", 256);
  }

  lemma RenameIsAccepted(lib: Library, call: Call, roleKey: string)
    requires call.EditRole? && call.roleKey == roleKey && SafePathValue(roleKey, 256) && IsByteString(roleKey)
    requires BoundedText(call.displayName, 512) && call.version >= 0 && SafeKey(call.key)
    ensures Accepts(lib, call) && SafeIds(call)
  {
  }

  lemma RemovalIsAccepted(lib: Library, call: Call, code: string)
    requires call.RemoveNow? && call.code == code && SafePathValue(code, 256) && IsByteString(code)
    requires call.version >= 0 && SafeKey(call.key)
    ensures Accepts(lib, call) && SafeIds(call)
  {
  }

  /** The client accepts every renaming of the role `status`, and the provider takes each for a
      change of a user's status. */
  lemma AcceptedRenameGoesAstray(lib: Library, call: Call)
    requires call.EditRole? && call.roleKey == "status"
    requires BoundedText(call.displayName, 512) && call.version >= 0 && SafeKey(call.key)
    ensures Accepts(lib, call) && SafeIds(call) && Delivered(call) == Delivery(SetUserStatus, BadPath)
  {
    assert Accepts(lib, call) && SafeIds(call) by {
      LostIdsAreSafe();
      RenameIsAccepted(lib, call, "status");
    }
    StatusRoleGoesAstray(call);
  }

  /** The client accepts every removal of the entity `.`, and the provider reads each as a removal
      of the entity with the empty code. */
  lemma AcceptedRemovalGoesAstray(lib: Library, call: Call)
    requires call.RemoveNow? && call.code == "." && call.version >= 0 && SafeKey(call.key)
    ensures Accepts(lib, call) && SafeIds(call) && Delivered(call) == Delivery(DeleteEntity, One(""))
  {
    assert Accepts(lib, call) && SafeIds(call) by {
      LostIdsAreSafe();
      RemovalIsAccepted(lib, call, ".");
    }
    DotEntityGoesAstray(call);
  }

  // ---------------------------------------------------------------- the stored state

  /** Everything a validator asks of a stored user except the bound on the number of roles. */
  predicate ValidButRoleCount(user: User) {
    && SafePathValue(user.id, 256) && BoundedText(user.displayName, 512)
    && |user.email| <= 512 && !HasControl(user.email)
    && (user.status == ACTIVE || user.status == DISABLED)
    && user.version >= 0
    && forall i | 0 <= i < |user.roles| :: SafePathValue(user.roles[i], 256)
  }

  ghost predicate StoredValid(lib: Library, s: State) {
    && (forall code | code in s.entities :: ValidEntity(s.entities[code]))
    && (forall key | key in s.roles :: ValidRole(s.roles[key]))
    && (forall id | id in s.users :: ValidButRoleCount(s.users[id]))
    && ValidRun(lib, s.run) && ValidTask(lib, s.task, s.task.runId) && ValidPlan(lib, s.plan)
  }

  /** What an accepted change takes from the request. */
  predicate FromRequest(change: Change, request: Request)
    requires request.content.Decoded?
  {
    var body := request.content.body;
    match change
    case StoreEntity(_, entity, _) =>
      body.entity.code != "" && entity == body.entity.(version := entity.version)
    case RemoveEntity(_, _, at) => at == request.clock.changedAt
    case AddUser(user) =>
      && body.id != "" && body.displayName != ""
      && user.id == body.id && user.displayName == body.displayName && user.email == body.email
    case SetStatus(_, user) => user.status == body.status && (body.status == ACTIVE || body.status == DISABLED)
    case AddRole(role) =>
      body.key != "" && body.displayName != "" && role.key == body.key && role.displayName == body.displayName
    case RenameRole(_, role) => body.displayName != "" && role.displayName == body.displayName
    case Cancel(run) => run.updatedAt == request.clock.changedAt
    case Retry(run, _) => run.updatedAt == request.clock.changedAt
    case Publish(plan) =>
      body.confirmation == PUBLISH_QUOTA_PLAN && plan == body.plan.(version := plan.version)
    case _ => true
  }

  lemma ChangeIsFromRequest(s: State, request: Request)
    requires Fresh(s, request)
    ensures request.content.Decoded? && FromRequest(ChangeMade(s, request), request)
  {
    match request.route
    case UpdateEntity =>
    case PlanDeletion =>
    case DeleteEntity =>
    case CreateUser =>
    case SetUserStatus =>
    case CreateRole =>
    case UpdateRole =>
    case ChangeUserRole =>
    case CancelRun =>
    case RetryTask =>
    case PublishPlan =>
  }

  lemma RolesStaySafe(roles: seq<string>, key: string, assign: bool)
    requires forall i | 0 <= i < |roles| :: SafePathValue(roles[i], 256)
    requires SafePathValue(key, 256)
    ensures forall i | 0 <= i < |Changed(roles, key, assign)| :: SafePathValue(Changed(roles, key, assign)[i], 256)
  {
    ChangeIsSetChange(roles, key);
    var changed := Changed(roles, key, assign);
    forall i | 0 <= i < |changed| ensures SafePathValue(changed[i], 256) {
      assert changed[i] in Elements(changed);
      assert changed[i] == key || changed[i] in Elements(roles);
    }
  }

  lemma WorkflowTextsAreValid()
    ensures BoundedText("cancelled", 64) && BoundedText("running", 64)
  {
  }

  lemma RoleChangeKeepsValid(lib: Library, s: State, change: Change, request: Request)
    requires StoredValid(lib, s) && Consistent(s) && Legal(s, change) && (change.AssignRole? || change.RevokeRole?)
    requires SoundRequest(lib, request) && request.content.Decoded? && FromRequest(change, request)
    ensures StoredValid(lib, Apply(s, change))
  {
    var (id, user, key) := match change
      case AssignRole(id, user, key) => (id, user, key)
      case RevokeRole(id, user, key) => (id, user, key);
    RolesStaySafe(s.users[id].roles, key, change.AssignRole?);
    assert ValidRole(s.roles[key]) && ValidButRoleCount(user);
  }

  lemma WorkflowChangeKeepsValid(lib: Library, s: State, change: Change, request: Request)
    requires StoredValid(lib, s) && Legal(s, change) && (change.Cancel? || change.Retry?)
    requires SoundRequest(lib, request) && request.content.Decoded? && FromRequest(change, request)
    ensures StoredValid(lib, Apply(s, change))
  {
    WorkflowTextsAreValid();
  }

  lemma RecordChangeKeepsValid(lib: Library, s: State, change: Change, request: Request)
    requires StoredValid(lib, s) && Legal(s, change)
    requires change.StoreEntity? || change.RemoveEntity? || change.AddRole? || change.RenameRole? || change.AddUser?
    requires SoundRequest(lib, request) && request.content.Decoded? && FromRequest(change, request)
    ensures StoredValid(lib, Apply(s, change))
  {
  }

  lemma OtherChangeKeepsValid(lib: Library, s: State, change: Change, request: Request)
    requires StoredValid(lib, s) && Legal(s, change)
    requires change.ReviewDeletion? || change.SetStatus? || change.Publish?
    requires SoundRequest(lib, request) && request.content.Decoded? && FromRequest(change, request)
    ensures StoredValid(lib, Apply(s, change))
  {
  }

  lemma ApplyKeepsValid(lib: Library, s: State, change: Change, request: Request)
    requires StoredValid(lib, s) && Consistent(s) && Legal(s, change)
    requires SoundRequest(lib, request) && request.content.Decoded? && FromRequest(change, request)
    ensures StoredValid(lib, Apply(s, change))
  {
    match change
    case AssignRole(_, _, _) => RoleChangeKeepsValid(lib, s, change, request);
    case RevokeRole(_, _, _) => RoleChangeKeepsValid(lib, s, change, request);
    case Cancel(_) => WorkflowChangeKeepsValid(lib, s, change, request);
    case Retry(_, _) => WorkflowChangeKeepsValid(lib, s, change, request);
    case StoreEntity(_, _, _) => RecordChangeKeepsValid(lib, s, change, request);
    case RemoveEntity(_, _, _) => RecordChangeKeepsValid(lib, s, change, request);
    case AddRole(_) => RecordChangeKeepsValid(lib, s, change, request);
    case AddUser(_) => RecordChangeKeepsValid(lib, s, change, request);
    case RenameRole(_, _) => RecordChangeKeepsValid(lib, s, change, request);
    case _ => OtherChangeKeepsValid(lib, s, change, request);
  }

  predicate Printable(s: string) {
    forall i | 0 <= i < |s| ::
      0x20 <= s[i] as int < 0x7F && s[i] != '/' && s[i] != '\\' && s[i] != '?' && s[i] != '#'
  }

  lemma PrintableIsSafe(s: string, limit: nat)
    requires Printable(s) && s != "" && |s| <= limit
    ensures SafePathValue(s, limit) && BoundedText(s, limit) && !HasControl(s)
  {
  }

  lemma SeedEntityValid()
    ensures ValidEntity(SeedEntity())
  {
    var entity := SeedEntity();
    PrintableIsSafe(entity.code, 256);
    PrintableIsSafe(entity.name, 512);
    PrintableIsSafe(entity.kind, 128);
    PrintableIsSafe("id", 256);
    PrintableIsSafe("uuid", 256);
    PrintableIsSafe("status", 256);
    PrintableIsSafe("string", 256);
  }

  lemma KeyIsPrintable(key: string)
    requires key in {"identity.admin", "studio.audit.read", "studio.metadata.apply", "studio.metadata.read",
                     "studio.metadata.write", "studio.quota.admin", "studio.quota.read",
                     "studio.workflow.operate", "studio.workflow.read"}
    ensures Printable(key) && 0 < |key| <= 256
  {
  }

  lemma SampleRoleKeySafe(i: nat)
    requires i < |SAMPLE_ROLE_KEYS|
    ensures SafePathValue(SAMPLE_ROLE_KEYS[i], 256) && BoundedText(SAMPLE_ROLE_KEYS[i], 512)
  {
    var key := SAMPLE_ROLE_KEYS[i];
    KeyIsPrintable(key);
    PrintableIsSafe(key, 256);
    PrintableIsSafe(key, 512);
  }

  lemma SampleRolesSafe()
    ensures forall i | 0 <= i < |SAMPLE_ROLE_KEYS| :: SafePathValue(SAMPLE_ROLE_KEYS[i], 256)
  {
    forall i | 0 <= i < |SAMPLE_ROLE_KEYS| ensures SafePathValue(SAMPLE_ROLE_KEYS[i], 256) {
      SampleRoleKeySafe(i);
    }
  }

  lemma SeedUserTexts()
    ensures SafePathValue(SeedUser().id, 256) && BoundedText(SeedUser().displayName, 512)
    ensures |SeedUser().email| <= 512 && !HasControl(SeedUser().email)
  {
    SeedIdIsSafe(SeedUser().id);
    SeedNameIsSafe(SeedUser().displayName);
    SeedEmailIsSafe(SeedUser().email);
  }

  lemma SeedIdIsSafe(id: string)
    requires id == SeedUser().id
    ensures SafePathValue(id, 256)
  {
    PrintableIsSafe(id, 256);
  }

  lemma SeedNameIsSafe(name: string)
    requires name == SeedUser().displayName
    ensures BoundedText(name, 512)
  {
    PrintableIsSafe(name, 512);
  }

  lemma SeedEmailIsSafe(email: string)
    requires email == SeedUser().email
    ensures |email| <= 512 && !HasControl(email)
  {
    PrintableIsSafe(email, 512);
  }

  lemma SeedUserValid()
    ensures ValidButRoleCount(SeedUser())
  {
    SeedUserTexts();
    SampleRolesSafe();
  }

  lemma SeedRunValid(lib: Library)
    requires lib.isTime(SAMPLE_TIME)
    ensures ValidRun(lib, SeedRun())
  {
    var run := SeedRun();
    PrintableIsSafe(run.id, 256);
    PrintableIsSafe(run.workflow, 256);
    PrintableIsSafe(run.state, 64);
  }

  lemma SeedTaskValid(lib: Library)
    requires lib.isTime(SAMPLE_TIME)
    ensures ValidTask(lib, SeedTask(), SeedTask().runId)
  {
    var task := SeedTask();
    PrintableIsSafe(task.id, 256);
    PrintableIsSafe(task.runId, 256);
    PrintableIsSafe(task.code, 256);
  }

  lemma SeedPlanValid(lib: Library)
    requires lib.isTime(SAMPLE_TIME) && lib.jsonSize(SeedPlan().limits) <= 65536
    ensures ValidPlan(lib, SeedPlan())
  {
    PrintableIsSafe(SeedPlan().code, 256);
  }

  /** The library accepts what the seed contains. */
  predicate SeedFits(lib: Library) {
    lib.isTime(SAMPLE_TIME) && lib.jsonSize(SeedPlan().limits) <= 65536
  }

  lemma InitialValid(lib: Library)
    requires SeedFits(lib)
    ensures StoredValid(lib, InitialState())
  {
    SeedEntityValid();
    SeedUserValid();
    SeedRunValid(lib);
    SeedTaskValid(lib);
    SeedPlanValid(lib);
    forall key | key in InitialState().roles ensures ValidRole(InitialState().roles[key]) {
      var i :| 0 <= i < |SAMPLE_ROLE_KEYS| && SAMPLE_ROLE_KEYS[i] == key;
      SampleRoleKeySafe(i);
    }
  }

  ghost predicate ValidAt(lib: Library, run: History, n: nat)
    requires n <= |run.requests|
  {
    StoredValid(lib, run.states[n]) && Consistent(run.states[n]) && RecordsValid(lib, run.states[n])
  }

  lemma ValidStart(lib: Library, run: History)
    requires SeedFits(lib)
    ensures ValidAt(lib, run, 0)
  {
    InitialValid(lib);
    InitialConsistent();
    assert run.states[0] == InitialState();
  }

  lemma ValidStep(lib: Library, run: History, n: nat)
    requires n < |run.requests| && ValidAt(lib, run, n) && SoundRequest(lib, run.requests[n])
    ensures ValidAt(lib, run, n + 1)
  {
    StepHolds(run, n);
    ServeKeepsValid(lib, run.states[n], run.requests[n]);
    ServeKeepsConsistent(run.states[n], run.requests[n]);
    ServeKeepsRecordsValid(lib, run.states[n], run.requests[n]);
  }

  /** Under any sound requests, everything stored or recorded stays acceptable to the client. */
  lemma {:induction false} SoundRunsStayValid(lib: Library, run: History, n: nat)
    requires n <= |run.requests| && SeedFits(lib)
    requires forall i | 0 <= i < |run.requests| :: SoundRequest(lib, run.requests[i])
    ensures ValidAt(lib, run, n)
    decreases n
  {
    if n == 0 {
      ValidStart(lib, run);
    } else {
      SoundRunsStayValid(lib, run, n - 1);
      ValidStep(lib, run, n - 1);
    }
  }

  /** In any run of sound requests the client accepts a stored user exactly when it has at most 200
      roles. */
  lemma UserAcceptedExactly(lib: Library, run: History, n: nat, id: string)
    requires n <= |run.requests| && SeedFits(lib)
    requires forall i | 0 <= i < |run.requests| :: SoundRequest(lib, run.requests[i])
    requires id in run.states[n].users
    ensures ValidUser(run.states[n].users[id]) <==> |run.states[n].users[id].roles| <= 200
  {
    SoundRunsStayValid(lib, run, n);
  }

  /** A request of a client whose call's texts still fit when they arrive. */
  ghost predicate FromFittingCall(lib: Library, request: Request) {
    TimeTold(lib, request) && exists call :: FromCall(lib, call, request) && CallFits(lib, call)
  }

  lemma FittingIsSound(lib: Library, request: Request)
    requires FromFittingCall(lib, request)
    ensures SoundRequest(lib, request)
  {
    var call :| FromCall(lib, call, request) && CallFits(lib, call);
    ClientsAreSound(lib, call, request);
  }

  /** Under requests of clients whose texts still fit when they arrive, everything stored or recorded
      stays acceptable to the client. */
  lemma AlwaysValid(lib: Library, run: History, n: nat)
    requires n <= |run.requests| && SeedFits(lib)
    requires forall i | 0 <= i < |run.requests| :: FromFittingCall(lib, run.requests[i])
    ensures ValidAt(lib, run, n)
  {
    forall i | 0 <= i < |run.requests| ensures SoundRequest(lib, run.requests[i]) {
      FittingIsSound(lib, run.requests[i]);
    }
    SoundRunsStayValid(lib, run, n);
  }

  lemma ServeKeepsValid(lib: Library, s: State, request: Request)
    requires StoredValid(lib, s) && Consistent(s) && SoundRequest(lib, request)
    ensures StoredValid(lib, Serve(s, request).0)
  {
    StepCases(s, request);
    if Fresh(s, request) {
      FreshIsLegal(s, request);
      ChangeIsFromRequest(s, request);
      ApplyKeepsValid(lib, s, ChangeMade(s, request), request);
    }
  }

  // ---------------------------------------------------------------- replies

  /** A recorded value passes the client's validator for its kind; a user passes up to the bound
      on roles, a deletion plan or receipt up to the code and version it must echo. */
  predicate ValueValid(lib: Library, value: Value) {
    match value
    case EntityValue(entity) => ValidEntity(entity)
    case PlanValue(plan) => ValidDeletionPlan(plan, plan.code, plan.expectedVersion)
    case ReceiptValue(receipt) => ValidReceipt(lib, receipt, receipt.code, receipt.deletedVersion)
    case UserValue(user) => ValidButRoleCount(user)
    case RoleValue(role) => ValidRole(role)
    case RunValue(run) => ValidRun(lib, run)
    case QuotaValue(plan) => ValidPlan(lib, plan)
  }

  ghost predicate RecordsValid(lib: Library, s: State) {
    forall key | key in s.idempotency :: ValueValid(lib, s.idempotency[key].value)
  }

  lemma ImpactSummaryValid()
    ensures |IMPACT_SUMMARY| <= 4096 && !HasControl(IMPACT_SUMMARY)
  {
    var head, rest := "The local provider found no ", "dependent metadata definitions.";
    assert Printable(head) && Printable(rest);
    assert Printable(head + rest);
    PrintableIsSafe(head + rest, 4096);
  }

  lemma FreshValueValid(lib: Library, s: State, change: Change, request: Request)
    requires Legal(s, change) && StoredValid(lib, Apply(s, change))
    requires SoundRequest(lib, request) && request.content.Decoded? && FromRequest(change, request)
    ensures ValueValid(lib, ValueOf(change))
  {
    var t := Apply(s, change);
    match change
    case StoreEntity(code, _, _) => assert ValidEntity(t.entities[code]);
    case ReviewDeletion(_, _) => ImpactSummaryValid();
    case RemoveEntity(_, _, _) =>
    case AddUser(user) => assert ValidButRoleCount(t.users[user.id]);
    case SetStatus(id, _) => assert ValidButRoleCount(t.users[id]);
    case AssignRole(id, _, _) => assert ValidButRoleCount(t.users[id]);
    case RevokeRole(id, _, _) => assert ValidButRoleCount(t.users[id]);
    case AddRole(role) => assert ValidRole(t.roles[role.key]);
    case RenameRole(key, _) => assert ValidRole(t.roles[key]);
    case _ =>
  }

  lemma ServeKeepsRecordsValid(lib: Library, s: State, request: Request)
    requires StoredValid(lib, s) && Consistent(s) && RecordsValid(lib, s) && SoundRequest(lib, request)
    ensures RecordsValid(lib, Serve(s, request).0)
  {
    StepCases(s, request);
    if Fresh(s, request) {
      FreshIsLegal(s, request);
      ChangeIsFromRequest(s, request);
      ApplyKeepsValid(lib, s, ChangeMade(s, request), request);
      FreshValueValid(lib, s, ChangeMade(s, request), request);
    }
  }

  /** The value answers exactly the code and version that the call asked about. */
  predicate Echoes(lib: Library, call: Call, value: Value)
    requires call.PlanEntityDeletion? || call.RemoveNow?
  {
    if call.PlanEntityDeletion? then value.PlanValue? && ValidDeletionPlan(value.deletion, call.code, call.version)
    else value.ReceiptValue? && ValidReceipt(lib, value.receipt, call.code, call.version)
  }

  predicate DeletionCall(lib: Library, call: Call) {
    (call.PlanEntityDeletion? || call.RemoveNow?) && Accepts(lib, call) && SafeIds(call) && Routable(call)
    && PathSeen(call).Some?
  }

  /** The request is one that this call makes at some time. */
  ghost predicate MadeBy(lib: Library, call: Call, request: Request)
    requires SafeIds(call) && PathSeen(call).Some?
  {
    lib.isTime(request.clock.changedAt) && request == RequestOf(lib, call, request.clock)
  }

  lemma DeletionArrives(lib: Library, call: Call, request: Request)
    requires DeletionCall(lib, call) && MadeBy(lib, call, request)
    ensures request.route == if call.PlanEntityDeletion? then PlanDeletion else DeleteEntity
    ensures request.target == One(call.code) && request.content == Decoded(BodySeen(lib, call))
    ensures KeyOf(request) == call.key && request.content.body.expectedVersion == call.version
  {
    RoundTripExactly(call);
    KeyArrives(lib, call);
  }

  lemma FirstAnswer(lib: Library, s: State, call: Call, request: Request)
    requires DeletionCall(lib, call) && MadeBy(lib, call, request) && Fresh(s, request)
    ensures KeyOf(request) == call.key && Echoes(lib, call, ValueOf(ChangeMade(s, request)))
  {
    DeletionArrives(lib, call, request);
    ImpactSummaryValid();
    DeletionServed(s, request, call.code);
  }

  lemma DeletionServed(s: State, request: Request, code: string)
    requires request.route == PlanDeletion || request.route == DeleteEntity
    requires request.target == One(code) && Fresh(s, request)
    ensures ValueOf(ChangeMade(s, request))
         == if request.route == PlanDeletion
            then PlanValue(DeletionPlan(code, request.content.body.expectedVersion, true, [], IMPACT_SUMMARY))
            else ReceiptValue(Receipt(code, request.content.body.expectedVersion, request.clock.changedAt))
  {
  }

  /** A deletion preview or deletion is answered for exactly the code and version the client asked
      about, first and on every retry under the same key, so the client's checks accept it. */
  lemma DeletionRepliesAccepted(lib: Library, run: History, n: nat, call: Call, request: Request)
    requires n <= |run.requests| && DeletionCall(lib, call) && MadeBy(lib, call, request)
    requires forall i | 0 <= i < n && KeyOf(run.requests[i]) == call.key :: MadeBy(lib, call, run.requests[i])
    requires Serve(run.states[n], request).1.status == 200
    ensures var reply := Serve(run.states[n], request).1;
            reply.payload.Stored? && Echoes(lib, call, reply.payload.value)
  {
    DeletionArrives(lib, call, request);
    var s := run.states[n];
    if Decide(s, request).Refuse? {
      RefusalStatus(s, request);
    } else if Fresh(s, request) {
      FirstAnswer(lib, s, call, request);
    } else {
      var i := RecordOrigin(run, n, call.key);
      FirstAnswer(lib, run.states[i], call, run.requests[i]);
    }
  }
}
