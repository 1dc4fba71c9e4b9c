/** Every text that comes to the provider went through JSON, so it is UTF-8, and with it everything the
    provider stores, records or logs: writing the row as JSON and reading it again changes no text. */
module StoredText {
  import opened Text
  import opened Utf8
  import opened Sorting
  import opened RoleList
  import opened ProviderModel
  import opened Reachable
  import opened Runs
  import V = Validators

  ghost predicate Utf8Field(field: Field) {
    IsUtf8(field.code) && IsUtf8(field.dataType)
  }

  ghost predicate Utf8Entity(entity: Entity) {
    && IsUtf8(entity.code) && IsUtf8(entity.name) && IsUtf8(entity.kind)
    && forall i | 0 <= i < |entity.fields| :: Utf8Field(entity.fields[i])
  }

  ghost predicate Utf8User(user: User) {
    && IsUtf8(user.id) && IsUtf8(user.displayName) && IsUtf8(user.email) && IsUtf8(user.status)
    && forall i | 0 <= i < |user.roles| :: IsUtf8(user.roles[i])
  }

  ghost predicate Utf8Role(role: Role) {
    IsUtf8(role.key) && IsUtf8(role.displayName)
  }

  ghost predicate Utf8Run(run: Run) {
    && IsUtf8(run.id) && IsUtf8(run.workflow) && IsUtf8(run.state) && IsUtf8(run.createdAt) && IsUtf8(run.updatedAt)
    && IsUtf8(run.leaseState) && IsUtf8(run.leaseExpiresAt) && IsUtf8(run.nextWakeAt)
  }

  ghost predicate Utf8Task(task: Task) {
    && IsUtf8(task.id) && IsUtf8(task.runId) && IsUtf8(task.code) && IsUtf8(task.state)
    && IsUtf8(task.nextAttemptAt) && IsUtf8(task.errorCode) && IsUtf8(task.leaseState)
    && IsUtf8(task.leaseExpiresAt) && IsUtf8(task.recoveryState)
  }

  ghost predicate Utf8Plan(plan: QuotaPlan) {
    && IsUtf8(plan.code) && IsUtf8(plan.effectiveAt)
    && forall name | name in plan.limits :: IsUtf8(name) && IsUtf8(plan.limits[name])
  }

  ghost predicate Utf8Value(value: Value) {
    match value
    case EntityValue(entity) => Utf8Entity(entity)
    case PlanValue(plan) =>
      && IsUtf8(plan.code) && IsUtf8(plan.impactSummary)
      && forall i | 0 <= i < |plan.dependencies| :: IsUtf8(plan.dependencies[i])
    case ReceiptValue(receipt) => IsUtf8(receipt.code) && IsUtf8(receipt.deletedAt)
    case UserValue(user) => Utf8User(user)
    case RoleValue(role) => Utf8Role(role)
    case RunValue(run) => Utf8Run(run)
    case QuotaValue(plan) => Utf8Plan(plan)
  }

  ghost predicate Utf8Details(details: Details) {
    match details
    case StatusDetails(status, _) => IsUtf8(status)
    case RoleDetails(role, _) => IsUtf8(role)
    case _ => true
  }

  ghost predicate Utf8Audit(audit: Audit) {
    && IsUtf8(audit.id) && IsUtf8(audit.targetType) && IsUtf8(audit.targetId) && IsUtf8(audit.occurredAt)
    && Utf8Details(audit.details)
  }

  // ---------------------------------------------------------------- the state

  ghost predicate Utf8Resources(s: State) {
    && (forall code | code in s.entities :: IsUtf8(code) && Utf8Entity(s.entities[code]))
    && (forall id | id in s.users :: IsUtf8(id) && Utf8User(s.users[id]))
    && (forall key | key in s.roles :: IsUtf8(key) && Utf8Role(s.roles[key]))
    && Utf8Run(s.run) && Utf8Task(s.task) && Utf8Plan(s.plan)
  }

  ghost predicate Utf8State(s: State) {
    && Utf8Resources(s)
    && (forall key | key in s.idempotency :: IsUtf8(key) && Utf8Value(s.idempotency[key].value))
    && (forall i | 0 <= i < |s.audits| :: Utf8Audit(s.audits[i]))
  }

  /** What decoding a body gives, and what the clock gives. */
  ghost predicate Utf8Body(body: Body) {
    && IsUtf8(body.confirmation) && IsUtf8(body.idempotencyKey) && IsUtf8(body.displayName) && IsUtf8(body.email)
    && IsUtf8(body.id) && IsUtf8(body.key) && IsUtf8(body.status) && Utf8Entity(body.entity) && Utf8Plan(body.plan)
  }

  ghost predicate Utf8Request(request: Request) {
    && (request.content.Decoded? ==> Utf8Body(request.content.body))
    && IsUtf8(request.clock.changedAt) && IsUtf8(request.clock.auditStamp) && IsUtf8(request.clock.auditedAt)
  }

  // ---------------------------------------------------------------- changes

  ghost predicate Utf8Change(change: Change) {
    match change
    case StoreEntity(code, entity, _) => IsUtf8(code) && Utf8Entity(entity)
    case ReviewDeletion(code, _) => IsUtf8(code)
    case RemoveEntity(code, _, at) => IsUtf8(code) && IsUtf8(at)
    case AddUser(user) => Utf8User(user)
    case SetStatus(id, user) => IsUtf8(id) && Utf8User(user)
    case AddRole(role) => Utf8Role(role)
    case RenameRole(key, role) => IsUtf8(key) && Utf8Role(role)
    case AssignRole(id, user, key) => IsUtf8(id) && Utf8User(user) && IsUtf8(key)
    case RevokeRole(id, user, key) => IsUtf8(id) && Utf8User(user) && IsUtf8(key)
    case Cancel(run) => Utf8Run(run)
    case Retry(run, task) => Utf8Run(run) && Utf8Task(task)
    case Publish(plan) => Utf8Plan(plan)
  }

  lemma Utf8Roles(roles: seq<string>, key: string, assign: bool)
    requires IsUtf8(key) && forall i | 0 <= i < |roles| :: IsUtf8(roles[i])
    ensures forall i | 0 <= i < |Changed(roles, key, assign)| :: IsUtf8(Changed(roles, key, assign)[i])
  {
    ChangeIsSetChange(roles, key);
    var changed := Changed(roles, key, assign);
    forall i | 0 <= i < |changed| ensures IsUtf8(changed[i]) {
      assert changed[i] in Elements(changed);
      assert changed[i] == key || changed[i] in Elements(roles);
    }
  }

  lemma PrintableIsUtf8(text: string)
    requires V.Printable(text)
    ensures IsUtf8(text)
  {
    AsciiIsUtf8(text);
  }

  lemma WordsAreUtf8()
    ensures IsUtf8("cancelled") && IsUtf8("running") && IsUtf8("none") && IsUtf8("")
    ensures IsUtf8(ACTIVE) && IsUtf8(DISABLED)
  {
    PrintableIsUtf8("cancelled");
    PrintableIsUtf8("running");
    PrintableIsUtf8("none");
    PrintableIsUtf8("");
    PrintableIsUtf8(ACTIVE);
    PrintableIsUtf8(DISABLED);
  }

  /** A change takes its texts from the state, the request and the clock. An identifier in a path is
      one of the state's. */
  lemma ChangeIsUtf8(s: State, request: Request)
    requires Utf8Resources(s) && Utf8Request(request) && Fresh(s, request)
    ensures Utf8Change(ChangeMade(s, request))
  {
    V.ChangeIsFromRequest(s, request);
    FreshIsLegal(s, request);
    KeyIsKnown(s, request);
    LegalIsUtf8(s, ChangeMade(s, request), request);
  }

  lemma KeyIsKnown(s: State, request: Request)
    requires Fresh(s, request)
    ensures match ChangeMade(s, request)
            case StoreEntity(code, entity, _) => code == entity.code
            case _ => true
  {
    FreshIsLegal(s, request);
  }

  lemma LegalIsUtf8(s: State, change: Change, request: Request)
    requires Utf8Resources(s) && Utf8Request(request) && Legal(s, change)
    requires request.content.Decoded? && V.FromRequest(change, request)
    ensures Utf8Change(change)
  {
    WordsAreUtf8();
    match change
    case StoreEntity(code, entity, _) => assert entity.fields == request.content.body.entity.fields;
    case SetStatus(id, user) => assert Utf8User(s.users[id]);
    case RenameRole(key, role) => assert Utf8Role(s.roles[key]);
    case AssignRole(id, user, key) =>
      assert Utf8User(s.users[id]);
      Utf8Roles(s.users[id].roles, key, true);
    case RevokeRole(id, user, key) =>
      assert Utf8User(s.users[id]);
      Utf8Roles(s.users[id].roles, key, false);
    case _ =>
  }

  lemma ApplyKeepsUtf8(s: State, change: Change)
    requires Utf8Resources(s) && Utf8Change(change)
    ensures Utf8Resources(Apply(s, change))
  {
  }

  lemma SummaryIsUtf8()
    ensures IsUtf8(IMPACT_SUMMARY)
  {
    var head, rest := "The local provider found no ", "dependent metadata definitions.";
    assert V.Printable(head) && V.Printable(rest);
    assert V.Printable(head + rest);
    PrintableIsUtf8(head + rest);
  }

  lemma ValueIsUtf8(change: Change)
    requires Utf8Change(change)
    ensures Utf8Value(ValueOf(change))
  {
    SummaryIsUtf8();
  }

  lemma {:induction false} Utf8Concat(a: string, b: string)
    requires IsUtf8(a) && IsUtf8(b)
    ensures IsUtf8(a + b)
  {
    if a == [] {
      assert a + b == b;
    } else {
      assert Broken(a) == 0;
      WidthOfPrefix(a, a[Width(a)..] + b);
      assert a[..Width(a)] + (a[Width(a)..] + b) == a + b;
      Utf8Concat(a[Width(a)..], b);
      assert (a + b)[Width(a)..] == a[Width(a)..] + b;
    }
  }

  lemma AuditIsUtf8(change: Change, clock: Clock)
    requires Utf8Change(change) && EntryOf(change).Some?
    requires IsUtf8(clock.auditStamp) && IsUtf8(clock.auditedAt)
    ensures Utf8Audit(AuditOf(EntryOf(change).value, clock))
  {
    PrintableIsUtf8("audit-local-");
    PrintableIsUtf8("metadata_entity");
    Utf8Concat("audit-local-", clock.auditStamp);
  }

  lemma CommitKeepsUtf8(s: State, key: string, change: Change, clock: Clock)
    requires Utf8State(s) && IsUtf8(key) && Utf8Change(change)
    requires IsUtf8(clock.auditStamp) && IsUtf8(clock.auditedAt)
    ensures Utf8State(Commit(s, key, change, clock))
  {
    ApplyKeepsUtf8(s, change);
    ValueIsUtf8(change);
    if EntryOf(change).Some? {
      AuditIsUtf8(change, clock);
    }
    RecordsAndLogUtf8(s, key, change, clock);
  }

  lemma RecordsAndLogUtf8(s: State, key: string, change: Change, clock: Clock)
    requires Utf8State(s) && IsUtf8(key) && Utf8Value(ValueOf(change)) && Utf8Resources(Apply(s, change))
    requires EntryOf(change).Some? ==> Utf8Audit(AuditOf(EntryOf(change).value, clock))
    ensures Utf8State(Commit(s, key, change, clock))
  {
  }

  lemma ServeKeepsUtf8(s: State, request: Request)
    requires Utf8State(s) && Utf8Request(request)
    ensures Utf8State(Serve(s, request).0)
  {
    StepCases(s, request);
    if Fresh(s, request) {
      ChangeIsUtf8(s, request);
      CommitKeepsUtf8(s, KeyOf(request), ChangeMade(s, request), request.clock);
    }
  }

  // ---------------------------------------------------------------- runs

  lemma FirstEntityIsUtf8()
    ensures Utf8Entity(SeedEntity()) && IsUtf8("orders")
  {
    var entity := SeedEntity();
    PrintableIsUtf8(entity.code);
    PrintableIsUtf8(entity.name);
    PrintableIsUtf8(entity.kind);
    PrintableIsUtf8("id");
    PrintableIsUtf8("uuid");
    PrintableIsUtf8("status");
    PrintableIsUtf8("string");
  }

  lemma SampleKeyIsUtf8(i: nat)
    requires i < |SAMPLE_ROLE_KEYS|
    ensures IsUtf8(SAMPLE_ROLE_KEYS[i])
  {
    V.KeyIsPrintable(SAMPLE_ROLE_KEYS[i]);
    PrintableIsUtf8(SAMPLE_ROLE_KEYS[i]);
  }

  lemma SampleKeysAreUtf8()
    ensures forall i | 0 <= i < |SAMPLE_ROLE_KEYS| :: IsUtf8(SAMPLE_ROLE_KEYS[i])
  {
    forall i | 0 <= i < |SAMPLE_ROLE_KEYS| ensures IsUtf8(SAMPLE_ROLE_KEYS[i]) {
      SampleKeyIsUtf8(i);
    }
  }

  lemma FirstUserIsUtf8()
    ensures Utf8User(SeedUser()) && IsUtf8("local-admin")
  {
    PrintableIsUtf8("local-admin");
    PrintableIsUtf8("Local Studio Administrator");
    PrintableIsUtf8("admin@example.com");
    WordsAreUtf8();
    SampleKeysAreUtf8();
  }

  lemma FirstWordsAreUtf8()
    ensures IsUtf8("run-001") && IsUtf8("task-001") && IsUtf8("local-order-processing")
    ensures IsUtf8("validate-order") && IsUtf8(SAMPLE_TIME)
  {
    PrintableIsUtf8("run-001");
    PrintableIsUtf8("task-001");
    PrintableIsUtf8("local-order-processing");
    PrintableIsUtf8("validate-order");
    PrintableIsUtf8(SAMPLE_TIME);
  }

  lemma FirstRunIsUtf8()
    ensures Utf8Run(SeedRun())
  {
    FirstWordsAreUtf8();
    WordsAreUtf8();
  }

  lemma FirstTaskIsUtf8()
    ensures Utf8Task(SeedTask())
  {
    FirstWordsAreUtf8();
    WordsAreUtf8();
  }

  lemma FirstPlanIsUtf8()
    ensures Utf8Plan(SeedPlan())
  {
    PrintableIsUtf8(SeedPlan().code);
    PrintableIsUtf8(SAMPLE_TIME);
    FirstLimitsAreUtf8();
  }

  lemma FirstLimitsAreUtf8()
    ensures IsUtf8("requests") && IsUtf8("1000")
  {
    PrintableIsUtf8("requests");
    PrintableIsUtf8("1000");
  }

  lemma FirstAuditIsUtf8()
    ensures forall i | 0 <= i < |InitialState().audits| :: Utf8Audit(InitialState().audits[i])
  {
    PrintableIsUtf8("audit-001");
    PrintableIsUtf8("session");
    PrintableIsUtf8("local-session");
    PrintableIsUtf8(SAMPLE_TIME);
  }

  lemma FirstStateIsUtf8()
    ensures Utf8State(InitialState())
  {
    FirstEntityIsUtf8();
    FirstUserIsUtf8();
    FirstRunIsUtf8();
    FirstTaskIsUtf8();
    FirstPlanIsUtf8();
    FirstAuditIsUtf8();
    forall key | key in InitialState().roles ensures IsUtf8(key) && Utf8Role(InitialState().roles[key]) {
      var i :| 0 <= i < |SAMPLE_ROLE_KEYS| && SAMPLE_ROLE_KEYS[i] == key;
      SampleKeyIsUtf8(i);
    }
  }

  /** The bound variable keeps the state folded in the induction. */
  ghost predicate Utf8At(run: History, n: nat)
    requires n <= |run.requests|
  {
    forall s | s == run.states[n] :: Utf8State(s)
  }

  lemma Utf8Start(run: History)
    ensures Utf8At(run, 0)
  {
    FirstStateIsUtf8();
    assert run.states[0] == InitialState();
  }

  ghost predicate DecodedAt(run: History, i: nat)
    requires i < |run.requests|
  {
    Utf8Request(run.requests[i])
  }

  /** Every body of the run came through JSON. */
  ghost predicate DecodedRun(run: History) {
    forall i: nat | i < |run.requests| :: DecodedAt(run, i)
  }

  lemma Utf8Step(run: History, n: nat)
    requires n < |run.requests| && Utf8At(run, n) && DecodedRun(run)
    ensures Utf8At(run, n + 1)
  {
    assert DecodedAt(run, n);
    StepHolds(run, n);
    ServeKeepsUtf8(run.states[n], run.requests[n]);
  }

  /** Every text of every state of every run of decoded requests is UTF-8, whoever sent them and
      whatever identifiers their paths held. */
  lemma {:induction false} AlwaysUtf8(run: History, n: nat)
    requires n <= |run.requests| && DecodedRun(run)
    ensures Utf8At(run, n)
    decreases n
  {
    if n == 0 {
      Utf8Start(run);
    } else {
      AlwaysUtf8(run, n - 1);
      Utf8Step(run, n - 1);
    }
  }
}
