/** The audit log is complete: folding it over the seeded tables rebuilds every version, status
    and role set, and its length accounts for every recorded key. */
module AuditReplay {
  import opened Text
  import opened Sorting
  import opened RoleList
  import opened ProviderModel
  import opened Runs
  import opened Reachable

  datatype UserView = UserView(status: string, roles: set<string>, version: int)

  /** What the audit log determines about the state. */
  datatype View = View(entities: map<string, int>, users: map<string, UserView>,
                       roles: map<string, int>, plan: int, run: int, task: int, attempt: int)

  function ViewOfUser(user: User): UserView {
    UserView(user.status, Elements(user.roles), user.version)
  }

  function ViewOf(s: State): View {
    View(map code | code in s.entities :: s.entities[code].version,
         map id | id in s.users :: ViewOfUser(s.users[id]),
         map key | key in s.roles :: s.roles[key].version,
         s.plan.version, s.run.version, s.task.version, s.task.attempt)
  }

  /** Reads one audit entry, using nothing but its action, target and details. */
  function Replay(v: View, audit: Audit): View {
    var target := audit.targetId;
    match (audit.action, audit.details)
    case (EntityCreated, VersionDetails(n)) => v.(entities := v.entities[target := n])
    case (EntityUpdated, VersionDetails(n)) => v.(entities := v.entities[target := n])
    case (EntityDeleted, DeletedDetails(_)) => v.(entities := v.entities - {target})
    case (UserCreated, VersionDetails(n)) => v.(users := v.users[target := UserView(ACTIVE, {}, n)])
    case (UserStatusSet, StatusDetails(status, n)) =>
      if target in v.users
      then v.(users := v.users[target := UserView(status, v.users[target].roles, n)]) else v
    case (RoleAssigned, RoleDetails(key, n)) =>
      if target in v.users
      then v.(users := v.users[target := UserView(v.users[target].status, v.users[target].roles + {key}, n)])
      else v
    case (RoleRevoked, RoleDetails(key, n)) =>
      if target in v.users
      then v.(users := v.users[target := UserView(v.users[target].status, v.users[target].roles - {key}, n)])
      else v
    case (RoleCreated, VersionDetails(n)) => v.(roles := v.roles[target := n])
    case (RoleUpdated, VersionDetails(n)) => v.(roles := v.roles[target := n])
    case (RunCancelled, VersionDetails(n)) => v.(run := n)
    case (TaskRetried, VersionDetails(n)) => v.(task := n, attempt := n, run := v.run + 1)
    case (PlanPublished, VersionDetails(n)) => v.(plan := n)
    case _ => v
  }

  function ReplayAll(v: View, audits: seq<Audit>): View {
    if audits == [] then v
    else Replay(ReplayAll(v, audits[..|audits| - 1]), audits[|audits| - 1])
  }

  lemma ReplayOneMore(v: View, audits: seq<Audit>, audit: Audit)
    ensures ReplayAll(v, audits + [audit]) == Replay(ReplayAll(v, audits), audit)
  {
    assert (audits + [audit])[..|audits|] == audits;
  }

  /** The audit entry that `change` writes. */
  predicate Records(audit: Audit, change: Change) {
    match EntryOf(change)
    case None => false
    case Some(entry) =>
      audit.action == entry.action && audit.targetId == entry.target && audit.details == entry.details
  }

  lemma EntryTellsUser(s: State, change: Change, audit: Audit)
    requires Legal(s, change) && Records(audit, change)
    requires change.AddUser? || change.SetStatus?
    ensures ViewOf(Apply(s, change)) == Replay(ViewOf(s), audit)
  {
    assert change.AddUser? ==> Elements(change.user.roles) == {};
    assert ViewOf(Apply(s, change)).users == Replay(ViewOf(s), audit).users;
  }

  /** The view of a user whose roles were changed by one key. */
  lemma ChangedUserViewed(s: State, change: Change)
    requires Legal(s, change) && (change.AssignRole? || change.RevokeRole?)
    ensures var before := ViewOfUser(s.users[change.id]);
            ViewOfUser(change.user)
            == UserView(before.status,
                        if change.AssignRole? then before.roles + {change.key} else before.roles - {change.key},
                        before.version + 1)
  {
    ChangeIsSetChange(s.users[change.id].roles, change.key);
  }

  lemma EntryTellsUserRoles(s: State, change: Change, audit: Audit)
    requires Legal(s, change) && Records(audit, change)
    requires change.AssignRole? || change.RevokeRole?
    ensures ViewOf(Apply(s, change)) == Replay(ViewOf(s), audit)
  {
    ChangedUserViewed(s, change);
    assert ViewOf(s).users[change.id] == ViewOfUser(s.users[change.id]);
    assert Replay(ViewOf(s), audit).users == ViewOf(s).users[change.id := ViewOfUser(change.user)];
    assert ViewOf(Apply(s, change)).users == ViewOf(s).users[change.id := ViewOfUser(change.user)];
  }

  lemma EntryTellsRole(s: State, change: Change, audit: Audit)
    requires Legal(s, change) && Records(audit, change)
    requires change.AddRole? || change.RenameRole?
    ensures ViewOf(Apply(s, change)) == Replay(ViewOf(s), audit)
  {
    assert ViewOf(Apply(s, change)).roles == Replay(ViewOf(s), audit).roles;
  }

  lemma EntryTellsEntity(s: State, change: Change, audit: Audit)
    requires Legal(s, change) && Records(audit, change)
    requires change.StoreEntity? || change.RemoveEntity?
    ensures ViewOf(Apply(s, change)) == Replay(ViewOf(s), audit)
  {
    assert ViewOf(Apply(s, change)).entities == Replay(ViewOf(s), audit).entities;
  }

  /** A change and its audit entry say the same. */
  lemma EntryTellsChange(s: State, change: Change, audit: Audit)
    requires Legal(s, change) && Records(audit, change) && s.task.attempt == s.task.version
    ensures ViewOf(Apply(s, change)) == Replay(ViewOf(s), audit)
  {
    match change
    case StoreEntity(_, _, _) => EntryTellsEntity(s, change, audit);
    case RemoveEntity(_, _, _) => EntryTellsEntity(s, change, audit);
    case AddUser(_) => EntryTellsUser(s, change, audit);
    case SetStatus(_, _) => EntryTellsUser(s, change, audit);
    case AssignRole(_, _, _) => EntryTellsUserRoles(s, change, audit);
    case RevokeRole(_, _, _) => EntryTellsUserRoles(s, change, audit);
    case AddRole(_) => EntryTellsRole(s, change, audit);
    case RenameRole(_, _) => EntryTellsRole(s, change, audit);
    case _ =>
  }

  lemma CommitReplays(s: State, key: string, change: Change, clock: Clock, start: View)
    requires Legal(s, change) && s.task.attempt == s.task.version
    requires ViewOf(s) == ReplayAll(start, s.audits)
    ensures ViewOf(Commit(s, key, change, clock)) == ReplayAll(start, Commit(s, key, change, clock).audits)
    ensures Commit(s, key, change, clock).task.attempt == Commit(s, key, change, clock).task.version
  {
    assert ViewOf(Commit(s, key, change, clock)) == ViewOf(Apply(s, change));
    match EntryOf(change)
    case None =>
    case Some(entry) =>
      EntryTellsChange(s, change, AuditOf(entry, clock));
      ReplayOneMore(start, s.audits, AuditOf(entry, clock));
  }

  lemma ServeReplays(s: State, request: Request, start: View)
    requires s.task.attempt == s.task.version && ViewOf(s) == ReplayAll(start, s.audits)
    ensures var t := Serve(s, request).0;
            t.task.attempt == t.task.version && ViewOf(t) == ReplayAll(start, t.audits)
  {
    StepCases(s, request);
    if Fresh(s, request) {
      FreshIsLegal(s, request);
      CommitReplays(s, KeyOf(request), ChangeMade(s, request), request.clock, start);
    }
  }

  /** Replaying the log over the seeded tables gives exactly the current state's view. */
  lemma {:induction false} ReplayRebuilds(run: History, n: nat)
    requires n <= |run.requests|
    ensures ViewOf(run.states[n]) == ReplayAll(ViewOf(InitialState()), run.states[n].audits)
    ensures run.states[n].task.attempt == run.states[n].task.version
    decreases n
  {
    if n == 0 {
      var login := InitialState().audits;
      assert login[..|login| - 1] == [];
    } else {
      ReplayRebuilds(run, n - 1);
      StepHolds(run, n - 1);
      ServeReplays(run.states[n - 1], run.requests[n - 1], ViewOf(InitialState()));
    }
  }

  // ---------------------------------------------------------------- counting

  function Count(audits: seq<Audit>, action: Action): nat {
    if audits == [] then 0
    else Count(audits[..|audits| - 1], action) + if audits[|audits| - 1].action == action then 1 else 0
  }

  lemma CountOneMore(audits: seq<Audit>, audit: Audit, action: Action)
    ensures Count(audits + [audit], action) == Count(audits, action) + if audit.action == action then 1 else 0
  {
    assert (audits + [audit])[..|audits|] == audits;
  }

  /** The deletion previews that took effect among the first `n` requests. */
  function FreshPreviews(run: History, n: nat): nat
    requires n <= |run.requests|
  {
    if n == 0 then 0
    else FreshPreviews(run, n - 1)
         + if Fresh(run.states[n - 1], run.requests[n - 1])
              && ChangeMade(run.states[n - 1], run.requests[n - 1]).ReviewDeletion? then 1 else 0
  }

  /** Workflow and plan versions are counts of audit entries. */
  ghost predicate CountsAgree(s: State) {
    && s.run.version == 1 + Count(s.audits, RunCancelled) + Count(s.audits, TaskRetried)
    && s.task.version == s.task.attempt == 1 + Count(s.audits, TaskRetried)
    && s.plan.version == 1 + Count(s.audits, PlanPublished)
  }

  lemma CommitKeepsCounts(s: State, key: string, change: Change, clock: Clock)
    requires Legal(s, change) && CountsAgree(s)
    ensures CountsAgree(Commit(s, key, change, clock))
  {
    match EntryOf(change)
    case None =>
    case Some(entry) =>
      CountOneMore(s.audits, AuditOf(entry, clock), RunCancelled);
      CountOneMore(s.audits, AuditOf(entry, clock), TaskRetried);
      CountOneMore(s.audits, AuditOf(entry, clock), PlanPublished);
  }

  /** Every recorded key has its audit entry, except the keys of deletion previews. */
  lemma {:induction false} LogAccounts(run: History, n: nat)
    requires n <= |run.requests|
    ensures CountsAgree(run.states[n])
    ensures |run.states[n].idempotency| == |run.states[n].audits| - 1 + FreshPreviews(run, n)
    decreases n
  {
    if n == 0 {
      var login := InitialState().audits;
      assert login[..|login| - 1] == [];
      assert forall action | action != LoggedIn :: Count(login, action) == 0;
    } else {
      LogAccounts(run, n - 1);
      var s, request := run.states[n - 1], run.requests[n - 1];
      StepHolds(run, n - 1);
      StepCases(s, request);
      if Fresh(s, request) {
        FreshIsLegal(s, request);
        CommitKeepsCounts(s, KeyOf(request), ChangeMade(s, request), request.clock);
      }
    }
  }
}
