/** What every run of the provider keeps, whatever the requests: the shape of the stored
    resources, the sorted role lists and the immutable system roles. */
module Reachable {
  import opened Text
  import opened Sorting
  import opened RoleList
  import opened Routing
  import opened ProviderModel
  import opened Runs

  /** How an accepted change relates to the state it was accepted in. */
  predicate Legal(s: State, change: Change) {
    match change
    case StoreEntity(code, entity, existed) =>
      && entity.code == code && existed == (code in s.entities)
      && entity.version == 1 + if existed then s.entities[code].version else 0
    case ReviewDeletion(code, version) => code in s.entities && s.entities[code].version == version
    case RemoveEntity(code, version, _) => code in s.entities && s.entities[code].version == version
    case AddUser(user) => user.id !in s.users && user.roles == [] && user.status == ACTIVE && user.version == 1
    case SetStatus(id, user) =>
      id in s.users && user == s.users[id].(status := user.status, version := s.users[id].version + 1)
    case AddRole(role) => role.key !in s.roles && !role.system && role.version == 1
    case RenameRole(key, role) =>
      && key in s.roles && !s.roles[key].system
      && role == s.roles[key].(displayName := role.displayName, version := s.roles[key].version + 1)
    case AssignRole(id, user, key) =>
      && id in s.users && key in s.roles
      && user == s.users[id].(roles := Changed(s.users[id].roles, key, true), version := s.users[id].version + 1)
    case RevokeRole(id, user, key) =>
      && id in s.users && key in s.roles
      && user == s.users[id].(roles := Changed(s.users[id].roles, key, false), version := s.users[id].version + 1)
    case Cancel(run) =>
      run == s.run.(state := "cancelled", version := s.run.version + 1, updatedAt := run.updatedAt,
                    leaseState := "none", leaseExpiresAt := "")
    case Retry(run, task) =>
      && run == s.run.(state := "running", version := s.run.version + 1, updatedAt := run.updatedAt)
      && task == s.task.(state := "running", attempt := s.task.attempt + 1, version := s.task.version + 1)
    case Publish(plan) => plan.version == s.plan.version + 1
  }

  lemma FreshIsLegal(s: State, request: Request)
    requires Fresh(s, request)
    ensures Legal(s, ChangeMade(s, request))
  {
    match request.route
    case UpdateEntity =>
    case PlanDeletion =>
    case DeleteEntity =>
    case CreateUser =>
    case SetUserStatus =>
    case CreateRole =>
    case UpdateRole =>
    case ChangeUserRole =>
    case CancelRun =>
    case RetryTask =>
    case PublishPlan =>
  }

  /** Each user's role list is strictly sorted and names existing roles; the system roles are
      exactly the seeded ones, untouched; every resource is stored under its own identifier. */
  ghost predicate Consistent(s: State) {
    && (forall id | id in s.users :: UserConsistent(s, id))
    && (forall key | key in s.roles :: s.roles[key].key == key && (s.roles[key].system <==> key in SAMPLE_ROLE_KEYS))
    && (forall key | key in SAMPLE_ROLE_KEYS :: key in s.roles && s.roles[key] == Role(key, key, true, 1))
    && (forall code | code in s.entities :: s.entities[code].code == code)
  }

  ghost predicate UserConsistent(s: State, id: string)
    requires id in s.users
  {
    && s.users[id].id == id
    && StrictlySorted(s.users[id].roles)
    && Elements(s.users[id].roles) <= s.roles.Keys
  }

  lemma RoleChangeKeepsConsistent(s: State, change: Change)
    requires Consistent(s) && Legal(s, change) && (change.AssignRole? || change.RevokeRole?)
    ensures Consistent(Apply(s, change))
  {
    var (id, key) := match change
      case AssignRole(id, _, key) => (id, key)
      case RevokeRole(id, _, key) => (id, key);
    ChangeIsSetChange(s.users[id].roles, key);
    assert UserConsistent(s, id);
    var t := Apply(s, change);
    forall other | other in t.users ensures UserConsistent(t, other) {
      assert UserConsistent(s, other);
    }
  }

  lemma OtherChangeKeepsConsistent(s: State, change: Change)
    requires Consistent(s) && Legal(s, change) && !change.AssignRole? && !change.RevokeRole?
    ensures Consistent(Apply(s, change))
  {
    var t := Apply(s, change);
    assert s.roles.Keys <= t.roles.Keys;
    forall id | id in t.users ensures UserConsistent(t, id) {
      assert id in s.users ==> UserConsistent(s, id);
    }
  }

  lemma ApplyKeepsConsistent(s: State, change: Change)
    requires Consistent(s) && Legal(s, change)
    ensures Consistent(Apply(s, change))
  {
    if change.AssignRole? || change.RevokeRole? {
      RoleChangeKeepsConsistent(s, change);
    } else {
      OtherChangeKeepsConsistent(s, change);
    }
  }

  lemma InitialConsistent()
    ensures Consistent(InitialState())
  {
    SampleRolesSorted();
    var s := InitialState();
    assert forall id | id in s.users :: UserConsistent(s, id);
  }

  lemma ServeKeepsConsistent(s: State, request: Request)
    requires Consistent(s)
    ensures Consistent(Serve(s, request).0)
  {
    StepCases(s, request);
    if Fresh(s, request) {
      FreshIsLegal(s, request);
      ApplyKeepsConsistent(s, ChangeMade(s, request));
      ConsistentIgnoresLogs(Apply(s, ChangeMade(s, request)), Serve(s, request).0);
    }
  }

  lemma {:induction false} AlwaysConsistent(run: History, n: nat)
    requires n <= |run.requests|
    ensures Consistent(run.states[n])
    decreases n
  {
    if n == 0 {
      InitialConsistent();
    } else {
      AlwaysConsistent(run, n - 1);
      StepHolds(run, n - 1);
      ServeKeepsConsistent(run.states[n - 1], run.requests[n - 1]);
    }
  }

  lemma ConsistentIgnoresLogs(s: State, t: State)
    requires Consistent(s) && t.users == s.users && t.roles == s.roles && t.entities == s.entities
    ensures Consistent(t)
  {
    assert forall id | id in t.users :: UserConsistent(s, id) ==> UserConsistent(t, id);
  }

  lemma SampleRolesSorted()
    ensures StrictlySorted(SAMPLE_ROLE_KEYS)
  {
    var keys := SAMPLE_ROLE_KEYS;
    assert PrecedesAt(keys[0], keys[1], 0);
    assert PrecedesAt(keys[1], keys[2], 7);
    assert PrecedesAt(keys[2], keys[3], 16);
    assert PrecedesAt(keys[3], keys[4], 16);
    assert PrecedesAt(keys[4], keys[5], 7);
    assert PrecedesAt(keys[5], keys[6], 13);
    assert PrecedesAt(keys[6], keys[7], 7);
    assert PrecedesAt(keys[7], keys[8], 16);
    AdjacentSorted(keys);
  }

  lemma {:induction false} AdjacentSorted(s: seq<string>)
    requires forall i | 0 <= i < |s| - 1 :: Less(s[i], s[i + 1])
    ensures StrictlySorted(s)
  {
    forall i, j | 0 <= i < j < |s| ensures Less(s[i], s[j]) {
      Ascending(s, i, j);
    }
  }

  lemma {:induction false} Ascending(s: seq<string>, i: nat, j: nat)
    requires i < j < |s|
    requires forall i | 0 <= i < |s| - 1 :: Less(s[i], s[i + 1])
    ensures Less(s[i], s[j])
    decreases j
  {
    if i < j - 1 {
      Ascending(s, i, j - 1);
      LessTransitive(s[i], s[j - 1], s[j]);
    }
  }
}
