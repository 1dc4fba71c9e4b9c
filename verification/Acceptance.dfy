/** What clients store and then read again: over every run of client calls, a stored value passes the
    client's validator exactly when the call that brought its texts still fit after it went through
    JSON. The provider keeps no bound on texts itself. */
module Acceptance {
  import opened Text
  import opened Escaping
  import opened Utf8
  import opened Sorting
  import opened RoleList
  import opened Routing
  import opened ProviderModel
  import opened Reachable
  import opened Runs
  import opened ClientPaths
  import opened RoundTrip
  import opened Validators
  import Versions

  ghost predicate ClientAt(lib: Library, run: History, i: nat)
    requires i < |run.requests|
  {
    FromClient(lib, run.requests[i])
  }

  /** Every request of the run comes from a client. */
  ghost predicate ClientRun(lib: Library, run: History) {
    forall i: nat | i < |run.requests| :: ClientAt(lib, run, i)
  }

  /** The run goes on with requests of clients only. */
  ghost predicate GoesOn(lib: Library, run: History, longer: History) {
    && run.requests <= longer.requests
    && forall i: nat | |run.requests| <= i < |longer.requests| :: ClientAt(lib, longer, i)
  }

  function Last(run: History): State {
    run.states[|run.requests|]
  }

  lemma OneRequest(lib: Library, run: History, call: Call, clock: Clock) returns (longer: History)
    requires Sendable(lib, call)
    ensures GoesOn(lib, run, longer) && |longer.requests| == |run.requests| + 1
    ensures Last(longer) == Serve(Last(run), RequestOf(lib, call, clock)).0
  {
    longer := Extend(run, RequestOf(lib, call, clock));
    assert FromCall(lib, call, RequestOf(lib, call, clock));
    assert ClientAt(lib, longer, |run.requests|);
  }

  lemma GoesOnFromStart(lib: Library, run: History, longer: History)
    requires ClientRun(lib, run) && GoesOn(lib, run, longer)
    ensures ClientRun(lib, longer)
  {
    forall i: nat | i < |longer.requests| ensures ClientAt(lib, longer, i) {
      if i < |run.requests| {
        assert ClientAt(lib, run, i) && longer.requests[i] == run.requests[i];
      }
    }
  }

  // ---------------------------------------------------------------- which call brings a change

  /** Texts that are not empty tell the call that brought them. */
  lemma CallOfChange(lib: Library, s: State, call: Call, request: Request)
    requires FromCall(lib, call, request) && Fresh(s, request)
    ensures var change := ChangeMade(s, request);
            && (change.AddUser? ==> call.NewUser?) && (change.AddRole? ==> call.NewRole?)
            && (change.StoreEntity? ==> call.PutEntity?) && (change.Publish? ==> call.PublishQuotaPlan?)
            && (change.RenameRole? ==> call.NewUser? || call.NewRole? || call.EditRole?)
    ensures request.content.Decoded? && request.content.body == BodySeen(lib, call)
  {
    ChangeIsFromRequest(s, request);
    ConfirmationsDiffer();
  }

  /** A renaming comes by PATCH, so from the call that renames. */
  lemma RenamingCall(lib: Library, s: State, call: Call, request: Request)
    requires FromCall(lib, call, request) && Fresh(s, request) && ChangeMade(s, request).RenameRole?
    ensures call.EditRole?
  {
    CallOfChange(lib, s, call, request);
    RenamingRoute(s, request);
    UpdateRoleIsPatch(VerbOf(call), PathSeen(call).value);
  }

  lemma UpdateRoleIsPatch(verb: Verb, path: string)
    requires Dispatch(verb, path) == UpdateRole
    ensures verb == PATCH
  {
  }

  lemma RenamingRoute(s: State, request: Request)
    requires Fresh(s, request) && ChangeMade(s, request).RenameRole?
    ensures request.route == UpdateRole
  {
  }

  // ---------------------------------------------------------------- identifiers from paths

  lemma {:induction false} KeptFromSegments(kept: seq<string>, segments: seq<string>)
    ensures forall segment | segment in Keep(kept, segments) :: segment in kept || segment in segments
    decreases |segments|
  {
    if segments == [] {
    } else if segments[0] == "." {
      KeptFromSegments(kept, segments[1..]);
    } else if segments[0] == ".." {
      KeptFromSegments(if kept == [] then [] else kept[..|kept| - 1], segments[1..]);
    } else {
      KeptFromSegments(kept + [segments[0]], segments[1..]);
    }
  }

  lemma WordIsSafe(word: Word)
    ensures SafePathValue(TextOf(word), 256)
  {
    PrintableIsSafe(TextOf(word), 256);
  }

  lemma SpelledAreSafe(call: Call)
    requires SafeIds(call)
    ensures forall i | 0 <= i < |Spelled(call)| :: SafePathValue(Spelled(call)[i], 256)
  {
    var template := Template(call);
    forall i | 0 <= i < |Spelled(call)| ensures SafePathValue(Spelled(call)[i], 256) {
      if template[i].Fixed? {
        WordIsSafe(template[i].word);
      }
    }
  }

  /** Whatever dot segments do to the path, its parts are words and identifiers of the call. */
  lemma PartsAreSafe(call: Call, path: string)
    requires SafeIds(call) && PathSeen(call) == Some(path)
    ensures forall part | part in PathParts(path) :: part == "" || SafePathValue(part, 256)
  {
    PrintedIsClean(call);
    SpelledAreSafe(call);
    var raws, tail := ResolvedIsKept(Printed(call));
    forall i | 0 <= i < |raws| ensures SafePathValue(raws[i], 256) {
      KeptIsSafe(Printed(call), i, raws[i]);
    }
    SplitPath(raws, tail);
    PartsAreSplit(path);
  }

  lemma KeptIsSafe(printed: seq<string>, i: nat, raw: string)
    requires forall j | 0 <= j < |printed| :: Clean(printed[j])
    requires forall j | 0 <= j < |printed| :: SafePathValue(Raws(printed)[j], 256)
    requires i < |Keep([], printed)| && Unescape(Keep([], printed)[i]) == Some(raw)
    ensures SafePathValue(raw, 256)
  {
    KeptFromSegments([], printed);
    var segment := Keep([], printed)[i];
    assert segment in Keep([], printed);
    var j :| 0 <= j < |printed| && printed[j] == segment;
    assert Unescape(printed[j]) == Some(Raws(printed)[j]);
  }

  lemma SplitPath(raws: seq<string>, tail: string)
    requires forall i | 0 <= i < |raws| :: '/' !in raws[i]
    requires tail == "" || (tail == "/" && raws != [])
    ensures forall part | part in Split("/" + (Join(raws, '/') + tail), '/') :: part == "" || part in raws
  {
    var seen := Join(raws, '/') + tail;
    assert "/" + seen == "" + ['/'] + seen;
    SplitHead("", seen, '/');
    if raws == [] {
      assert seen == "";
    } else if tail == "/" {
      SplitWithTail(raws);
    } else {
      SplitJoin(raws, '/');
      assert seen == Join(raws, '/');
    }
  }

  lemma AssignedKeyIsSafe(lib: Library, s: State, call: Call, request: Request)
    requires FromCall(lib, call, request) && Fresh(s, request) && ChangeMade(s, request).AssignRole?
    ensures ChangeMade(s, request).key == "" || SafePathValue(ChangeMade(s, request).key, 256)
  {
    var path := PathSeen(call).value;
    PartsAreSafe(call, path);
    AssignedKeyIsPart(s, request, path);
  }

  lemma AssignedKeyIsPart(s: State, request: Request, path: string)
    requires Fresh(s, request) && ChangeMade(s, request).AssignRole?
    requires request.target == TargetOf(request.route, path)
    ensures ChangeMade(s, request).key in PathParts(path)
  {
    assert request.route == ChangeUserRole;
  }

  // ---------------------------------------------------------------- what holds of users in client runs

  predicate UserShaped(user: User) {
    && (user.status == ACTIVE || user.status == DISABLED)
    && forall i | 0 <= i < |user.roles| :: SafePathValue(user.roles[i], 256)
  }

  ghost predicate Shaped(s: State) {
    && (forall key | key in s.roles :: key != "")
    && (forall id | id in s.users :: UserShaped(s.users[id]))
  }

  lemma ShapedStart()
    ensures Shaped(InitialState())
  {
    SampleRolesSafe();
    forall key | key in InitialState().roles ensures key != "" {
      var i :| 0 <= i < |SAMPLE_ROLE_KEYS| && SAMPLE_ROLE_KEYS[i] == key;
      SampleRoleKeySafe(i);
    }
  }

  ghost predicate ShapedAt(run: History, n: nat)
    requires n <= |run.requests|
  {
    Shaped(run.states[n])
  }

  lemma ShapedFirst(run: History)
    ensures ShapedAt(run, 0)
  {
    ShapedStart();
    assert run.states[0] == InitialState();
  }

  lemma ShapedApply(s: State, change: Change, request: Request)
    requires Shaped(s) && Legal(s, change) && request.content.Decoded? && FromRequest(change, request)
    requires change.AssignRole? ==> change.key == "" || SafePathValue(change.key, 256)
    ensures Shaped(Apply(s, change))
  {
    match change
    case AssignRole(id, user, key) =>
      assert UserShaped(s.users[id]);
      RolesStaySafe(s.users[id].roles, key, true);
    case RevokeRole(id, user, key) =>
      assert UserShaped(s.users[id]);
      RolesShrinkSafe(s.users[id].roles, key);
    case _ =>
  }

  lemma RolesShrinkSafe(roles: seq<string>, key: string)
    requires forall i | 0 <= i < |roles| :: SafePathValue(roles[i], 256)
    ensures forall i | 0 <= i < |Changed(roles, key, false)| :: SafePathValue(Changed(roles, key, false)[i], 256)
  {
    ChangeIsSetChange(roles, key);
    var changed := Changed(roles, key, false);
    forall i | 0 <= i < |changed| ensures SafePathValue(changed[i], 256) {
      assert changed[i] in Elements(changed);
      assert changed[i] in Elements(roles);
    }
  }

  lemma {:induction false} AlwaysShaped(lib: Library, run: History, n: nat)
    requires n <= |run.requests| && ClientRun(lib, run)
    ensures ShapedAt(run, n)
    decreases n
  {
    if n == 0 {
      ShapedFirst(run);
    } else {
      AlwaysShaped(lib, run, n - 1);
      ShapedStep(lib, run, n - 1);
    }
  }

  lemma ShapedStep(lib: Library, run: History, n: nat)
    requires n < |run.requests| && ClientRun(lib, run) && ShapedAt(run, n)
    ensures ShapedAt(run, n + 1)
  {
    StepHolds(run, n);
    KeyAt(lib, run, n);
    ShapedServe(run.states[n], run.requests[n]);
  }

  ghost predicate SafelyAssigns(s: State, request: Request) {
    Fresh(s, request) && ChangeMade(s, request).AssignRole? ==>
      ChangeMade(s, request).key == "" || SafePathValue(ChangeMade(s, request).key, 256)
  }

  lemma KeyAt(lib: Library, run: History, n: nat)
    requires n < |run.requests| && ClientRun(lib, run)
    ensures SafelyAssigns(run.states[n], run.requests[n])
  {
    assert ClientAt(lib, run, n);
    var s, request := run.states[n], run.requests[n];
    var call :| FromCall(lib, call, request);
    if Fresh(s, request) && ChangeMade(s, request).AssignRole? {
      AssignedKeyIsSafe(lib, s, call, request);
    }
  }

  lemma ShapedServe(s: State, request: Request)
    requires Shaped(s) && SafelyAssigns(s, request)
    ensures Shaped(Serve(s, request).0)
  {
    StepCases(s, request);
    if Fresh(s, request) {
      FreshIsLegal(s, request);
      ChangeIsFromRequest(s, request);
      ShapedApply(s, ChangeMade(s, request), request);
    }
  }

  // ---------------------------------------------------------------- users

  /** What a change does to the resources, without keys and log. */
  lemma ServeApplies(s: State, request: Request)
    ensures var t := Serve(s, request).0;
            var u := if Fresh(s, request) then Apply(s, ChangeMade(s, request)) else s;
            t.users == u.users && t.roles == u.roles && t.entities == u.entities && t.plan == u.plan
    ensures Fresh(s, request) ==> Legal(s, ChangeMade(s, request))
  {
    StepCases(s, request);
    if Fresh(s, request) {
      FreshIsLegal(s, request);
    }
  }

  lemma UserAfter(s: State, change: Change, id: string)
    requires Legal(s, change) && id in Apply(s, change).users
    ensures var user := Apply(s, change).users[id];
            if id in s.users then SameTexts(user, s.users[id]) else change == AddUser(user)
  {
  }

  /** Nothing but its creation gives a user its identifier, name and address. */
  lemma UserMoves(s: State, request: Request, id: string)
    requires id in Serve(s, request).0.users
    ensures var user := Serve(s, request).0.users[id];
            if id in s.users then SameTexts(user, s.users[id])
            else Fresh(s, request) && ChangeMade(s, request) == AddUser(user)
  {
    ServeApplies(s, request);
    if Fresh(s, request) {
      UserAfter(s, ChangeMade(s, request), id);
    }
  }

  lemma TextsKept(run: History, k: nat, id: string)
    requires k < |run.requests| && id in run.states[k].users
    ensures id in run.states[k + 1].users && SameTexts(run.states[k + 1].users[id], run.states[k].users[id])
  {
    StepHolds(run, k);
    UsersStay(run.states[k], run.requests[k], id);
    UserMoves(run.states[k], run.requests[k], id);
  }

  lemma {:induction false} UserTextsStay(run: History, i: nat, n: nat, id: string)
    requires i <= n <= |run.requests| && id in run.states[i].users
    ensures id in run.states[n].users && SameTexts(run.states[n].users[id], run.states[i].users[id])
    decreases n
  {
    if i < n {
      UserTextsStay(run, i, n - 1, id);
      TextsKept(run, n - 1, id);
    }
  }

  /** Where a user appeared. */
  lemma {:induction false} UserAppears(run: History, n: nat, id: string) returns (i: nat)
    requires n <= |run.requests| && id in run.states[n].users && id !in run.states[0].users
    ensures i < n && id !in run.states[i].users
    ensures id in run.states[i + 1].users && SameTexts(run.states[n].users[id], run.states[i + 1].users[id])
    decreases n
  {
    i := n - 1;
    if id in run.states[i].users {
      i := UserAppears(run, n - 1, id);
      TextsKept(run, n - 1, id);
    }
  }

  predicate SameTexts(user: User, other: User) {
    user.id == other.id && user.displayName == other.displayName && user.email == other.email
  }

  lemma UsersStay(s: State, request: Request, id: string)
    requires id in s.users
    ensures id in Serve(s, request).0.users
  {
    ServeApplies(s, request);
  }

  /** A user that was not there at first was brought by one call. */
  lemma UserOrigin(lib: Library, run: History, n: nat, id: string) returns (i: nat, call: Call)
    requires n <= |run.requests| && ClientRun(lib, run)
    requires id in run.states[n].users && id !in InitialState().users
    ensures i < n && FromCall(lib, call, run.requests[i]) && Fresh(run.states[i], run.requests[i])
    ensures call.NewUser? && id == Coerced(call.id)
    ensures SameTexts(run.states[n].users[id], Brought(call))
  {
    assert run.states[0] == InitialState();
    i := UserAppears(run, n, id);
    StepHolds(run, i);
    UserMoves(run.states[i], run.requests[i], id);
    assert ClientAt(lib, run, i);
    call := AddingCall(lib, run.states[i], run.requests[i]);
    AlwaysConsistent(run, n);
    assert UserConsistent(run.states[n], id);
  }

  /** The texts of a new user as they arrive. */
  function Brought(call: Call): User
    requires call.NewUser?
  {
    User(Coerced(call.id), Coerced(call.displayName), Coerced(call.email), ACTIVE, [], 1)
  }

  lemma AddingCall(lib: Library, s: State, request: Request) returns (call: Call)
    requires FromClient(lib, request) && Fresh(s, request) && ChangeMade(s, request).AddUser?
    ensures FromCall(lib, call, request) && call.NewUser?
    ensures SameTexts(ChangeMade(s, request).user, Brought(call))
  {
    call :| FromCall(lib, call, request);
    CallOfChange(lib, s, call, request);
    ChangeIsFromRequest(s, request);
  }

  /** Of a user that a client brought, everything but the length of its texts and roles is fine. */
  lemma UserFits(lib: Library, user: User, call: Call)
    requires call.NewUser? && Accepts(lib, call) && SameTexts(user, Brought(call))
    requires UserShaped(user) && user.version >= 0
    ensures ValidUser(user) <==> CallFits(lib, call) && |user.roles| <= 200
  {
    UserWhenSent(call, lib);
  }

  lemma FirstUser(run: History, id: string)
    requires id in run.states[0].users
    ensures run.states[0].users[id] == SeedUser()
  {
    assert run.states[0] == InitialState();
  }

  /** The first user is accepted exactly as long as it has at most 200 roles. */
  lemma FirstUserAcceptedExactly(lib: Library, run: History, n: nat, id: string)
    requires n <= |run.requests| && ClientRun(lib, run) && id in run.states[0].users
    ensures id in run.states[n].users
    ensures ValidUser(run.states[n].users[id]) <==> |run.states[n].users[id].roles| <= 200
  {
    UserTextsStay(run, 0, n, id);
    FirstUser(run, id);
    SeedUserTexts();
    AlwaysShaped(lib, run, n);
    Versions.VersionsBounded(run, n, Versions.UserNamed(id));
  }

  /** In every state of every run of client calls: a user is accepted by the client exactly when the
      call that created it fits and it has at most 200 roles. */
  lemma UserAcceptedExactly(lib: Library, run: History, n: nat, id: string) returns (i: nat, call: Call)
    requires n <= |run.requests| && ClientRun(lib, run)
    requires id in run.states[n].users && id !in InitialState().users
    ensures i < n && FromCall(lib, call, run.requests[i]) && Fresh(run.states[i], run.requests[i])
    ensures call.NewUser? && id == Coerced(call.id)
    ensures var user := run.states[n].users[id];
            ValidUser(user) <==> CallFits(lib, call) && |user.roles| <= 200
  {
    i, call := UserOrigin(lib, run, n, id);
    AlwaysShaped(lib, run, n);
    Versions.VersionsBounded(run, n, Versions.UserNamed(id));
    UserFits(lib, run.states[n].users[id], call);
  }

  // ---------------------------------------------------------------- roles

  lemma RoleMoves(s: State, request: Request, key: string)
    requires key in Serve(s, request).0.roles
    ensures var role := Serve(s, request).0.roles[key];
            if key !in s.roles then Fresh(s, request) && ChangeMade(s, request) == AddRole(role)
            else role == s.roles[key] || (Fresh(s, request) && ChangeMade(s, request) == RenameRole(key, role)
                                          && role.key == s.roles[key].key)
  {
    ServeApplies(s, request);
  }

  lemma MakingCall(lib: Library, s: State, request: Request) returns (call: Call)
    requires FromClient(lib, request) && Fresh(s, request) && ChangeMade(s, request).AddRole?
    ensures FromCall(lib, call, request) && call.NewRole?
    ensures ChangeMade(s, request).role.key == Coerced(call.roleKey)
    ensures ChangeMade(s, request).role.displayName == Coerced(call.displayName)
  {
    call :| FromCall(lib, call, request);
    CallOfChange(lib, s, call, request);
    ChangeIsFromRequest(s, request);
  }

  lemma NamingCall(lib: Library, s: State, request: Request) returns (call: Call)
    requires FromClient(lib, request) && Fresh(s, request) && ChangeMade(s, request).RenameRole?
    ensures FromCall(lib, call, request) && call.EditRole?
    ensures ChangeMade(s, request).role.displayName == Coerced(call.displayName)
  {
    call :| FromCall(lib, call, request);
    RenamingCall(lib, s, call, request);
    CallOfChange(lib, s, call, request);
    ChangeIsFromRequest(s, request);
  }

  /** The call that made a role and the one that named it last. */
  ghost predicate Makes(lib: Library, call: Call, run: History, i: nat, key: string)
    requires i < |run.requests|
  {
    FromCall(lib, call, run.requests[i]) && Fresh(run.states[i], run.requests[i]) && call.NewRole?
    && Coerced(call.roleKey) == key
  }

  ghost predicate Names(lib: Library, call: Call, run: History, i: nat, name: string)
    requires i < |run.requests|
  {
    FromCall(lib, call, run.requests[i]) && Fresh(run.states[i], run.requests[i])
    && (call.NewRole? || call.EditRole?) && Coerced(call.displayName) == name
  }

  /** Where a role appeared. */
  lemma {:induction false} RoleAppears(run: History, n: nat, key: string) returns (i: nat)
    requires n <= |run.requests| && key in run.states[n].roles && key !in run.states[0].roles
    ensures i < n && key !in run.states[i].roles && key in run.states[i + 1].roles
    decreases n
  {
    i := n - 1;
    if key in run.states[i].roles {
      i := RoleAppears(run, n - 1, key);
    }
  }

  /** Where a role became what it is. */
  lemma {:induction false} RoleSet(run: History, n: nat, key: string) returns (i: nat)
    requires n <= |run.requests| && key in run.states[n].roles && key !in run.states[0].roles
    ensures i < n && key in run.states[i + 1].roles && run.states[i + 1].roles[key] == run.states[n].roles[key]
    ensures key in run.states[i].roles ==> run.states[i].roles[key] != run.states[n].roles[key]
    decreases n
  {
    i := n - 1;
    if key in run.states[i].roles && run.states[i].roles[key] == run.states[n].roles[key] {
      i := RoleSet(run, n - 1, key);
    }
  }

  lemma RoleMaker(lib: Library, run: History, n: nat, key: string) returns (i: nat, maker: Call)
    requires n <= |run.requests| && ClientRun(lib, run)
    requires key in run.states[n].roles && key !in InitialState().roles
    ensures i < n && Makes(lib, maker, run, i, key)
  {
    FirstRoles(run);
    i := RoleAppears(run, n, key);
    maker := MakerAt(lib, run, i, key);
  }

  lemma FirstRoles(run: History)
    ensures run.states[0].roles == InitialState().roles
  {
    assert run.states[0] == InitialState();
  }

  lemma MakerAt(lib: Library, run: History, i: nat, key: string) returns (maker: Call)
    requires i < |run.requests| && ClientRun(lib, run)
    requires key !in run.states[i].roles && key in run.states[i + 1].roles
    ensures Makes(lib, maker, run, i, key)
  {
    assert ClientAt(lib, run, i);
    StepHolds(run, i);
    RoleMoves(run.states[i], run.requests[i], key);
    maker := MakingCall(lib, run.states[i], run.requests[i]);
    AlwaysConsistent(run, i + 1);
  }

  lemma NamerAt(lib: Library, run: History, j: nat, key: string, name: string) returns (namer: Call)
    requires j < |run.requests| && ClientRun(lib, run) && key in run.states[j + 1].roles
    requires key in run.states[j].roles ==> run.states[j].roles[key] != run.states[j + 1].roles[key]
    requires name == run.states[j + 1].roles[key].displayName
    ensures Names(lib, namer, run, j, name)
  {
    assert ClientAt(lib, run, j);
    StepHolds(run, j);
    RoleMoves(run.states[j], run.requests[j], key);
    if key in run.states[j].roles {
      namer := NamingCall(lib, run.states[j], run.requests[j]);
    } else {
      namer := MakingCall(lib, run.states[j], run.requests[j]);
    }
  }

  lemma RoleNamer(lib: Library, run: History, n: nat, key: string) returns (j: nat, namer: Call)
    requires n <= |run.requests| && ClientRun(lib, run)
    requires key in run.states[n].roles && key !in InitialState().roles
    ensures j < n && Names(lib, namer, run, j, run.states[n].roles[key].displayName)
  {
    FirstRoles(run);
    j := RoleSet(run, n, key);
    namer := NamerAt(lib, run, j, key, run.states[n].roles[key].displayName);
  }

  lemma RoleFits(lib: Library, role: Role, maker: Call, namer: Call)
    requires maker.NewRole? && Accepts(lib, maker) && role.key == Coerced(maker.roleKey)
    requires (namer.NewRole? || namer.EditRole?) && Accepts(lib, namer)
    requires role.displayName == Coerced(namer.displayName) && role.version >= 0
    ensures ValidRole(role) <==> Fits(maker.roleKey, 256) && Fits(namer.displayName, 512)
  {
    BoundedWhenSent(namer.displayName, 512);
    SafeWhenSent(maker.roleKey, 256);
  }

  lemma RoleKeyAndVersion(run: History, n: nat, key: string)
    requires n <= |run.requests| && key in run.states[n].roles
    ensures run.states[n].roles[key].key == key && run.states[n].roles[key].version >= 0
  {
    AlwaysConsistent(run, n);
    Versions.VersionsBounded(run, n, Versions.RoleNamed(key));
  }

  /** A role is accepted exactly when the key of the call that made it and the name of the call that
      named it last fit. */
  lemma RoleAcceptedExactly(lib: Library, run: History, n: nat, key: string)
    returns (i: nat, maker: Call, j: nat, namer: Call)
    requires n <= |run.requests| && ClientRun(lib, run)
    requires key in run.states[n].roles && key !in InitialState().roles
    ensures i < n && Makes(lib, maker, run, i, key)
    ensures j < n && Names(lib, namer, run, j, run.states[n].roles[key].displayName)
    ensures ValidRole(run.states[n].roles[key]) <==> Fits(maker.roleKey, 256) && Fits(namer.displayName, 512)
  {
    i, maker := RoleMaker(lib, run, n, key);
    j, namer := RoleNamer(lib, run, n, key);
    RoleKeyAndVersion(run, n, key);
    RoleFits(lib, run.states[n].roles[key], maker, namer);
  }

  // ---------------------------------------------------------------- entities and the plan

  lemma EntityMoves(s: State, request: Request, code: string)
    requires code in Serve(s, request).0.entities
    ensures var entity := Serve(s, request).0.entities[code];
            || (code in s.entities && entity == s.entities[code])
            || (Fresh(s, request) && ChangeMade(s, request).StoreEntity? && ChangeMade(s, request).entity == entity)
  {
    ServeApplies(s, request);
  }

  lemma StoringCall(lib: Library, s: State, request: Request) returns (call: Call)
    requires FromClient(lib, request) && Fresh(s, request) && ChangeMade(s, request).StoreEntity?
    ensures FromCall(lib, call, request) && call.PutEntity?
    ensures ChangeMade(s, request).entity
         == CoercedEntity(call.entity).(version := ChangeMade(s, request).entity.version)
  {
    call :| FromCall(lib, call, request);
    CallOfChange(lib, s, call, request);
    ChangeIsFromRequest(s, request);
  }

  lemma FirstEntities(run: History)
    ensures forall code | code in run.states[0].entities :: run.states[0].entities[code] == SeedEntity()
  {
    assert run.states[0] == InitialState();
  }

  lemma FirstPlan(run: History)
    ensures run.states[0].plan == SeedPlan()
  {
    assert run.states[0] == InitialState();
  }

  /** Where an entity became what it is, unless it has been so from the start. */
  lemma {:induction false} EntitySet(run: History, n: nat, code: string) returns (origin: Option<nat>)
    requires n <= |run.requests| && code in run.states[n].entities
    ensures match origin
            case None =>
              code in run.states[0].entities && run.states[n].entities[code] == run.states[0].entities[code]
            case Some(i) =>
              && i < n && code in run.states[i + 1].entities
              && run.states[i + 1].entities[code] == run.states[n].entities[code]
              && (code in run.states[i].entities ==> run.states[i].entities[code] != run.states[n].entities[code])
    decreases n
  {
    if n == 0 {
      origin := None;
    } else if code in run.states[n - 1].entities && run.states[n - 1].entities[code] == run.states[n].entities[code] {
      origin := EntitySet(run, n - 1, code);
    } else {
      origin := Some(n - 1);
    }
  }

  /** Where something stored comes from: the first state, or the call that is number `i` of the run. */
  datatype Origin = AtStart | ByCall(i: nat, call: Call)

  ghost predicate EntityComesFrom(lib: Library, run: History, n: nat, code: string, origin: Origin)
    requires n <= |run.requests| && code in run.states[n].entities
  {
    match origin
    case AtStart => run.states[n].entities[code] == SeedEntity()
    case ByCall(i, call) =>
      && i < n && FromCall(lib, call, run.requests[i]) && Fresh(run.states[i], run.requests[i])
      && call.PutEntity?
      && (ValidEntity(run.states[n].entities[code]) <==> EntityFits(call.entity))
  }

  /** An entity is the first one, or it is accepted exactly when the call that stored it last fits. */
  lemma EntityAcceptedExactly(lib: Library, run: History, n: nat, code: string) returns (origin: Origin)
    requires n <= |run.requests| && ClientRun(lib, run) && code in run.states[n].entities
    ensures EntityComesFrom(lib, run, n, code, origin)
  {
    FirstEntities(run);
    var place := EntitySet(run, n, code);
    if place == None {
      return AtStart;
    }
    var i := place.value;
    StepHolds(run, i);
    EntityMoves(run.states[i], run.requests[i], code);
    assert ClientAt(lib, run, i);
    var call := StoringCall(lib, run.states[i], run.requests[i]);
    Versions.VersionsBounded(run, n, Versions.EntityNamed(code));
    EntityFitsWithVersion(lib, call, run.states[n].entities[code].version);
    origin := ByCall(i, call);
  }

  lemma EntityFitsWithVersion(lib: Library, call: Call, version: int)
    requires call.PutEntity? && Accepts(lib, call) && version >= 0
    ensures ValidEntity(CoercedEntity(call.entity).(version := version)) <==> EntityFits(call.entity)
  {
    EntityWhenSent(call.entity);
  }

  lemma PlanMoves(s: State, request: Request)
    ensures var plan := Serve(s, request).0.plan;
            plan == s.plan || (Fresh(s, request) && ChangeMade(s, request) == Publish(plan))
  {
    ServeApplies(s, request);
  }

  lemma PublishingCall(lib: Library, s: State, request: Request) returns (call: Call)
    requires FromClient(lib, request) && Fresh(s, request) && ChangeMade(s, request).Publish?
    ensures FromCall(lib, call, request) && call.PublishQuotaPlan?
    ensures ChangeMade(s, request).plan
         == CoercedPlan(lib, call.plan).(version := ChangeMade(s, request).plan.version)
  {
    call :| FromCall(lib, call, request);
    CallOfChange(lib, s, call, request);
    ChangeIsFromRequest(s, request);
  }

  /** Where the plan became what it is, unless it has been so from the start. */
  lemma {:induction false} PlanSet(run: History, n: nat) returns (origin: Option<nat>)
    requires n <= |run.requests|
    ensures match origin
            case None => run.states[n].plan == run.states[0].plan
            case Some(i) =>
              i < n && run.states[i + 1].plan == run.states[n].plan && run.states[i].plan != run.states[n].plan
    decreases n
  {
    if n == 0 {
      origin := None;
    } else if run.states[n - 1].plan == run.states[n].plan {
      origin := PlanSet(run, n - 1);
    } else {
      origin := Some(n - 1);
    }
  }

  ghost predicate PlanComesFrom(lib: Library, run: History, n: nat, origin: Origin)
    requires n <= |run.requests|
  {
    match origin
    case AtStart => run.states[n].plan == SeedPlan()
    case ByCall(i, call) =>
      && i < n && FromCall(lib, call, run.requests[i]) && Fresh(run.states[i], run.requests[i])
      && call.PublishQuotaPlan?
      && (ValidPlan(lib, run.states[n].plan) <==> PlanFits(lib, call.plan))
  }

  /** The quota plan is the first one, or it is accepted exactly when the call that published it fits. */
  lemma PlanAcceptedExactly(lib: Library, run: History, n: nat) returns (origin: Origin)
    requires n <= |run.requests| && ClientRun(lib, run)
    ensures PlanComesFrom(lib, run, n, origin)
  {
    FirstPlan(run);
    var place := PlanSet(run, n);
    if place == None {
      origin := AtStart;
    } else {
      var call := PlanFrom(lib, run, n, place.value);
      origin := ByCall(place.value, call);
    }
  }

  lemma PlanFrom(lib: Library, run: History, n: nat, i: nat) returns (call: Call)
    requires i < n <= |run.requests| && ClientRun(lib, run)
    requires run.states[i + 1].plan == run.states[n].plan && run.states[i].plan != run.states[n].plan
    ensures PlanComesFrom(lib, run, n, ByCall(i, call))
  {
    call := PublisherAt(lib, run, i);
    PlanVersion(run, n);
    PlanFitsWithVersion(lib, call, run.states[n].plan.version);
  }

  lemma PlanVersion(run: History, n: nat)
    requires n <= |run.requests|
    ensures run.states[n].plan.version >= 0
  {
    Versions.VersionsBounded(run, n, Versions.TheQuotaPlan);
  }

  lemma PublisherAt(lib: Library, run: History, i: nat) returns (call: Call)
    requires i < |run.requests| && ClientRun(lib, run) && run.states[i].plan != run.states[i + 1].plan
    ensures FromCall(lib, call, run.requests[i]) && Fresh(run.states[i], run.requests[i]) && call.PublishQuotaPlan?
    ensures run.states[i + 1].plan == CoercedPlan(lib, call.plan).(version := run.states[i + 1].plan.version)
  {
    assert ClientAt(lib, run, i);
    StepHolds(run, i);
    PlanMoves(run.states[i], run.requests[i]);
    call := PublishingCall(lib, run.states[i], run.requests[i]);
  }

  lemma PlanFitsWithVersion(lib: Library, call: Call, version: int)
    requires call.PublishQuotaPlan? && Accepts(lib, call) && version >= 0
    ensures ValidPlan(lib, CoercedPlan(lib, call.plan).(version := version)) <==> PlanFits(lib, call.plan)
  {
    PlanWhenSent(lib, call.plan);
  }

  // ---------------------------------------------------------------- calls that do not fit

  /** The client accepts a name of 512 bytes that are no UTF-8, and 1536 bytes arrive. */
  lemma BrokenNameIsSent(lib: Library, call: Call)
    requires call.NewUser? && call.displayName == seq(512, _ => 0xFF as char)
    requires SafePathValue(call.id, 256) && BoundedText(call.email, 512) && SafeKey(call.key)
    ensures Accepts(lib, call) && !CallFits(lib, call) && |Coerced(call.displayName)| == 1536
  {
    AllBroken(call.displayName);
    CoercedLength(call.displayName);
  }

  /** The client refuses the list of users. */
  ghost predicate ListRefused(s: State) {
    exists i :: 0 <= i < |Listing(s.users)| && !ValidUser(Listing(s.users)[i])
  }

  lemma RefusedUserSpoilsList(s: State, id: string)
    requires id in s.users && !ValidUser(s.users[id])
    ensures ListRefused(s)
  {
    var keys := InOrder(s.users.Keys);
    assert id in Elements(keys);
    var i :| 0 <= i < |keys| && keys[i] == id;
    assert Listing(s.users)[i] == s.users[id];
  }

  /** In this state the request is the call's and adds a user. */
  ghost predicate Adds(lib: Library, call: Call, s: State, request: Request) {
    FromCall(lib, call, request) && Fresh(s, request) && ChangeMade(s, request).AddUser?
  }

  ghost predicate AddsAt(lib: Library, run: History, i: nat, call: Call) {
    i < |run.requests|
    && forall s, request | s == run.states[i] && request == run.requests[i] :: Adds(lib, call, s, request)
  }

  /** Once a call that does not fit has created a user, the client refuses every list of users, for
      ever. */
  lemma BrokenNameStays(lib: Library, run: History, i: nat, n: nat, call: Call)
    requires i < n <= |run.requests| && call.NewUser? && !CallFits(lib, call) && AddsAt(lib, run, i, call)
    ensures ListRefused(run.states[n])
  {
    AddedTexts(lib, run, i, call);
    RefusedStays(lib, run, i + 1, n, call);
  }

  lemma RefusedStays(lib: Library, run: History, i: nat, n: nat, call: Call)
    requires i <= n <= |run.requests| && call.NewUser? && Sendable(lib, call) && !CallFits(lib, call)
    requires var users := run.states[i].users;
             Coerced(call.id) in users && SameTexts(users[Coerced(call.id)], Brought(call))
    ensures ListRefused(run.states[n])
  {
    UserTextsStay(run, i, n, Coerced(call.id));
    BrokenUserIsRefused(lib, call, run.states[n].users[Coerced(call.id)]);
    RefusedUserSpoilsList(run.states[n], Coerced(call.id));
  }

  lemma BrokenUserIsRefused(lib: Library, call: Call, user: User)
    requires call.NewUser? && Sendable(lib, call) && !CallFits(lib, call)
    requires SameTexts(user, Brought(call))
    ensures !ValidUser(user)
  {
    UserWhenSent(call, lib);
  }

  lemma AddedTexts(lib: Library, run: History, i: nat, call: Call)
    requires i < |run.requests| && call.NewUser? && AddsAt(lib, run, i, call)
    ensures Sendable(lib, call)
    ensures var users := run.states[i + 1].users;
            Coerced(call.id) in users && SameTexts(users[Coerced(call.id)], Brought(call))
  {
    assert Adds(lib, call, run.states[i], run.requests[i]);
    StepHolds(run, i);
    StepCases(run.states[i], run.requests[i]);
    CallOfChange(lib, run.states[i], call, run.requests[i]);
    ChangeIsFromRequest(run.states[i], run.requests[i]);
  }

  /** The request of a call that arrives is the one it means. */
  lemma Arrives(lib: Library, call: Call, clock: Clock)
    requires Accepts(lib, call) && SafeIds(call) && Routable(call) && !call.ListWorkflowTasks?
    ensures Sendable(lib, call)
    ensures var request := RequestOf(lib, call, clock);
            && Delivery(request.route, request.target) == Intended(call)
            && request.content == Decoded(BodySeen(lib, call)) && request.put == (VerbOf(call) == PUT)
            && request.clock == clock
  {
    RoundTripExactly(call);
  }

  lemma UserCallServes(s: State, call: Call, request: Request)
    requires call.NewUser? && call.id != "" && call.displayName != "" && call.key != ""
    requires request.route == CreateUser && request.content == Decoded(BodyOf(call))
    requires call.id !in s.users && call.key !in s.idempotency
    ensures var t := Serve(s, request).0;
            && t.users == s.users[call.id := User(call.id, call.displayName, call.email, ACTIVE, [], 1)]
            && t.roles == s.roles && t.idempotency.Keys == s.idempotency.Keys + {call.key}
  {
    assert Decide(s, request) == JudgeCreateUser(s, BodyOf(call));
  }

  /** Every such call about a new user, whatever clients did before, brings the provider there. */
  lemma BrokenNameIsStored(lib: Library, run: History, call: Call, clock: Clock) returns (longer: History)
    requires ClientRun(lib, run) && call.NewUser? && Accepts(lib, call) && !CallFits(lib, call)
    requires Coerced(call.id) !in Last(run).users && call.key !in Last(run).idempotency
    ensures ClientRun(lib, longer) && GoesOn(lib, run, longer) && ListRefused(Last(longer))
  {
    Arrives(lib, call, clock);
    UserWhenSent(call, lib);
    KeyArrives(lib, call);
    UserCallServes(Last(run), AsJson(lib, call), RequestOf(lib, call, clock));
    longer := OneRequest(lib, run, call, clock);
    GoesOnFromStart(lib, run, longer);
    RefusedUserSpoilsList(Last(longer), Coerced(call.id));
  }

  lemma BrokenCodeArrives(lib: Library, call: Call, request: Request)
    requires FromCall(lib, call, request) && call.PutEntity? && Routable(call)
    ensures request.route == UpdateEntity && request.target == One(call.entity.code)
    ensures request.content == Decoded(BodySeen(lib, call))
  {
    RoundTripExactly(call);
  }

  /** An entity whose code is no UTF-8 is never stored: path and body disagree. */
  lemma BrokenCodeIsRefused(lib: Library, s: State, call: Call, request: Request)
    requires FromCall(lib, call, request) && call.PutEntity? && Routable(call) && !IsUtf8(call.entity.code)
    ensures Serve(s, request) == (s, Reply(400, Problem(EntityCodeMismatch)))
  {
    BrokenCodeArrives(lib, call, request);
    KeyArrives(lib, call);
    UnchangedExactly(call.entity.code);
    CoercedLength(call.entity.code);
    CoercedLength(call.entity.name);
    MismatchIsRefused(s, request, call.entity.code);
  }

  lemma MismatchIsRefused(s: State, request: Request, code: string)
    requires request.route == UpdateEntity && request.target == One(code) && request.content.Decoded?
    requires var body := request.content.body;
             body.idempotencyKey != "" && body.entity.code != "" && body.entity.name != "" && body.entity.code != code
    ensures Serve(s, request) == (s, Reply(400, Problem(EntityCodeMismatch)))
  {
  }
}
