/** A bound of the client that the provider does not keep, besides those on texts: a user's number of
    roles. */
module RoleLimit {
  import opened Text
  import opened Sorting
  import opened RoleList
  import opened Routing
  import opened Escaping
  import opened Utf8
  import opened ProviderModel
  import opened Reachable
  import opened Runs
  import opened ClientPaths
  import opened RoundTrip
  import opened Validators
  import opened Acceptance
  import Versions

  /** An identifier that the client accepts and that survives on its way, in the path and in JSON. */
  ghost predicate GoodId(id: string) {
    SafePathValue(id, 256) && IsByteString(id) && !IsDotSegment(id) && IsUtf8(id)
  }

  // ---------------------------------------------------------------- single calls

  /** A body in UTF-8 arrives as it was built. */
  lemma PlainBodyArrives(lib: Library, call: Call)
    requires call.NewUser? || call.NewRole? || call.UserRole?
    requires Accepts(lib, call)
    requires call.NewUser? ==> IsUtf8(call.id) && IsUtf8(call.displayName) && IsUtf8(call.email)
    requires call.NewRole? ==> IsUtf8(call.roleKey) && IsUtf8(call.displayName)
    ensures BodySeen(lib, call) == BodyOf(call)
  {
    KeyArrives(lib, call);
    if call.NewUser? {
      UnchangedExactly(call.id);
      UnchangedExactly(call.displayName);
      UnchangedExactly(call.email);
    } else if call.NewRole? {
      UnchangedExactly(call.roleKey);
      UnchangedExactly(call.displayName);
    }
  }

  lemma UserCallArrives(lib: Library, call: Call, clock: Clock)
    requires call.NewUser? && Accepts(lib, call)
    requires IsUtf8(call.id) && IsUtf8(call.displayName) && IsUtf8(call.email)
    ensures Sendable(lib, call) && RequestOf(lib, call, clock).route == CreateUser
    ensures RequestOf(lib, call, clock).content == Decoded(BodyOf(call))
  {
    Arrives(lib, call, clock);
    PlainBodyArrives(lib, call);
  }

  lemma RoleCallArrives(lib: Library, call: Call, clock: Clock)
    requires call.NewRole? && Accepts(lib, call) && IsUtf8(call.roleKey) && IsUtf8(call.displayName)
    ensures Sendable(lib, call) && RequestOf(lib, call, clock).route == CreateRole
    ensures RequestOf(lib, call, clock).content == Decoded(BodyOf(call))
  {
    Arrives(lib, call, clock);
    PlainBodyArrives(lib, call);
  }

  lemma AssignmentArrives(lib: Library, call: Call, clock: Clock)
    requires call.UserRole? && Accepts(lib, call) && GoodId(call.id) && GoodId(call.roleKey)
    ensures Sendable(lib, call) && Routable(call)
    ensures var request := RequestOf(lib, call, clock);
            && request.route == ChangeUserRole && request.target == Two(call.id, call.roleKey)
            && request.content == Decoded(BodyOf(call)) && request.put == call.assign
  {
    Arrives(lib, call, clock);
    PlainBodyArrives(lib, call);
  }

  // ---------------------------------------------------------------- what they do

  lemma RoleCallServes(s: State, call: Call, request: Request)
    requires call.NewRole? && call.roleKey != "" && call.displayName != "" && call.key != ""
    requires request.route == CreateRole && request.content == Decoded(BodyOf(call))
    requires call.roleKey !in s.roles && call.key !in s.idempotency
    ensures var t := Serve(s, request).0;
            && t.users == s.users && t.roles == s.roles[call.roleKey := Role(call.roleKey, call.displayName, false, 1)]
            && t.idempotency.Keys == s.idempotency.Keys + {call.key}
  {
    assert Decide(s, request) == JudgeCreateRole(s, BodyOf(call));
  }

  lemma AssignmentServes(s: State, call: Call, request: Request)
    requires call.UserRole? && call.key != "" && request.content == Decoded(BodyOf(call))
    requires request.route == ChangeUserRole && request.target == Two(call.id, call.roleKey)
    requires request.put == call.assign
    requires call.id in s.users && call.roleKey in s.roles && call.version == s.users[call.id].version
    requires call.key !in s.idempotency
    ensures var user := Rewritten(s.users[call.id], call.roleKey, call.assign);
            var (t, reply) := Serve(s, request);
            && t.users == s.users[call.id := user] && reply == Reply(200, Stored(UserValue(user)))
            && t.roles == s.roles && t.idempotency.Keys == s.idempotency.Keys + {call.key}
  {
    assert Decide(s, request) == JudgeChangeUserRole(s, call.assign, call.id, call.roleKey, BodyOf(call));
  }

  // ---------------------------------------------------------------- a user with any number of roles

  ghost predicate Distinct(texts: seq<string>) {
    forall i, j | 0 <= i < j < |texts| :: texts[i] != texts[j]
  }

  /** New roles for a user: distinct names and two distinct keys for each. */
  ghost predicate Grantable(s: State, id: string, names: seq<string>, keys: seq<string>) {
    && GoodId(id) && id in s.users && Distinct(names) && Distinct(keys) && |keys| == 2 * |names|
    && (forall i | 0 <= i < |names| :: GoodId(names[i]) && names[i] !in s.roles && names[i] !in s.users[id].roles)
    && (forall i | 0 <= i < |keys| :: SafeKey(keys[i]) && keys[i] !in s.idempotency)
  }

  lemma MakeRole(lib: Library, run: History, name: string, key: string, clock: Clock) returns (longer: History)
    requires GoodId(name) && SafeKey(key) && name !in Last(run).roles && key !in Last(run).idempotency
    ensures GoesOn(lib, run, longer)
    ensures var (s, t) := (Last(run), Last(longer));
            && t.users == s.users && t.roles == s.roles[name := Role(name, name, false, 1)]
            && t.idempotency.Keys == s.idempotency.Keys + {key}
  {
    var call := NewRole(name, name, key);
    RoleCallArrives(lib, call, clock);
    RoleCallServes(Last(run), call, RequestOf(lib, call, clock));
    longer := OneRequest(lib, run, call, clock);
  }

  lemma GiveRole(lib: Library, run: History, id: string, name: string, key: string, clock: Clock)
    returns (longer: History)
    requires GoodId(id) && GoodId(name) && SafeKey(key) && key !in Last(run).idempotency
    requires id in Last(run).users && name in Last(run).roles && 0 <= Last(run).users[id].version
    ensures GoesOn(lib, run, longer)
    ensures var (s, t) := (Last(run), Last(longer));
            && t.users == s.users[id := Rewritten(s.users[id], name, true)] && t.roles == s.roles
            && t.idempotency.Keys == s.idempotency.Keys + {key}
  {
    var call := UserRole(id, name, Last(run).users[id].version, key, true);
    AssignmentArrives(lib, call, clock);
    AssignmentServes(Last(run), call, RequestOf(lib, call, clock));
    longer := OneRequest(lib, run, call, clock);
  }

  lemma GoesOnFurther(lib: Library, run: History, middle: History, longer: History)
    requires GoesOn(lib, run, middle) && GoesOn(lib, middle, longer)
    ensures GoesOn(lib, run, longer)
  {
    forall i: nat | |run.requests| <= i < |longer.requests| ensures ClientAt(lib, longer, i) {
      if i < |middle.requests| {
        assert ClientAt(lib, middle, i) && longer.requests[i] == middle.requests[i];
      }
    }
  }

  lemma GrantableRest(s: State, t: State, id: string, names: seq<string>, keys: seq<string>)
    requires Grantable(s, id, names, keys) && names != []
    requires t.users == s.users[id := Rewritten(s.users[id], names[0], true)]
    requires t.roles.Keys == s.roles.Keys + {names[0]}
    requires t.idempotency.Keys == s.idempotency.Keys + {keys[0], keys[1]}
    ensures Grantable(t, id, names[1..], keys[2..])
    ensures Elements(t.users[id].roles) + Elements(names[1..]) == Elements(s.users[id].roles) + Elements(names)
  {
    ChangeIsSetChange(s.users[id].roles, names[0]);
    assert Elements(names) == {names[0]} + Elements(names[1..]);
    forall i | 0 <= i < |names[1..]|
      ensures GoodId(names[1..][i]) && names[1..][i] !in t.roles && names[1..][i] !in t.users[id].roles
    {
      assert names[1..][i] == names[i + 1] != names[0];
      assert names[i + 1] !in Elements(t.users[id].roles);
    }
  }

  /** Creating a role and assigning it, as often as there are names: afterwards the user holds all of
      them. */
  lemma {:induction false} GrantAll(lib: Library, run: History, id: string, names: seq<string>, keys: seq<string>,
                                    clock: Clock) returns (longer: History)
    requires Grantable(Last(run), id, names, keys) && 0 <= Last(run).users[id].version
    ensures GoesOn(lib, run, longer) && id in Last(longer).users
    ensures Elements(Last(longer).users[id].roles) == Elements(Last(run).users[id].roles) + Elements(names)
    decreases |names|
  {
    if names == [] {
      longer := run;
    } else {
      var made := MakeRole(lib, run, names[0], keys[0], clock);
      var given := GiveRole(lib, made, id, names[0], keys[1], clock);
      GoesOnFurther(lib, run, made, given);
      GrantableRest(Last(run), Last(given), id, names, keys);
      longer := GrantAll(lib, given, id, names[1..], keys[2..], clock);
      GoesOnFurther(lib, run, given, longer);
    }
  }

  // Numbers serve as names and as keys.

  function Pow10(k: nat): nat {
    if k == 0 then 1 else 10 * Pow10(k - 1)
  }

  lemma {:induction false} DecimalLength(n: nat, k: nat)
    requires k >= 1 && n < Pow10(k)
    ensures |Decimal(n)| <= k
  {
    if n >= 10 {
      assert k > 1 by {
        assert Pow10(1) == 10 * Pow10(0);
      }
      DecimalLength(n / 10, k - 1);
    }
  }

  lemma NumberIsGood(n: nat, k: nat)
    requires n < Pow10(k) && 1 <= k <= 256
    ensures GoodId(Decimal(n)) && BoundedText(Decimal(n), 512) && SafeKey(Decimal(n))
  {
    DecimalLength(n, k);
    var text := Decimal(n);
    assert forall i | 0 <= i < |text| :: IsDigit(text[i]) && TokenChar(text[i]);
    assert IsByteString(text) && text[0] != '.';
    AsciiIsUtf8(text);
    PrintableIsSafe(text, 256);
    PrintableIsSafe(text, 512);
  }

  function Numbers(from: nat, count: nat): (texts: seq<string>)
    ensures |texts| == count
  {
    seq(count, i requires 0 <= i => Decimal(from + i))
  }

  lemma NumbersDiffer(from: nat, count: nat)
    ensures Distinct(Numbers(from, count))
    ensures |Elements(Numbers(from, count))| == count
    decreases count
  {
    forall i, j | 0 <= i < j < count ensures Numbers(from, count)[i] != Numbers(from, count)[j] {
      if Decimal(from + i) == Decimal(from + j) {
        DecimalInjective(from + i, from + j);
      }
    }
    DistinctSize(Numbers(from, count));
  }

  lemma {:induction false} DistinctSize(texts: seq<string>)
    requires Distinct(texts)
    ensures |Elements(texts)| == |texts|
  {
    if texts != [] {
      var rest := texts[1..];
      forall i, j | 0 <= i < j < |rest| ensures rest[i] != rest[j] {
        assert texts[i + 1] != texts[j + 1];
      }
      DistinctSize(rest);
      assert Elements(texts) == Elements(rest) + {texts[0]};
      assert forall i | 0 <= i < |rest| :: rest[i] == texts[i + 1] != texts[0];
    }
  }

  lemma NumbersAreNew(n: nat)
    ensures Decimal(n) !in InitialState().roles && Decimal(n) !in InitialState().users
  {
    var text := Decimal(n);
    assert IsDigit(text[0]);
    assert forall i | 0 <= i < |SAMPLE_ROLE_KEYS| :: SAMPLE_ROLE_KEYS[i][0] == 'i' || SAMPLE_ROLE_KEYS[i][0] == 's';
  }

  /** A run whose only request creates the user, as a client does. */
  lemma StartUser(lib: Library, id: string, key: string, clock: Clock) returns (run: History)
    requires GoodId(id) && BoundedText(id, 512) && SafeKey(key) && id !in InitialState().users
    ensures ClientRun(lib, run)
    ensures id in Last(run).users && Last(run).users[id].roles == [] && Last(run).users[id].version == 1
    ensures Last(run).roles == InitialState().roles && Last(run).idempotency.Keys == {key}
  {
    var call := NewUser(id, id, id, key);
    UserCallArrives(lib, call, clock);
    var empty := RunOf([]);
    StartsEmpty(empty);
    UserCallServes(Last(empty), call, RequestOf(lib, call, clock));
    run := OneRequest(lib, empty, call, clock);
    GoesOnFromStart(lib, empty, run);
  }

  lemma StartsEmpty(run: History)
    requires run.requests == []
    ensures Last(run) == InitialState()
  {
  }

  lemma StartGrantable(s: State, id: string, n: nat)
    requires 2 * n < Pow10(256) && id == Decimal(0)
    requires id in s.users && s.users[id].roles == [] && s.roles == InitialState().roles
    requires s.idempotency.Keys == {Decimal(2 * n)}
    ensures Grantable(s, id, Numbers(0, n), Numbers(0, 2 * n))
  {
    NumberIsGood(0, 256);
    NumbersDiffer(0, n);
    NumbersDiffer(0, 2 * n);
    forall i | 0 <= i < n
      ensures GoodId(Numbers(0, n)[i]) && Numbers(0, n)[i] !in s.roles
    {
      NumberIsGood(i, 256);
      NumbersAreNew(i);
    }
    forall i | 0 <= i < 2 * n
      ensures SafeKey(Numbers(0, 2 * n)[i]) && Numbers(0, 2 * n)[i] !in s.idempotency
    {
      NumberIsGood(i, 256);
      if Decimal(i) == Decimal(2 * n) {
        DecimalInjective(i, 2 * n);
      }
    }
  }

  lemma AllNumbersHeld(run: History, id: string, n: nat)
    requires id in Last(run).users && Elements(Last(run).users[id].roles) == Elements(Numbers(0, n))
    ensures |Last(run).users[id].roles| == n
  {
    AlwaysConsistent(run, |run.requests|);
    SortedSize(Last(run).users[id].roles);
    NumbersDiffer(0, n);
  }

  /** Clients alone bring a user to any number of roles that there are names and keys for. */
  lemma AnyNumberOfRoles(lib: Library, n: nat, clock: Clock) returns (run: History, id: string)
    requires 2 * n < Pow10(256)
    ensures ClientRun(lib, run)
    ensures id in Last(run).users && |Last(run).users[id].roles| == n
  {
    id := Decimal(0);
    NumberIsGood(0, 256);
    NumberIsGood(2 * n, 256);
    NumbersAreNew(0);
    var start := StartUser(lib, id, Decimal(2 * n), clock);
    StartGrantable(Last(start), id, n);
    run := GrantAll(lib, start, id, Numbers(0, n), Numbers(0, 2 * n), clock);
    GoesOnFromStart(lib, start, run);
    AllNumbersHeld(run, id, n);
  }

  // ---------------------------------------------------------------- what clients then see

  /** Clients bring the provider to a user that the client refuses in its list of users. */
  lemma OverfullUser(lib: Library, n: nat, clock: Clock) returns (run: History)
    requires n > 200 && 2 * n < Pow10(256)
    ensures ClientRun(lib, run) && ListRefused(Last(run))
  {
    var id;
    run, id := AnyNumberOfRoles(lib, n, clock);
    RefusedUserSpoilsList(Last(run), id);
  }

  /** Whether a user has room for an assignment or revocation, as a client can tell before the call. */
  predicate RoomFor(user: User, key: string, assign: bool) {
    |user.roles| <= if assign then (if key in user.roles then 200 else 199)
                    else (if key in user.roles then 201 else 200)
  }

  lemma ChangedSize(roles: seq<string>, key: string, assign: bool)
    requires StrictlySorted(roles)
    ensures |Changed(roles, key, assign)|
         == |roles| + (if assign && key !in roles then 1 else if !assign && key in roles then -1 else 0)
  {
    ChangeIsSetChange(roles, key);
    SortedSize(roles);
    SortedSize(Changed(roles, key, assign));
    assert key in roles <==> key in Elements(roles);
  }

  /** The texts of a user are within the client's bounds; in client runs nothing else can be wrong with
      them. */
  predicate TextsFit(user: User) {
    |user.displayName| <= 512 && |user.email| <= 512
  }

  lemma TextsOfUser(lib: Library, run: History, n: nat, id: string)
    requires n <= |run.requests| && ClientRun(lib, run) && id in run.states[n].users
    ensures var user := run.states[n].users[id];
            TextsFit(user) <==> BoundedText(user.displayName, 512) && |user.email| <= 512 && !HasControl(user.email)
  {
    if id in run.states[0].users {
      UserTextsStay(run, 0, n, id);
      FirstUser(run, id);
      SeedUserTexts();
    } else {
      var i, call := UserOrigin(lib, run, n, id);
      BroughtTexts(lib, call);
    }
  }

  lemma BroughtTexts(lib: Library, call: Call)
    requires call.NewUser? && Accepts(lib, call)
    ensures var user := Brought(call);
            TextsFit(user) <==> BoundedText(user.displayName, 512) && |user.email| <= 512 && !HasControl(user.email)
  {
    UserWhenSent(call, lib);
    CoercedControl(call.displayName);
  }

  /** The user that a call asked for, as it was where the call took effect, tells whether the client
      accepts the answer. */
  ghost predicate AcceptedExactly(s: State, call: Call, reply: Reply)
    requires call.UserRole?
  {
    && call.id in s.users
    && var user := s.users[call.id];
    && reply.payload == Stored(UserValue(Rewritten(user, call.roleKey, call.assign)))
    && (ValidUser(Rewritten(user, call.roleKey, call.assign))
        <==> TextsFit(user) && RoomFor(user, call.roleKey, call.assign))
  }

  /** In every run of client calls: the client accepts the answer to an assignment or revocation, first
      and on every retry, exactly when the texts of the user fit and it had room for the role where the
      call took effect. */
  lemma RoleReplyAcceptedExactly(lib: Library, run: History, n: nat, call: Call, request: Request) returns (i: nat)
    requires n <= |run.requests| && ClientRun(lib, run)
    requires FromCall(lib, call, request) && call.UserRole? && Routable(call)
    requires forall j | 0 <= j < n && KeyOf(run.requests[j]) == call.key :: FromCall(lib, call, run.requests[j])
    requires Serve(run.states[n], request).1.status == 200
    ensures i <= n && (i == n ==> Fresh(run.states[n], request)) && (i < n ==> FreshAt(run, i, call.key))
    ensures AcceptedExactly(run.states[i], call, Serve(run.states[n], request).1)
  {
    AssignmentSeen(lib, call, request);
    i := AnsweredAt(run, n, request);
    var first := if i == n then request else run.requests[i];
    FirstGrant(lib, run.states[i], call, first);
    GrantFits(lib, run, i, call);
  }

  /** Where the answered request took effect: here, or where its record was made. */
  lemma AnsweredAt(run: History, n: nat, request: Request) returns (i: nat)
    requires n <= |run.requests| && request.route == ChangeUserRole
    requires Serve(run.states[n], request).1.status == 200
    ensures i <= n && (i == n ==> Fresh(run.states[n], request)) && (i < n ==> FreshAt(run, i, KeyOf(request)))
    ensures Serve(run.states[n], request).1.payload
         == Stored(ValueOf(ChangeMade(run.states[i], if i == n then request else run.requests[i])))
  {
    if Fresh(run.states[n], request) {
      StepCases(run.states[n], request);
      i := n;
    } else {
      if Decide(run.states[n], request).Refuse? {
        RefusalStatus(run.states[n], request);
      }
      i := RecordOrigin(run, n, KeyOf(request));
    }
  }

  lemma AssignmentSeen(lib: Library, call: Call, request: Request)
    requires FromCall(lib, call, request) && call.UserRole? && Routable(call)
    ensures request.route == ChangeUserRole && request.target == Two(call.id, call.roleKey)
    ensures request.content == Decoded(BodyOf(call)) && request.put == call.assign && KeyOf(request) == call.key
  {
    Arrives(lib, call, request.clock);
    PlainBodyArrives(lib, call);
  }

  lemma FirstGrant(lib: Library, s: State, call: Call, request: Request)
    requires FromCall(lib, call, request) && call.UserRole? && Routable(call) && Fresh(s, request)
    ensures call.id in s.users
    ensures ValueOf(ChangeMade(s, request)) == UserValue(Rewritten(s.users[call.id], call.roleKey, call.assign))
  {
    AssignmentSeen(lib, call, request);
    GrantMade(s, request, call.id, call.roleKey);
  }

  lemma GrantMade(s: State, request: Request, id: string, key: string)
    requires request.route == ChangeUserRole && request.target == Two(id, key) && Fresh(s, request)
    ensures id in s.users
    ensures ValueOf(ChangeMade(s, request)) == UserValue(Rewritten(s.users[id], key, request.put))
  {
  }

  lemma GrantFits(lib: Library, run: History, n: nat, call: Call)
    requires n <= |run.requests| && ClientRun(lib, run) && call.UserRole? && Accepts(lib, call)
    requires call.id in run.states[n].users
    ensures var user := run.states[n].users[call.id];
            ValidUser(Rewritten(user, call.roleKey, call.assign))
            <==> TextsFit(user) && RoomFor(user, call.roleKey, call.assign)
  {
    TextsOfUser(lib, run, n, call.id);
    AlwaysShaped(lib, run, n);
    UserIdAndVersion(run, n, call.id);
    RewrittenFits(run.states[n].users[call.id], call.roleKey, call.assign);
  }

  lemma UserIdAndVersion(run: History, n: nat, id: string)
    requires n <= |run.requests| && id in run.states[n].users
    ensures var user := run.states[n].users[id];
            user.id == id && user.version >= 0 && StrictlySorted(user.roles)
  {
    AlwaysConsistent(run, n);
    assert UserConsistent(run.states[n], id);
    Versions.VersionsBounded(run, n, Versions.UserNamed(id));
  }

  lemma RewrittenFits(user: User, key: string, assign: bool)
    requires UserShaped(user) && user.version >= 0 && SafePathValue(user.id, 256)
    requires StrictlySorted(user.roles) && SafePathValue(key, 256)
    requires TextsFit(user) <==> BoundedText(user.displayName, 512) && |user.email| <= 512 && !HasControl(user.email)
    ensures ValidUser(Rewritten(user, key, assign)) <==> TextsFit(user) && RoomFor(user, key, assign)
  {
    RolesStaySafe(user.roles, key, assign);
    ChangedSize(user.roles, key, assign);
  }
}
