/** Optimistic versions over whole runs: no accepted mutation is lost or based on a stale read. */
module Versions {
  import opened Text
  import opened ProviderModel
  import opened Runs
  import opened Reachable

  datatype Resource =
    | EntityNamed(code: string) | UserNamed(id: string) | RoleNamed(key: string)
    | TheQuotaPlan | TheRun | TheTask

  function VersionOf(s: State, r: Resource): Option<int> {
    match r
    case EntityNamed(code) => if code in s.entities then Some(s.entities[code].version) else None
    case UserNamed(id) => if id in s.users then Some(s.users[id].version) else None
    case RoleNamed(key) => if key in s.roles then Some(s.roles[key].version) else None
    case TheQuotaPlan => Some(s.plan.version)
    case TheRun => Some(s.run.version)
    case TheTask => Some(s.task.version)
  }

  datatype Effect = Untouched | Created | Bumped | Removed

  /** What an accepted change does to the version of `r`. */
  function EffectOn(change: Change, r: Resource): Effect {
    match change
    case StoreEntity(code, _, existed) =>
      if r != EntityNamed(code) then Untouched else if existed then Bumped else Created
    case ReviewDeletion(_, _) => Untouched
    case RemoveEntity(code, _, _) => if r == EntityNamed(code) then Removed else Untouched
    case AddUser(user) => if r == UserNamed(user.id) then Created else Untouched
    case SetStatus(id, _) => if r == UserNamed(id) then Bumped else Untouched
    case AddRole(role) => if r == RoleNamed(role.key) then Created else Untouched
    case RenameRole(key, _) => if r == RoleNamed(key) then Bumped else Untouched
    case AssignRole(id, _, _) => if r == UserNamed(id) then Bumped else Untouched
    case RevokeRole(id, _, _) => if r == UserNamed(id) then Bumped else Untouched
    case Cancel(_) => if r == TheRun then Bumped else Untouched
    case Retry(_, _) => if r == TheRun || r == TheTask then Bumped else Untouched
    case Publish(_) => if r == TheQuotaPlan then Bumped else Untouched
  }

  /** The change was checked against the version of `r`: everything but a task retry, which moves
      the run's version along unchecked. */
  predicate Checked(change: Change, r: Resource) {
    EffectOn(change, r).Bumped? && !(change.Retry? && r == TheRun)
  }

  /** How an effect moves a version that is present or absent. */
  predicate Moves(effect: Effect, before: Option<int>, after: Option<int>) {
    match effect
    case Untouched => after == before
    case Created => before == None && after == Some(1)
    case Bumped => before.Some? && after == Some(before.value + 1)
    case Removed => before.Some? && after == None
  }

  lemma EffectOnVersion(s: State, key: string, change: Change, clock: Clock, r: Resource)
    requires Legal(s, change)
    ensures Moves(EffectOn(change, r), VersionOf(s, r), VersionOf(Commit(s, key, change, clock), r))
  {
    assert VersionOf(Commit(s, key, change, clock), r) == VersionOf(Apply(s, change), r);
  }

  lemma CheckedAgainstExpected(s: State, request: Request, r: Resource)
    requires Fresh(s, request) && Checked(ChangeMade(s, request), r)
    ensures VersionOf(s, r) == Some(request.content.body.expectedVersion)
  {
    FreshIsLegal(s, request);
  }

  // ---------------------------------------------------------------- runs

  /** What one request of a run did to the version of `r`. */
  function EffectAt(run: History, i: nat, r: Resource): Effect
    requires i < |run.requests|
  {
    if Fresh(run.states[i], run.requests[i]) then EffectOn(ChangeMade(run.states[i], run.requests[i]), r)
    else Untouched
  }

  /** The version of `r` after the first `i` requests of a run. */
  function VersionAfter(run: History, i: nat, r: Resource): Option<int>
    requires i <= |run.requests|
  {
    VersionOf(run.states[i], r)
  }

  lemma VersionStep(run: History, i: nat, r: Resource)
    requires i < |run.requests|
    ensures Moves(EffectAt(run, i, r), VersionAfter(run, i, r), VersionAfter(run, i + 1, r))
  {
    var s, request := run.states[i], run.requests[i];
    StepHolds(run, i);
    StepCases(s, request);
    if Fresh(s, request) {
      FreshIsLegal(s, request);
      EffectOnVersion(s, KeyOf(request), ChangeMade(s, request), request.clock, r);
    }
  }

  /** The number of accepted mutations of `r` among the requests `i .. j`. */
  function Bumps(run: History, i: nat, j: nat, r: Resource): nat
    requires i <= j <= |run.requests|
    decreases j
  {
    if i == j then 0 else Bumps(run, i, j - 1, r) + if EffectAt(run, j - 1, r).Bumped? then 1 else 0
  }

  /** No request in `i .. j` removes `r`. */
  predicate Stays(run: History, i: nat, j: nat, r: Resource)
    requires i <= j <= |run.requests|
  {
    forall k | i <= k < j :: EffectAt(run, k, r) != Removed
  }

  lemma StaysUntil(run: History, i: nat, j: nat, r: Resource)
    requires i < j <= |run.requests| && Stays(run, i, j, r)
    ensures Stays(run, i, j - 1, r)
  {
  }

  /** One more request: the version moves as its effect says. */
  lemma OneMore(run: History, i: nat, j: nat, r: Resource) returns (effect: Effect)
    requires i < j <= |run.requests| && Stays(run, i, j, r)
    ensures Moves(effect, VersionAfter(run, j - 1, r), VersionAfter(run, j, r)) && effect != Removed
    ensures Bumps(run, i, j, r) == Bumps(run, i, j - 1, r) + if effect.Bumped? then 1 else 0
  {
    effect := EffectAt(run, j - 1, r);
    VersionStep(run, j - 1, r);
  }

  lemma Moved(effect: Effect, before: Option<int>, after: Option<int>, start: int, bumps: nat)
    requires Moves(effect, before, after) && effect != Removed && before == Some(start + bumps)
    ensures after == Some(start + bumps + if effect.Bumped? then 1 else 0)
  {
  }

  lemma CountsOneMore(run: History, i: nat, j: nat, r: Resource, start: int)
    requires i < j <= |run.requests| && Stays(run, i, j, r)
    requires VersionAfter(run, j - 1, r) == Some(start + Bumps(run, i, j - 1, r))
    ensures VersionAfter(run, j, r) == Some(start + Bumps(run, i, j, r))
  {
    var effect := OneMore(run, i, j, r);
    Moved(effect, VersionAfter(run, j - 1, r), VersionAfter(run, j, r), start, Bumps(run, i, j - 1, r));
  }

  /** While `r` exists, `n` accepted mutations add exactly `n` to its version. */
  lemma {:induction false} VersionCountsMutations(run: History, i: nat, j: nat, r: Resource)
    requires i <= j <= |run.requests| && Stays(run, i, j, r)
    requires VersionAfter(run, i, r).Some?
    ensures VersionAfter(run, j, r) == Some(VersionAfter(run, i, r).value + Bumps(run, i, j, r))
    decreases j
  {
    if i < j {
      StaysUntil(run, i, j, r);
      VersionCountsMutations(run, i, j - 1, r);
      CountsOneMore(run, i, j, r, VersionAfter(run, i, r).value);
    }
  }

  lemma OnlyEntitiesAreRemoved(run: History, i: nat, j: nat, r: Resource)
    requires i <= j <= |run.requests| && !r.EntityNamed?
    ensures Stays(run, i, j, r)
  {
  }

  /** The request at `i` was accepted against the version of `r` it expected. */
  predicate AcceptedAt(run: History, i: nat, r: Resource)
    requires i < |run.requests|
  {
    Fresh(run.states[i], run.requests[i]) && Checked(ChangeMade(run.states[i], run.requests[i]), r)
  }

  /** Two accepted mutations of `r` expected different versions, the later one a higher one. */
  lemma NoLostUpdate(run: History, i: nat, j: nat, r: Resource)
    requires i < j < |run.requests| && AcceptedAt(run, i, r) && AcceptedAt(run, j, r)
    requires Stays(run, i, j, r)
    ensures run.requests[i].content.Decoded? && run.requests[j].content.Decoded?
    ensures run.requests[i].content.body.expectedVersion < run.requests[j].content.body.expectedVersion
  {
    CheckedAgainstExpected(run.states[i], run.requests[i], r);
    CheckedAgainstExpected(run.states[j], run.requests[j], r);
    VersionStep(run, i, r);
    VersionCountsMutations(run, i + 1, j, r);
  }

  /** For users, roles, the plan, the run and the task: over any run, at most one mutation is
      accepted for each expected version. */
  lemma OneAcceptedPerVersion(run: History, i: nat, j: nat, r: Resource)
    requires i < |run.requests| && j < |run.requests| && !r.EntityNamed?
    requires AcceptedAt(run, i, r) && AcceptedAt(run, j, r)
    requires run.requests[i].content.Decoded? && run.requests[j].content.Decoded?
    requires run.requests[i].content.body.expectedVersion == run.requests[j].content.body.expectedVersion
    ensures i == j
  {
    if i < j {
      OnlyEntitiesAreRemoved(run, i, j, r);
      NoLostUpdate(run, i, j, r);
    } else if j < i {
      OnlyEntitiesAreRemoved(run, j, i, r);
      NoLostUpdate(run, j, i, r);
    }
  }

  lemma LogGrows(s: State, request: Request, r: Resource)
    requires |s.audits| >= 1
    requires VersionOf(s, r).Some? ==> 1 <= VersionOf(s, r).value <= |s.audits|
    ensures var t := Serve(s, request).0;
            |t.audits| >= 1 && (VersionOf(t, r).Some? ==> 1 <= VersionOf(t, r).value <= |t.audits|)
  {
    StepCases(s, request);
    if Fresh(s, request) {
      var change := ChangeMade(s, request);
      FreshIsLegal(s, request);
      EffectOnVersion(s, KeyOf(request), change, request.clock, r);
    }
  }

  /** Versions are positive and at most the number of audit entries, so they stay within int64
      for every log shorter than 2^63. */
  lemma {:induction false} VersionsBounded(run: History, n: nat, r: Resource)
    requires n <= |run.requests|
    ensures |run.states[n].audits| >= 1
    ensures VersionOf(run.states[n], r).Some? ==>
              1 <= VersionOf(run.states[n], r).value <= |run.states[n].audits|
    decreases n
  {
    if n > 0 {
      VersionsBounded(run, n - 1, r);
      StepHolds(run, n - 1);
      LogGrows(run.states[n - 1], run.requests[n - 1], r);
    }
  }

  /** System roles keep their name and version in every state. */
  lemma SystemRolesForever(run: History, n: nat, key: string)
    requires n <= |run.requests| && key in SAMPLE_ROLE_KEYS
    ensures key in run.states[n].roles && run.states[n].roles[key] == Role(key, key, true, 1)
  {
    AlwaysConsistent(run, n);
  }
}
