/** Deletion requests of any number of browsers and sessions, interleaved at every access to a
    session's draft map and every call to the provider. */
module PlanRaces {
  import opened Text
  import opened ProviderModel
  import opened Drafts
  import opened PlanApply

  /** How far a thread is with planning or applying one deletion. */
  datatype Place =
    | Idle
    | Planning(session: string, code: string, version: nat)
    | Planned(session: string, code: string, version: nat, plan: DeletionPlan)
    | Loading(session: string, reference: string, draft: Draft, confirmation: string)
    | Sending(session: string, reference: string, draft: Draft, confirmation: string, key: string)
    | Clearing(session: string, reference: string, draft: Draft, done: nat)

  /** A plan that a session keeps under a reference. */
  datatype Kept = Kept(session: string, reference: string, plan: DeletionPlan)

  /** A deletion that was sent, with what its form had as confirmation. */
  datatype Posted = Posted(session: string, reference: string, confirmation: string, code: string, version: int,
                           key: string)

  /** `tables` are the draft maps of the active sessions; `kept` and `sent` record, for the
      statements, every plan that was ever stored and every deletion that was sent. */
  datatype System = System(tables: map<string, Table>, threads: map<int, Place>, kept: set<Kept>,
                           sent: seq<Posted>)

  datatype Step =
    | Open(session: string)
    | End(session: string)
    | Other(session: string, op: Op)
    | PlanKey(t: int, session: string, code: string, version: nat, key: Option<string>)
    | PlanAnswer(t: int, answer: Option<DeletionPlan>)
    | PlanKeep(t: int, draws: seq<Option<string>>)
    | ApplyLoad(t: int, session: string, reference: string, confirmation: string)
    | ApplyKey(t: int, key: Option<string>)
    | ApplySend(t: int, outcome: Outcome<()>)
    | ApplyClear(t: int)

  function Initial(threads: set<int>): System {
    System(map[], map t | t in threads :: Idle, {}, [])
  }

  function Goto(s: System, t: int, place: Place): System {
    s.(threads := s.threads[t := place])
  }

  /** One draft operation of a session; an ended session refuses. */
  function Access(s: System, session: string, op: Op): (System, Answer) {
    if session in s.tables then
      var (table, answer) := Perform(s.tables[session], op);
      (s.(tables := s.tables[session := table]), answer)
    else (s, Refused)
  }

  const CATEGORY: string := Category(DeletionFlow)

  /** Other handlers never store a deletion draft, and the client checks that a plan is for the
      version it asked about. */
  predicate Enabled(s: System, step: Step) {
    match step
    case Open(session) => session !in s.tables
    case End(_) => true
    case Other(_, op) => op.Store? ==> op.draft.Some? ==> !op.draft.value.Deletion?
    case PlanKey(t, _, _, _, _) => t in s.threads && s.threads[t].Idle?
    case PlanAnswer(t, answer) =>
      t in s.threads && s.threads[t].Planning?
      && (answer.Some? ==>
            answer.value.code == s.threads[t].code && answer.value.expectedVersion == s.threads[t].version)
    case PlanKeep(t, _) => t in s.threads && s.threads[t].Planned?
    case ApplyLoad(t, _, _, _) => t in s.threads && s.threads[t].Idle?
    case ApplyKey(t, _) => t in s.threads && s.threads[t].Loading?
    case ApplySend(t, _) => t in s.threads && s.threads[t].Sending?
    case ApplyClear(t) =>
      t in s.threads && s.threads[t].Clearing? && s.threads[t].draft.Deletion?
  }

  function TakeKeep(s: System, t: int, draws: seq<Option<string>>): System
    requires t in s.threads && s.threads[t].Planned?
  {
    var place := s.threads[t];
    var planScope := PlanScope(DeletionFlow, place.code, place.version);
    if !place.plan.deletable then Goto(Access(s, place.session, Clear(planScope)).0, t, Idle)
    else
      var draft := Deletion(place.plan, planScope);
      var (next, answer) := Access(s, place.session, Store(CATEGORY, Some(draft), draws));
      var kept := if answer.Text? then {Kept(place.session, answer.value, place.plan)} else {};
      Goto(next.(kept := s.kept + kept), t, Idle)
  }

  function TakeClear(s: System, t: int): System
    requires t in s.threads && s.threads[t].Clearing? && s.threads[t].draft.Deletion?
  {
    var place := s.threads[t];
    var op := if place.done == 0 then Delete(CATEGORY, place.reference)
              else if place.done == 1 then Clear(place.draft.planScope)
              else Clear(ApplyScope(DeletionFlow, place.reference));
    Goto(Access(s, place.session, op).0, t, if place.done < 2 then place.(done := place.done + 1) else Idle)
  }

  function TakeSend(s: System, t: int, outcome: Outcome<()>): System
    requires t in s.threads && s.threads[t].Sending?
  {
    var place := s.threads[t];
    var deletion := if place.draft.Deletion?
                    then [Posted(place.session, place.reference, place.confirmation, place.draft.plan.code,
                                 place.draft.plan.expectedVersion, place.key)] else [];
    Goto(s.(sent := s.sent + if outcome.Unreached? then [] else deletion), t,
         if outcome.Success? || outcome.Conflict?
         then Clearing(place.session, place.reference, place.draft, 0) else Idle)
  }

  function Take(s: System, step: Step): System
    requires Enabled(s, step)
  {
    match step
    case Open(session) => s.(tables := s.tables[session := map[]])
    case End(session) => s.(tables := s.tables - {session})
    case Other(session, op) => Access(s, session, op).0
    case PlanKey(t, session, code, version, key) =>
      var (next, answer) := Access(s, session, KeyFor(PlanScope(DeletionFlow, code, version), key));
      Goto(next, t, if answer.Text? then Planning(session, code, version) else Idle)
    case PlanAnswer(t, answer) =>
      var place := s.threads[t];
      Goto(s, t, if answer.Some? then Planned(place.session, place.code, place.version, answer.value) else Idle)
    case PlanKeep(t, draws) => TakeKeep(s, t, draws)
    case ApplyLoad(t, session, reference, confirmation) =>
      if session in s.tables
         && Stopped(DeletionFlow, s.tables[session], reference, confirmation == DELETE_ENTITY) == None
      then
        var draft := Loaded(DeletionFlow, s.tables[session], reference).value;
        Goto(s, t, Loading(session, reference, draft, confirmation))
      else s
    case ApplyKey(t, key) =>
      var place := s.threads[t];
      var (next, answer) := Access(s, place.session, KeyFor(ApplyScope(DeletionFlow, place.reference), key));
      Goto(next, t, if answer.Text?
                    then Sending(place.session, place.reference, place.draft, place.confirmation, answer.value)
                    else Idle)
    case ApplySend(t, outcome) => TakeSend(s, t, outcome)
    case ApplyClear(t) => TakeClear(s, t)
  }

  // ---------------------------------------------------------------- the invariant

  /** A draft that the session stored itself, of a plan that may be applied. */
  predicate Reviewed(s: System, session: string, reference: string, draft: Draft) {
    draft.Deletion? && draft.plan.deletable && Kept(session, reference, draft.plan) in s.kept
  }

  ghost predicate TableOk(s: System, session: string, table: Table) {
    forall reference :: StateKey(CATEGORY, reference) in table && table[StateKey(CATEGORY, reference)].Deletion? ==>
      Reviewed(s, session, reference, table[StateKey(CATEGORY, reference)])
  }

  predicate PlaceOk(s: System, place: Place) {
    match place
    case Loading(session, reference, draft, confirmation) =>
      Reviewed(s, session, reference, draft) && confirmation == "DELETE_ENTITY"
    case Sending(session, reference, draft, confirmation, _) =>
      Reviewed(s, session, reference, draft) && confirmation == "DELETE_ENTITY"
    case Clearing(session, reference, draft, _) => Reviewed(s, session, reference, draft)
    case Planned(_, code, version, plan) => plan.code == code && plan.expectedVersion == version
    case _ => true
  }

  /** The deletion was confirmed, and it is for a plan that its own session stored as deletable under
      the reference that was applied. */
  predicate Justified(s: System, deletion: Posted) {
    deletion.confirmation == "DELETE_ENTITY"
    && exists kept | kept in s.kept ::
      kept.session == deletion.session && kept.reference == deletion.reference && kept.plan.deletable
      && kept.plan.code == deletion.code && kept.plan.expectedVersion == deletion.version
  }

  ghost predicate Inv(s: System) {
    && (forall session | session in s.tables :: TableOk(s, session, s.tables[session]))
    && (forall t | t in s.threads :: PlaceOk(s, s.threads[t]))
    && (forall i | 0 <= i < |s.sent| :: Justified(s, s.sent[i]))
  }

  lemma CategoryIsSafe()
    ensures SafeCategory(CATEGORY) && Category(DeletionFlow) == CATEGORY
  {
  }

  /** An operation that stores no deletion draft keeps the table's drafts reviewed. */
  lemma OrdinaryAccess(s: System, session: string, table: Table, op: Op)
    requires TableOk(s, session, table) && (op.Store? && op.draft.Some? ==> !op.draft.value.Deletion?)
    ensures TableOk(s, session, Perform(table, op).0)
  {
  }

  lemma StoringAccess(s: System, session: string, table: Table, draft: Draft, draws: seq<Option<string>>)
    requires TableOk(s, session, table) && draft.Deletion? && draft.plan.deletable
    ensures var (next, answer) := Perform(table, Store(CATEGORY, Some(draft), draws));
            var kept := s.kept + if answer.Text? then {Kept(session, answer.value, draft.plan)} else {};
            TableOk(s.(kept := kept), session, next)
  {
    CategoryIsSafe();
    var (next, answer) := Perform(table, Store(CATEGORY, Some(draft), draws));
    forall reference | StateKey(CATEGORY, reference) in next && answer.Text?
                       && StateKey(CATEGORY, reference) == StateKey(CATEGORY, answer.value)
      ensures reference == answer.value
    {
      StateKeyInjective(CATEGORY, reference, CATEGORY, answer.value);
    }
  }

  /** A step that only adds to the history keeps what was justified. */
  lemma Grows(s: System, next: System)
    requires Inv(s) && s.kept <= next.kept
    requires forall session | session in next.tables ::
               TableOk(next, session, next.tables[session])
               || (session in s.tables && next.tables[session] == s.tables[session])
    requires forall t | t in next.threads ::
               PlaceOk(next, next.threads[t]) || (t in s.threads && next.threads[t] == s.threads[t])
    requires forall i | 0 <= i < |next.sent| ::
               Justified(next, next.sent[i]) || (i < |s.sent| && next.sent[i] == s.sent[i])
    ensures Inv(next)
  {
    forall t | t in next.threads && t in s.threads && next.threads[t] == s.threads[t]
      ensures PlaceOk(next, next.threads[t])
    {
      assert PlaceOk(s, s.threads[t]);
    }
    forall i | 0 <= i < |next.sent| && i < |s.sent| && next.sent[i] == s.sent[i]
      ensures Justified(next, next.sent[i])
    {
      assert Justified(s, s.sent[i]);
    }
  }

  lemma AccessKeepsInv(s: System, session: string, op: Op, t: int, place: Place)
    requires Inv(s) && (op.Store? && op.draft.Some? ==> !op.draft.value.Deletion?) && PlaceOk(s, place)
    ensures Inv(Access(s, session, op).0) && Inv(Goto(Access(s, session, op).0, t, place))
  {
    if session in s.tables {
      OrdinaryAccess(s, session, s.tables[session], op);
    }
    Grows(s, Access(s, session, op).0);
    Grows(s, Goto(Access(s, session, op).0, t, place));
  }

  lemma KeepKeepsInv(s: System, t: int, draws: seq<Option<string>>)
    requires Inv(s) && t in s.threads && s.threads[t].Planned?
    ensures Inv(TakeKeep(s, t, draws))
  {
    var place := s.threads[t];
    var planScope := PlanScope(DeletionFlow, place.code, place.version);
    if !place.plan.deletable {
      AccessKeepsInv(s, place.session, Clear(planScope), t, Idle);
    } else {
      if place.session in s.tables {
        StoringAccess(s, place.session, s.tables[place.session], Deletion(place.plan, planScope), draws);
      }
      Grows(s, TakeKeep(s, t, draws));
    }
  }

  lemma SendKeepsInv(s: System, t: int, outcome: Outcome<()>)
    requires Inv(s) && t in s.threads && s.threads[t].Sending?
    ensures Inv(TakeSend(s, t, outcome))
  {
    var place := s.threads[t];
    var next := TakeSend(s, t, outcome);
    assert PlaceOk(s, place);
    forall i | |s.sent| <= i < |next.sent| ensures Justified(next, next.sent[i]) {
      assert Kept(place.session, place.reference, place.draft.plan) in next.kept;
    }
    Grows(s, next);
  }

  lemma TakeKeepsInv(s: System, step: Step)
    requires Inv(s) && Enabled(s, step)
    ensures Inv(Take(s, step)) && s.kept <= Take(s, step).kept
  {
    match step
    case Open(_) => Grows(s, Take(s, step));
    case End(_) => Grows(s, Take(s, step));
    case Other(session, op) => AccessKeepsInv(s, session, op, 0, Idle);
    case PlanKey(t, session, code, version, key) =>
      var op := KeyFor(PlanScope(DeletionFlow, code, version), key);
      AccessKeepsInv(s, session, op, t, Idle);
      AccessKeepsInv(s, session, op, t, Planning(session, code, version));
    case PlanAnswer(_, _) => Grows(s, Take(s, step));
    case PlanKeep(t, draws) => KeepKeepsInv(s, t, draws);
    case ApplyLoad(_, _, _, _) => LoadKeepsInv(s, step);
    case ApplyKey(t, key) =>
      var place := s.threads[t];
      var op := KeyFor(ApplyScope(DeletionFlow, place.reference), key);
      var answer := Access(s, place.session, op).1;
      assert PlaceOk(s, place);
      AccessKeepsInv(s, place.session, op, t,
                     if answer.Text?
                     then Sending(place.session, place.reference, place.draft, place.confirmation, answer.value)
                     else Idle);
    case ApplySend(t, outcome) => SendKeepsInv(s, t, outcome);
    case ApplyClear(t) => ClearKeepsInv(s, t);
  }

  lemma LoadKeepsInv(s: System, step: Step)
    requires Inv(s) && step.ApplyLoad? && Enabled(s, step)
    ensures Inv(Take(s, step))
  {
    CategoryIsSafe();
    Grows(s, Take(s, step));
  }

  lemma ClearKeepsInv(s: System, t: int)
    requires Inv(s) && t in s.threads && s.threads[t].Clearing? && s.threads[t].draft.Deletion?
    ensures Inv(TakeClear(s, t))
  {
    var place := s.threads[t];
    var op := if place.done == 0 then Delete(CATEGORY, place.reference)
              else if place.done == 1 then Clear(place.draft.planScope)
              else Clear(ApplyScope(DeletionFlow, place.reference));
    assert PlaceOk(s, place);
    AccessKeepsInv(s, place.session, op, t, if place.done < 2 then place.(done := place.done + 1) else Idle);
  }

  // ---------------------------------------------------------------- every run

  predicate Possible(s: System, steps: seq<Step>)
    decreases |steps|
  {
    steps == [] || (Enabled(s, steps[0]) && Possible(Take(s, steps[0]), steps[1..]))
  }

  function Execute(s: System, steps: seq<Step>): System
    requires Possible(s, steps)
    decreases |steps|
  {
    if steps == [] then s else Execute(Take(s, steps[0]), steps[1..])
  }

  lemma {:induction false} AlwaysInv(s: System, steps: seq<Step>)
    requires Inv(s) && Possible(s, steps)
    ensures Inv(Execute(s, steps)) && s.kept <= Execute(s, steps).kept
    decreases |steps|
  {
    if steps != [] {
      TakeKeepsInv(s, steps[0]);
      AlwaysInv(Take(s, steps[0]), steps[1..]);
    }
  }

  /** Whatever browsers, handlers and session ends do, in any order: every deletion that is sent was
      confirmed, and it is for the code and version of a plan that the same session had stored as
      deletable under the applied reference. */
  lemma OnlyReviewedDeletions(threads: set<int>, steps: seq<Step>, i: nat) returns (kept: Kept)
    requires Possible(Initial(threads), steps) && i < |Execute(Initial(threads), steps).sent|
    ensures var s := Execute(Initial(threads), steps);
            && s.sent[i].confirmation == "DELETE_ENTITY"
            && kept in s.kept && kept.session == s.sent[i].session && kept.reference == s.sent[i].reference
            && kept.plan.deletable
            && kept.plan.code == s.sent[i].code && kept.plan.expectedVersion == s.sent[i].version
  {
    AlwaysInv(Initial(threads), steps);
    var s := Execute(Initial(threads), steps);
    assert Justified(s, s.sent[i]);
    kept :| kept in s.kept && kept.session == s.sent[i].session && kept.reference == s.sent[i].reference
            && kept.plan.deletable
            && kept.plan.code == s.sent[i].code && kept.plan.expectedVersion == s.sent[i].version;
  }
}
