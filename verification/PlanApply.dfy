/** Reviewed plans: a deletion or a migration is planned, kept as a draft of the session under
    stable keys, and applied from that draft only. */
module PlanApply {
  import opened Text
  import opened ProviderModel
  import opened Drafts
  import opened Broker
  import opened RoleList
  import opened Structs

  datatype Flow = DeletionFlow | MigrationFlow

  function Category(flow: Flow): string {
    match flow
    case DeletionFlow => "metadata-delete"
    case MigrationFlow => "migration"
  }

  lemma CategoriesAreSafe(flow: Flow)
    ensures SafeCategory(Category(flow))
  {
  }

  function PlanScope(flow: Flow, code: string, version: nat): string {
    match flow
    case DeletionFlow => Printed(PlanningDeletion(code, version))
    case MigrationFlow => Printed(PlanningMigration(code, version))
  }

  function ApplyScope(flow: Flow, reference: string): string {
    match flow
    case DeletionFlow => Printed(ApplyingDeletion(reference))
    case MigrationFlow => Printed(ApplyingMigration(reference))
  }

  /** Plans of different entities or versions, and applies of different references, have keys of their own. */
  lemma PlanScopesDiffer(flow: Flow, code: string, version: nat, other: Flow, code': string, version': nat)
    requires PlanScope(flow, code, version) == PlanScope(other, code', version')
    ensures flow == other && code == code' && version == version'
  {
    var scope := if flow.DeletionFlow? then PlanningDeletion(code, version) else PlanningMigration(code, version);
    var scope' := if other.DeletionFlow? then PlanningDeletion(code', version')
                  else PlanningMigration(code', version');
    ScopesDiffer(scope, scope');
  }

  lemma ApplyScopesDiffer(flow: Flow, reference: string, other: Flow, reference': string)
    requires ApplyScope(flow, reference) == ApplyScope(other, reference')
    ensures flow == other && reference == reference'
  {
    var scope := if flow.DeletionFlow? then ApplyingDeletion(reference) else ApplyingMigration(reference);
    var scope' := if other.DeletionFlow? then ApplyingDeletion(reference') else ApplyingMigration(reference');
    ScopesDiffer(scope, scope');
  }

  /** How a call to the provider ended; `Unreached` means that no request was sent. */
  datatype Outcome<+T> = Success(value: T) | Conflict | Failure | Unreached

  /** A mutating request to the provider: what it applies and its idempotency key. */
  datatype Call = Call(draft: Draft, key: string)

  datatype Page =
    | Failed | Review(reference: Option<string>) | Expired | Blocked | Unconfirmed | Applied

  // ---------------------------------------------------------------- one request at a time

  /** Planning: a key for the plan scope, the plan, and a draft of it unless it must not be
      applied. */
  function Plan(flow: Flow, table: Table, planScope: string, key: Option<string>, outcome: Outcome<Draft>,
                draws: seq<Option<string>>): (Table, Page)
  {
    var (keyed, answer) := Perform(table, KeyFor(planScope, key));
    if !answer.Text? || !outcome.Success? then (keyed, Failed)
    else if outcome.value.Deletion? && !outcome.value.plan.deletable then
      (Perform(keyed, Clear(planScope)).0, Review(None))
    else
      var (stored, reference) := Perform(keyed, Store(Category(flow), Some(outcome.value), draws));
      (stored, if reference.Text? then Review(Some(reference.value)) else Failed)
  }

  /** A draft of the right kind. */
  predicate Compatible(flow: Flow, draft: Draft) {
    match flow
    case DeletionFlow => draft.Deletion?
    case MigrationFlow => draft.Migration? && draft.entities != [] && draft.plans != []
  }

  /** The draft that an apply request finds. */
  function Loaded(flow: Flow, table: Table, reference: string): Option<Draft> {
    var found := Perform(table, Load(Category(flow), reference)).1.found;
    if found.Some? && Compatible(flow, found.value) then found else None
  }

  /** Why an apply request stops before it asks for a key. */
  function Stopped(flow: Flow, table: Table, reference: string, confirmed: bool): Option<Page> {
    var draft := Loaded(flow, table, reference);
    if reference == "" || |reference| > 256 || HasControl(reference) then Some(Failed)
    else if draft == None then Some(Expired)
    else if draft.value.Deletion? && !draft.value.plan.deletable then Some(Blocked)
    else if !confirmed then Some(Unconfirmed) else None
  }

  /** Applying: a key for the draft, one request for exactly the draft, and on success or conflict
      the draft and its two scopes go. */
  function Apply(flow: Flow, table: Table, reference: string, confirmed: bool, key: Option<string>,
                 outcome: Outcome<()>): (Table, Page, Option<Call>)
  {
    var stopped := Stopped(flow, table, reference, confirmed);
    if stopped.Some? then (table, stopped.value, None)
    else
      var draft := Loaded(flow, table, reference).value;
      Sent(flow, table, reference, draft, key, outcome)
  }

  /** From the key on. */
  function Sent(flow: Flow, table: Table, reference: string, draft: Draft, key: Option<string>,
                outcome: Outcome<()>): (Table, Page, Option<Call>)
    requires !draft.Key?
  {
    var (keyed, answer) := Perform(table, KeyFor(ApplyScope(flow, reference), key));
    if !answer.Text? then (keyed, Failed, None)
    else
      var call := if outcome.Unreached? then None else Some(Call(draft, answer.value));
      if outcome.Success? || outcome.Conflict? then
        (Finished(flow, keyed, reference, draft.planScope), if outcome.Success? then Applied else Expired, call)
      else (keyed, Failed, call)
  }

  function Finished(flow: Flow, table: Table, reference: string, planScope: string): Table {
    table - {StateKey(Category(flow), reference)} - {planScope} - {ApplyScope(flow, reference)}
  }

  /** A key is kept for the scope, or one can be drawn and kept. */
  predicate KeyAvailable(table: Table, scope: string, key: Option<string>) {
    || (scope in table && table[scope].Key? && table[scope].text != "")
    || (key.Some? && |table| < 128)
  }

  /** An apply request reaches the provider exactly when it is confirmed, its reference is sound and
      names a draft that may be applied, and there is a key; it carries that draft. */
  lemma AppliedExactly(flow: Flow, table: Table, reference: string, confirmed: bool, key: Option<string>,
                       outcome: Outcome<()>)
    ensures var sent := Apply(flow, table, reference, confirmed, key, outcome).2;
            var name := StateKey(if flow.DeletionFlow? then "metadata-delete" else "migration", reference);
            && (sent.Some? <==>
                  && confirmed && 1 <= |reference| <= 256 && !HasControl(reference) && name in table
                  && (if flow.DeletionFlow? then table[name].Deletion? && table[name].plan.deletable
                      else table[name].Migration? && table[name].entities != [] && table[name].plans != [])
                  && KeyAvailable(table, ApplyScope(flow, reference), key) && !outcome.Unreached?)
            && (sent.Some? ==> sent.value.draft == table[name])
  {
    CategoriesAreSafe(flow);
  }

  // ---------------------------------------------------------------- a session that ends meanwhile

  /** A session's flag and draft map. */
  datatype Life = Life(active: bool, table: Table)

  /** The session ends here, through another request, if it ends at all. */
  function Ending(life: Life, here: bool): Life {
    if here then Life(false, map[]) else life
  }

  /** An access to the draft map; an ended session refuses. */
  function Reached(life: Life, op: Op): (Life, Answer) {
    if life.active then
      var (table, answer) := Perform(life.table, op);
      (Life(true, table), answer)
    else (life, if op.Load? then Snapshot(None) else Refused)
  }

  /** `Plan` when the session may end before its access number `ends`: the key, the client, the draft. */
  function PlanEnding(flow: Flow, life: Life, planScope: string, key: Option<string>, outcome: Outcome<Draft>,
                      draws: seq<Option<string>>, ends: Option<nat>): (Life, Page)
  {
    var (keyed, answer) := Reached(Ending(life, ends == Some(0)), KeyFor(planScope, key));
    if !answer.Text? then (keyed, Failed)
    else
      var called := Ending(keyed, ends == Some(1));
      if !called.active || !outcome.Success? then (called, Failed)
      else
        var kept := Ending(called, ends == Some(2));
        if outcome.value.Deletion? && !outcome.value.plan.deletable then
          (Reached(kept, Clear(planScope)).0, Review(None))
        else
          var (stored, reference) := Reached(kept, Store(Category(flow), Some(outcome.value), draws));
          (stored, if reference.Text? then Review(Some(reference.value)) else Failed)
  }

  /** A session that does not end plans as `Plan` says. One that ends keeps nothing, and no reference
      is ever shown for a draft that is not there. */
  lemma PlanEnded(flow: Flow, table: Table, planScope: string, key: Option<string>, outcome: Outcome<Draft>,
                  draws: seq<Option<string>>, ends: Option<nat>)
    ensures var (life, page) := PlanEnding(flow, Life(true, table), planScope, key, outcome, draws, ends);
            && (life.active ==> (life.table, page) == Plan(flow, table, planScope, key, outcome, draws))
            && (!life.active ==> life.table == map[] && page in {Failed, Review(None)})
            && (ends == None ==> life.active)
  {
  }

  /** `Sent` when the session may end. */
  function Sending(flow: Flow, life: Life, reference: string, draft: Draft, key: Option<string>,
                   outcome: Outcome<()>, ends: Option<nat>): (Life, Page, Option<Call>)
    requires !draft.Key?
  {
    var (keyed, answer) := Reached(life, KeyFor(ApplyScope(flow, reference), key));
    if !answer.Text? then (keyed, Failed, None)
    else
      var calling := Ending(keyed, ends == Some(2));
      if !calling.active || outcome.Unreached? then (calling, Failed, None)
      else
        (if outcome.Failure? then calling
         else if ends.Some? && ends.value in {3, 4, 5} then Life(false, map[])
         else Life(true, Finished(flow, calling.table, reference, draft.planScope)),
         if outcome.Success? then Applied else if outcome.Conflict? then Expired else Failed,
         Some(Call(draft, answer.value)))
  }

  /** `Apply` when the session may end before its access number `ends`: the draft, the key, the client,
      and the three removals. */
  function ApplyEnding(flow: Flow, life: Life, reference: string, confirmed: bool, key: Option<string>,
                       outcome: Outcome<()>, ends: Option<nat>): (Life, Page, Option<Call>)
  {
    if reference == "" || |reference| > 256 || HasControl(reference) then (life, Failed, None)
    else
      var loading := Ending(life, ends == Some(0));
      if !loading.active then (loading, Expired, None)
      else
        var stopped := Stopped(flow, loading.table, reference, confirmed);
        if stopped.Some? then (loading, stopped.value, None)
        else
          var draft := Loaded(flow, loading.table, reference).value;
          Sending(flow, Ending(loading, ends == Some(1)), reference, draft, key, outcome, ends)
  }

  lemma SendingEnded(flow: Flow, table: Table, reference: string, draft: Draft, key: Option<string>,
                     outcome: Outcome<()>, ends: Option<nat>)
    requires !draft.Key?
    ensures Prefix(Sending(flow, Life(true, table), reference, draft, key, outcome, ends),
                   Sent(flow, table, reference, draft, key, outcome), ends)
  {
  }

  /** What a session that may end did of what it does when it does not. */
  predicate Prefix(part: (Life, Page, Option<Call>), whole: (Table, Page, Option<Call>), ends: Option<nat>) {
    && (part.0.active ==> (part.0.table, part.1, part.2) == whole)
    && (!part.0.active ==> part.0.table == map[])
    && (part.2.Some? ==> part.2 == whole.2 && part.1 == whole.1)
    && (part.1 == Applied ==> part.2.Some?)
    && (ends == None ==> part.0.active)
  }

  /** A session that does not end applies as `Apply` says. Whenever it ends, the provider gets the one
      reviewed call under its kept key or nothing, and the page never says applied without that call. */
  lemma ApplyEnded(flow: Flow, table: Table, reference: string, confirmed: bool, key: Option<string>,
                   outcome: Outcome<()>, ends: Option<nat>)
    ensures Prefix(ApplyEnding(flow, Life(true, table), reference, confirmed, key, outcome, ends),
                   Apply(flow, table, reference, confirmed, key, outcome), ends)
  {
    if ends != Some(0) && Stopped(flow, table, reference, confirmed) == None {
      var draft := Loaded(flow, table, reference).value;
      if ends == Some(1) {
        assert ApplyEnding(flow, Life(true, table), reference, confirmed, key, outcome, ends)
            == (Life(false, map[]), Failed, None);
      } else {
        SendingEnded(flow, table, reference, draft, key, outcome, ends);
      }
    }
  }

  // ---------------------------------------------------------------- the handlers

  ghost function LifeOf(session: Session): Life
    reads session
  {
    Life(session.active, session.drafts)
  }

  /** Between two accesses another request may end the session. */
  method Meanwhile(session: Session, ends: bool)
    modifies session`drafts, session`active
    ensures LifeOf(session) == Ending(old(LifeOf(session)), ends)
  {
    if ends {
      session.active, session.drafts := false, map[];
    }
  }

  /** What the provider has been asked to change. */
  class Provider {
    var calls: seq<Call>

    constructor ()
      ensures calls == []
    {
      calls := [];
    }

    /** Sends one request, unless the session's client could not be reached. */
    method Send(call: Call, outcome: Outcome<()>)
      modifies this
      ensures calls == old(calls) + if outcome.Unreached? then [] else [call]
    {
      if !outcome.Unreached? {
        calls := calls + [call];
      }
    }
  }

  /** The draft under a reference in a session's map. */
  predicate Keeps(table: Table, category: string, reference: string, draft: Draft) {
    StateKey(category, reference) in table && table[StateKey(category, reference)] == draft
  }

  /** `metadataDeletePlan`, from the entity that it found on. A page with a reference shows a deletable plan
      that is kept under it. */
  method MetadataDeletePlan(session: Session, entity: Entity, key: Option<string>, outcome: Outcome<DeletionPlan>,
                            draws: seq<Option<string>>, ends: Option<nat>) returns (page: Page)
    requires entity.version >= 0 && |draws| == 3
    modifies session`drafts, session`active
    ensures var planScope := PlanScope(DeletionFlow, entity.code, entity.version);
            (LifeOf(session), page)
            == PlanEnding(DeletionFlow, old(LifeOf(session)), planScope, key,
                          if outcome.Success? then Success(Deletion(outcome.value, planScope)) else Failure,
                          draws, ends)
    ensures page.Review? && page.reference.Some? ==>
              && outcome.Success? && outcome.value.deletable && session.active
              && Keeps(session.drafts, "metadata-delete", page.reference.value,
                       Deletion(outcome.value, Printed(PlanningDeletion(entity.code, entity.version))))
              && StateKey("metadata-delete", page.reference.value) !in old(session.drafts)
  {
    var planScope := PlanScope(DeletionFlow, entity.code, entity.version);
    Meanwhile(session, ends == Some(0));
    var answer := session.DraftKey(planScope, key);
    if !answer.Text? {
      return Failed;
    }
    Meanwhile(session, ends == Some(1));
    if !session.active || !outcome.Success? {
      return Failed;
    }
    Meanwhile(session, ends == Some(2));
    var plan := outcome.value;
    if !plan.deletable {
      session.ClearDraft(planScope);
      return Review(None);
    }
    FirstFreeIsFree(session.drafts, Category(DeletionFlow), draws);
    var reference := session.StoreDraft(Category(DeletionFlow), Some(Deletion(plan, planScope)), draws);
    return if reference.Text? then Review(Some(reference.value)) else Failed;
  }

  /** Removes a draft and its two scopes, one access after the other. */
  method ClearReviewed(flow: Flow, session: Session, reference: string, planScope: string, ends: Option<nat>)
    requires session.active && reference != ""
    modifies session`drafts, session`active
    ensures LifeOf(session) == if ends.Some? && ends.value in {3, 4, 5} then Life(false, map[])
                               else Life(true, Finished(flow, old(session.drafts), reference, planScope))
  {
    CategoriesAreSafe(flow);
    Meanwhile(session, ends == Some(3));
    session.DeleteDraft(Category(flow), reference);
    Meanwhile(session, ends == Some(4));
    session.ClearDraft(planScope);
    Meanwhile(session, ends == Some(5));
    var applyScope := ApplyScope(flow, reference);
    session.ClearDraft(applyScope);
  }

  /** Asks for the key, sends the call, and clears what was reviewed. */
  method SendReviewed(flow: Flow, session: Session, provider: Provider, reference: string, draft: Draft,
                      key: Option<string>, outcome: Outcome<()>, ends: Option<nat>) returns (page: Page)
    requires !draft.Key? && reference != ""
    modifies session`drafts, session`active, provider
    ensures var (life, shown, call) := Sending(flow, old(LifeOf(session)), reference, draft, key, outcome, ends);
            && LifeOf(session) == life && page == shown
            && provider.calls == old(provider.calls) + if call.Some? then [call.value] else []
  {
    var keyed := session.DraftKey(ApplyScope(flow, reference), key);
    if !keyed.Text? {
      return Failed;
    }
    Meanwhile(session, ends == Some(2));
    if !session.active {
      return Failed;
    }
    var called := draft;
    if draft.Migration? {
      var sent := CloneKept(draft.entities);
      called := draft.(entities := Values(sent));
    }
    provider.Send(Call(called, keyed.value), outcome);
    if outcome.Success? || outcome.Conflict? {
      ClearReviewed(flow, session, reference, draft.planScope, ends);
    }
    return if outcome.Success? then Applied else if outcome.Conflict? then Expired else Failed;
  }

  /** Copies of the entities that a draft keeps, each with its own list of fields. */
  method CloneKept(entities: seq<Entity>) returns (sent: seq<EntityStruct>)
    ensures forall i | 0 <= i < |sent| :: InBounds(sent[i].fields) && fresh(sent[i].fields.backing)
    ensures Values(sent) == entities
  {
    var kept := DecodeList(entities);
    sent := CloneEntities(kept);
    ValuesAt(sent, entities);
  }

  /** `metadataDeleteApply`. Without the confirmation nothing is sent and nothing is reported or
      forgotten, and what is sent is the deletable plan that the session keeps under the reference. */
  method MetadataDeleteApply(session: Session, provider: Provider, reference: string, confirmation: string,
                             key: Option<string>, outcome: Outcome<()>, ends: Option<nat>) returns (page: Page)
    modifies session`drafts, session`active, provider
    ensures var (life, shown, call) := ApplyEnding(DeletionFlow, old(LifeOf(session)), reference,
                                                   confirmation == DELETE_ENTITY, key, outcome, ends);
            && LifeOf(session) == life && page == shown
            && provider.calls == old(provider.calls) + if call.Some? then [call.value] else []
    ensures confirmation != "DELETE_ENTITY" ==>
              provider.calls == old(provider.calls) && page != Applied
              && (session.active ==> LifeOf(session) == old(LifeOf(session)))
    ensures provider.calls != old(provider.calls) ==>
              && old(session.active) && reference != "" && |provider.calls| == |old(provider.calls)| + 1
              && var draft := provider.calls[|old(provider.calls)|].draft;
              draft.Deletion? && draft.plan.deletable && Keeps(old(session.drafts), "metadata-delete", reference, draft)
    ensures page == Applied ==> provider.calls != old(provider.calls) && outcome.Success?
  {
    if reference == "" || |reference| > 256 || HasControl(reference) {
      return Failed;
    }
    Meanwhile(session, ends == Some(0));
    var answer := session.LoadDraft(Category(DeletionFlow), reference);
    if answer.found == None || !answer.found.value.Deletion? {
      return Expired;
    }
    var draft := answer.found.value;
    if !draft.plan.deletable {
      return Blocked;
    }
    if confirmation != DELETE_ENTITY {
      return Unconfirmed;
    }
    Meanwhile(session, ends == Some(1));
    page := SendReviewed(DeletionFlow, session, provider, reference, draft, key, outcome, ends);
  }

  method CloneFound(entity: EntityStruct) returns (cloned: seq<EntityStruct>)
    requires InBounds(entity.fields)
    ensures forall i | 0 <= i < |cloned| :: InBounds(cloned[i].fields) && fresh(cloned[i].fields.backing)
    ensures Values(cloned) == [EntityOf(entity)]
  {
    cloned := CloneEntities([entity]);
    ValuesAt(cloned, [EntityOf(entity)]);
  }

  /** `migrationPlan`, from the entity that it found on. The draft keeps copies of the entities, so
      that overwriting a list of fields of the entity found cannot reach it. */
  method MigrationPlan(session: Session, entity: EntityStruct, key: Option<string>, outcome: Outcome<seq<string>>,
                       draws: seq<Option<string>>, ends: Option<nat>) returns (page: Page)
    requires entity.version >= 0 && InBounds(entity.fields) && |draws| == 3
    modifies session`drafts, session`active
    ensures var planScope := PlanScope(MigrationFlow, entity.code, entity.version);
            (LifeOf(session), page)
            == PlanEnding(MigrationFlow, old(LifeOf(session)), planScope, key,
                          if outcome.Success? then Success(Migration([EntityOf(entity)], outcome.value, planScope))
                          else Failure, draws, ends)
  {
    var planScope := PlanScope(MigrationFlow, entity.code, entity.version);
    Meanwhile(session, ends == Some(0));
    var answer := session.DraftKey(planScope, key);
    if !answer.Text? {
      return Failed;
    }
    Meanwhile(session, ends == Some(1));
    if !session.active || !outcome.Success? {
      return Failed;
    }
    Meanwhile(session, ends == Some(2));
    var cloned := CloneFound(entity);
    var draft := Migration(Values(cloned), outcome.value, planScope);
    var reference := session.StoreDraft(Category(MigrationFlow), Some(draft), draws);
    return if reference.Text? then Review(Some(reference.value)) else Failed;
  }

  /** `migrationApply`, with the same guards. */
  method MigrationApply(session: Session, provider: Provider, reference: string, confirmed: bool,
                        key: Option<string>, outcome: Outcome<()>, ends: Option<nat>) returns (page: Page)
    modifies session`drafts, session`active, provider
    ensures var (life, shown, call) := ApplyEnding(MigrationFlow, old(LifeOf(session)), reference, confirmed, key,
                                                   outcome, ends);
            && LifeOf(session) == life && page == shown
            && provider.calls == old(provider.calls) + if call.Some? then [call.value] else []
    ensures !confirmed ==>
              provider.calls == old(provider.calls) && page != Applied
              && (session.active ==> LifeOf(session) == old(LifeOf(session)))
    ensures provider.calls != old(provider.calls) ==>
              && old(session.active) && reference != "" && |provider.calls| == |old(provider.calls)| + 1
              && var draft := provider.calls[|old(provider.calls)|].draft;
              draft.Migration? && draft.entities != [] && draft.plans != []
              && Keeps(old(session.drafts), "migration", reference, draft)
    ensures page == Applied ==> provider.calls != old(provider.calls) && outcome.Success?
  {
    if reference == "" || |reference| > 256 || HasControl(reference) {
      return Failed;
    }
    Meanwhile(session, ends == Some(0));
    var answer := session.LoadDraft(Category(MigrationFlow), reference);
    if answer.found == None || !answer.found.value.Migration? {
      return Expired;
    }
    var draft := answer.found.value;
    if draft.entities == [] || draft.plans == [] {
      return Expired;
    }
    assert Loaded(MigrationFlow, session.drafts, reference) == Some(draft);
    if !confirmed {
      return Unconfirmed;
    }
    Meanwhile(session, ends == Some(1));
    page := SendReviewed(MigrationFlow, session, provider, reference, draft, key, outcome, ends);
  }

  // ---------------------------------------------------------------- guarded mutations

  /** What every guarded form does with the draft map: a key for its scope, one request under that
      key, and on success the scope is cleared. The last part is the key that was sent. */
  function Mutate(table: Table, scope: string, key: Option<string>, outcome: Outcome<()>): (Table, Option<string>) {
    var (keyed, answer) := Perform(table, KeyFor(scope, key));
    if !answer.Text? then (keyed, None)
    else
      (if outcome.Success? then Perform(keyed, Clear(scope)).0 else keyed,
       if outcome.Unreached? then None else Some(answer.value))
  }

  /** `Mutate` when the session may end before its access number `ends`: the key, the client, the
      removal. */
  function MutateEnding(life: Life, scope: string, key: Option<string>, outcome: Outcome<()>, ends: Option<nat>)
    : (Life, Option<string>)
  {
    var (keyed, answer) := Reached(Ending(life, ends == Some(0)), KeyFor(scope, key));
    if !answer.Text? then (keyed, None)
    else
      var calling := Ending(keyed, ends == Some(1));
      if !calling.active || outcome.Unreached? then (calling, None)
      else
        (if outcome.Success? then Reached(Ending(calling, ends == Some(2)), Clear(scope)).0 else calling,
         Some(answer.value))
  }

  /** A session that does not end saves as `Mutate` says; one that ends sends the same key or nothing. */
  lemma MutateEnded(table: Table, scope: string, key: Option<string>, outcome: Outcome<()>, ends: Option<nat>)
    ensures var (life, sent) := MutateEnding(Life(true, table), scope, key, outcome, ends);
            && (life.active ==> (life.table, sent) == Mutate(table, scope, key, outcome))
            && (!life.active ==> life.table == map[])
            && (sent.Some? ==> sent == Mutate(table, scope, key, outcome).1)
            && (ends == None ==> life.active)
  {
  }

  /** The common part of the handlers that save entities, users, roles, runs, tasks and plans. */
  method GuardedMutation(session: Session, scope: Scope, key: Option<string>, outcome: Outcome<()>,
                         ends: Option<nat>) returns (sent: Option<string>)
    modifies session`drafts, session`active
    ensures (LifeOf(session), sent) == MutateEnding(old(LifeOf(session)), Printed(scope), key, outcome, ends)
  {
    Meanwhile(session, ends == Some(0));
    var answer := session.DraftKey(Printed(scope), key);
    if !answer.Text? {
      return None;
    }
    Meanwhile(session, ends == Some(1));
    if !session.active || outcome.Unreached? {
      return None;
    }
    if outcome.Success? {
      Meanwhile(session, ends == Some(2));
      session.ClearDraft(Printed(scope));
    }
    return Some(answer.value);
  }

  /** A form that was saved leaves nothing behind. */
  lemma SavedLeavesNothing(table: Table, scope: Scope, key: string)
    requires |Printed(scope)| <= 1024 && |table| < MAX_SESSION_DRAFTS && key != "" && Printed(scope) !in table
    ensures Mutate(table, Printed(scope), Some(key), Success(())) == (table, Some(key))
  {
    WordsAreSimple(scope);
    FreshKey(table, Printed(scope), key);
    assert table[Printed(scope) := Key(key)] - {Printed(scope)} == table;
  }

  /** A form that was not confirmed as saved is sent again under the same key, whatever other forms
      do in between. */
  lemma UnsavedKeepsItsKey(table: Table, scope: Scope, key: string, outcome: Outcome<()>, ops: seq<Op>,
                           again: Option<string>, outcome': Outcome<()>)
    requires |Printed(scope)| <= 1024 && |table| < MAX_SESSION_DRAFTS && key != "" && Printed(scope) !in table
    requires !outcome.Success? && !outcome'.Unreached?
    requires forall i | 0 <= i < |ops| :: ops[i] != Clear(Printed(scope))
    ensures var after := Mutate(table, Printed(scope), Some(key), outcome).0;
            Mutate(PerformAll(after, ops), Printed(scope), again, outcome').1 == Some(key)
  {
    var text := Printed(scope);
    ScopesAreUnmarked(scope);
    WordsAreSimple(scope);
    FreshKey(table, text, key);
    KeyIsStable(table[text := Key(key)], ops, text, again);
  }

  // ---------------------------------------------------------------- what becomes of a draft

  predicate UsualReference(reference: string) {
    reference != "" && |reference| <= 256 && !HasControl(reference)
  }

  lemma ScopeFacts(flow: Flow, reference: string)
    requires |reference| <= 256
    ensures !HasPrefix(ApplyScope(flow, reference), STATE) && 1 <= |ApplyScope(flow, reference)| <= 1024
  {
    match flow
    case DeletionFlow => ScopesAreUnmarked(ApplyingDeletion(reference));
    case MigrationFlow => ScopesAreUnmarked(ApplyingMigration(reference));
  }

  /** An operation on the draft map that cannot remove the draft or the key of an apply. */
  predicate Harmless(flow: Flow, reference: string, op: Op) {
    !Marked(op) && op != Delete(Category(flow), reference) && op != Clear(ApplyScope(flow, reference))
  }

  lemma SnapshotUntouched(flow: Flow, table: Table, reference: string, op: Op)
    requires StateKey(Category(flow), reference) in table && Harmless(flow, reference, op)
    ensures var key := StateKey(Category(flow), reference);
            key in Perform(table, op).0 && Perform(table, op).0[key] == table[key]
  {
    CategoriesAreSafe(flow);
    StateKeyMarked(Category(flow), reference);
    match op
    case Store(category, _, draws) => FreeIsFree(table, category, draws);
    case Delete(category, other) =>
      if SafeCategory(category) && StateKey(category, other) == StateKey(Category(flow), reference) {
        StateKeyInjective(category, other, Category(flow), reference);
      }
    case _ =>
  }

  lemma {:induction false} FreeIsFree(table: Table, category: string, draws: seq<Option<string>>)
    ensures var free := FirstFree(table, category, draws);
            free.Some? ==> free in draws && StateKey(category, free.value) !in table
  {
    if draws != [] && draws[0].Some? && StateKey(category, draws[0].value) in table {
      FreeIsFree(table, category, draws[1..]);
    }
  }

  /** The draft and the key of a call are in the map. */
  predicate Armed(flow: Flow, table: Table, reference: string, call: Call) {
    var name := StateKey(Category(flow), reference);
    var scope := ApplyScope(flow, reference);
    && UsualReference(reference) && Reviewable(flow, call.draft) && call.key != ""
    && name in table && table[name] == call.draft && scope in table && table[scope] == Key(call.key)
  }

  predicate Reviewable(flow: Flow, draft: Draft) {
    Compatible(flow, draft) && (draft.Deletion? ==> draft.plan.deletable)
  }

  /** A request that failed leaves its draft and its key behind. */
  lemma FailureArms(flow: Flow, table: Table, reference: string, key: Option<string>, outcome: Outcome<()>, call: Call)
    requires key != Some("") && (outcome.Failure? || outcome.Unreached?)
    requires Apply(flow, table, reference, true, key, Failure).2 == Some(call)
    ensures Armed(flow, Apply(flow, table, reference, true, key, outcome).0, reference, call)
  {
    var name := StateKey(Category(flow), reference);
    assert Stopped(flow, table, reference, true) == None;
    assert name in table && table[name] == call.draft;
    ScopeFacts(flow, reference);
    StateKeyMarked(Category(flow), reference);
    assert name != ApplyScope(flow, reference);
  }

  lemma ArmedSends(flow: Flow, table: Table, reference: string, key: Option<string>, outcome: Outcome<()>, call: Call)
    requires Armed(flow, table, reference, call) && !outcome.Unreached?
    ensures Apply(flow, table, reference, true, key, outcome).2 == Some(call)
  {
    CategoriesAreSafe(flow);
    ScopeFacts(flow, reference);
    assert Loaded(flow, table, reference) == Some(call.draft);
    assert Perform(table, KeyFor(ApplyScope(flow, reference), key)) == (table, Text(call.key));
  }

  lemma {:induction false} ArmedStays(flow: Flow, table: Table, reference: string, ops: seq<Op>, call: Call)
    requires Armed(flow, table, reference, call)
    requires forall i | 0 <= i < |ops| :: Harmless(flow, reference, ops[i])
    ensures Armed(flow, PerformAll(table, ops), reference, call)
    decreases |ops|
  {
    if ops != [] {
      ScopeFacts(flow, reference);
      SnapshotUntouched(flow, table, reference, ops[0]);
      KeyUntouched(table, ops[0], ApplyScope(flow, reference));
      ArmedStays(flow, Perform(table, ops[0]).0, reference, ops[1..], call);
    }
  }

  /** After a failed request, whatever harmless happens, applying the reference again sends the
      very same call with the very same key, whatever key is drawn then. */
  lemma RetrySendsTheSameCall(flow: Flow, table: Table, reference: string, key: Option<string>,
                              outcome: Outcome<()>, ops: seq<Op>, again: Option<string>, outcome': Outcome<()>,
                              call: Call)
    requires key != Some("") && (outcome.Failure? || outcome.Unreached?) && !outcome'.Unreached?
    requires Apply(flow, table, reference, true, key, Failure).2 == Some(call)
    requires forall i | 0 <= i < |ops| :: Harmless(flow, reference, ops[i])
    ensures var later := PerformAll(Apply(flow, table, reference, true, key, outcome).0, ops);
            Apply(flow, later, reference, true, again, outcome').2 == Some(call)
  {
    var failed := Apply(flow, table, reference, true, key, outcome).0;
    FailureArms(flow, table, reference, key, outcome, call);
    ArmedStays(flow, failed, reference, ops, call);
    ArmedSends(flow, PerformAll(failed, ops), reference, again, outcome', call);
  }

  /** Operations that do not happen to draw the same reference again. */
  predicate Redraws(flow: Flow, reference: string, op: Op) {
    op.Store? && op.category == Category(flow) && Some(reference) in op.draws
  }

  lemma {:induction false} StaysGone(flow: Flow, table: Table, reference: string, ops: seq<Op>)
    requires StateKey(Category(flow), reference) !in table
    requires forall i | 0 <= i < |ops| :: !Marked(ops[i]) && !Redraws(flow, reference, ops[i])
    ensures StateKey(Category(flow), reference) !in PerformAll(table, ops)
    decreases |ops|
  {
    if ops != [] {
      var name := StateKey(Category(flow), reference);
      StateKeyMarked(Category(flow), reference);
      assert name !in Perform(table, ops[0]).0 by {
        if ops[0].Store? && SafeCategory(ops[0].category) {
          CategoriesAreSafe(flow);
          FreeIsFree(table, ops[0].category, ops[0].draws);
          var free := FirstFree(table, ops[0].category, ops[0].draws);
          if free.Some? && StateKey(ops[0].category, free.value) == name {
            StateKeyInjective(ops[0].category, free.value, Category(flow), reference);
          }
        }
      }
      StaysGone(flow, Perform(table, ops[0]).0, reference, ops[1..]);
    }
  }

  /** Once a draft was applied, or the provider answered with a conflict, no later request for its
      reference reaches the provider. */
  lemma NeverAppliedAgain(flow: Flow, table: Table, reference: string, key: Option<string>, outcome: Outcome<()>,
                          ops: seq<Op>, confirmed: bool, again: Option<string>, outcome': Outcome<()>)
    requires outcome.Success? || outcome.Conflict?
    requires Apply(flow, table, reference, true, key, outcome).2.Some?
    requires forall i | 0 <= i < |ops| :: !Marked(ops[i]) && !Redraws(flow, reference, ops[i])
    ensures var later := PerformAll(Apply(flow, table, reference, true, key, outcome).0, ops);
            Apply(flow, later, reference, confirmed, again, outcome').0 == later
            && Apply(flow, later, reference, confirmed, again, outcome').1 == Expired
            && Apply(flow, later, reference, confirmed, again, outcome').2 == None
  {
    StaysGone(flow, Apply(flow, table, reference, true, key, outcome).0, reference, ops);
  }

  // ---------------------------------------------------------------- a whole cycle

  /** Nothing of the cycle to come is in the map yet. */
  predicate Untouched(flow: Flow, table: Table, planScope: string, reference: string) {
    planScope !in table && StateKey(Category(flow), reference) !in table && ApplyScope(flow, reference) !in table
  }

  lemma KeysDiffer(flow: Flow, code: string, version: nat, reference: string)
    ensures PlanScope(flow, code, version) != ApplyScope(flow, reference)
    ensures StateKey(Category(flow), reference) != PlanScope(flow, code, version)
    ensures StateKey(Category(flow), reference) != ApplyScope(flow, reference)
  {
    StateKeyMarked(Category(flow), reference);
    match flow
    case DeletionFlow =>
      ScopesAreUnmarked(PlanningDeletion(code, version));
      ScopesAreUnmarked(ApplyingDeletion(reference));
      if PlanScope(flow, code, version) == ApplyScope(flow, reference) {
        ScopesDiffer(PlanningDeletion(code, version), ApplyingDeletion(reference));
      }
    case MigrationFlow =>
      ScopesAreUnmarked(PlanningMigration(code, version));
      ScopesAreUnmarked(ApplyingMigration(reference));
      if PlanScope(flow, code, version) == ApplyScope(flow, reference) {
        ScopesDiffer(PlanningMigration(code, version), ApplyingMigration(reference));
      }
  }

  /** The map after planning and after the key for applying was drawn. */
  function WithPlan(flow: Flow, table: Table, draft: Draft, reference: string, key: string): Table
    requires !draft.Key?
  {
    table[draft.planScope := Key(key)][StateKey(Category(flow), reference) := draft]
  }

  predicate Startable(flow: Flow, table: Table, code: string, version: nat, reference: string, draft: Draft) {
    var planScope := PlanScope(flow, code, version);
    && |planScope| <= 1024 && UsualReference(reference) && Untouched(flow, table, planScope, reference)
    && Reviewable(flow, draft) && draft.planScope == planScope
  }

  /** Asking for a key under a scope that is not in the map. */
  lemma FreshKey(table: Table, scope: string, key: string)
    requires scope !in table && 1 <= |scope| <= 1024 && key != ""
    ensures Perform(table, KeyFor(scope, Some(key)))
            == if |table| < MAX_SESSION_DRAFTS then (table[scope := Key(key)], Text(key)) else (table, Refused)
    ensures |table[scope := Key(key)]| == |table| + 1
  {
    assert table[scope := Key(key)].Keys == table.Keys + {scope};
  }

  lemma FreshSnapshot(flow: Flow, table: Table, reference: string, draft: Draft, more: seq<Option<string>>)
    requires StateKey(Category(flow), reference) !in table
    ensures Perform(table, Store(Category(flow), Some(draft), [Some(reference)] + more))
            == if |table| < MAX_SESSION_DRAFTS
               then (table[StateKey(Category(flow), reference) := draft], Text(reference)) else (table, Refused)
    ensures |table[StateKey(Category(flow), reference) := draft]| == |table| + 1
  {
    var name := StateKey(Category(flow), reference);
    CategoriesAreSafe(flow);
    assert ([Some(reference)] + more)[0] == Some(reference);
    assert FirstFree(table, Category(flow), [Some(reference)] + more) == Some(reference);
    assert table[name := draft].Keys == table.Keys + {name};
  }

  lemma RemovedAgain(table: Table, a: string, b: string, c: string, x: Draft, y: Draft, z: Draft)
    requires a !in table && b !in table && c !in table
    ensures table[a := x][b := y][c := z] - {b} - {a} - {c} == table
  {
  }

  lemma PlanningFills(flow: Flow, table: Table, code: string, version: nat, reference: string, draft: Draft,
                      key: string, more: seq<Option<string>>)
    requires Startable(flow, table, code, version, reference, draft) && key != ""
    ensures Plan(flow, table, draft.planScope, Some(key), Success(draft), [Some(reference)] + more)
            == if |table| <= 126 then (WithPlan(flow, table, draft, reference, key), Review(Some(reference)))
               else (if |table| < 128 then table[draft.planScope := Key(key)] else table, Failed)
    ensures |WithPlan(flow, table, draft, reference, key)| == |table| + 2
  {
    KeysDiffer(flow, code, version, reference);
    FreshKey(table, draft.planScope, key);
    FreshSnapshot(flow, table[draft.planScope := Key(key)], reference, draft, more);
  }

  lemma StoredIsLoaded(flow: Flow, table: Table, reference: string, draft: Draft)
    requires UsualReference(reference) && Reviewable(flow, draft)
    requires StateKey(Category(flow), reference) in table && table[StateKey(Category(flow), reference)] == draft
    ensures Stopped(flow, table, reference, true) == None && Loaded(flow, table, reference) == Some(draft)
  {
    CategoriesAreSafe(flow);
  }

  lemma ApplyingRestores(flow: Flow, table: Table, code: string, version: nat, reference: string, draft: Draft,
                         key: string, key': string, outcome: Outcome<()>)
    requires Startable(flow, table, code, version, reference, draft) && key' != ""
    requires outcome.Success? || outcome.Conflict?
    requires |WithPlan(flow, table, draft, reference, key)| == |table| + 2
    ensures var planned := WithPlan(flow, table, draft, reference, key);
            var applied := Apply(flow, planned, reference, true, Some(key'), outcome);
            if |table| <= 125
            then applied == (table, if outcome.Success? then Applied else Expired, Some(Call(draft, key')))
            else applied.2 == None
  {
    var stored := WithPlan(flow, table, draft, reference, key);
    var scope := ApplyScope(flow, reference);
    KeysDiffer(flow, code, version, reference);
    ScopeFacts(flow, reference);
    StoredIsLoaded(flow, stored, reference, draft);
    FreshKey(stored, scope, key');
    RemovedAgain(table, draft.planScope, StateKey(Category(flow), reference), scope, Key(key), draft, Key(key'));
  }

  /** A cycle of planning, reviewing and applying that the provider answers completes exactly when
      at most 125 drafts were there before, and then leaves the map as it found it. */
  lemma CycleRestores(flow: Flow, table: Table, code: string, version: nat, reference: string, draft: Draft,
                      key: string, key': string, more: seq<Option<string>>, outcome: Outcome<()>)
    requires Startable(flow, table, code, version, reference, draft)
    requires key != "" && key' != "" && (outcome.Success? || outcome.Conflict?)
    ensures var planned := Plan(flow, table, draft.planScope, Some(key), Success(draft), [Some(reference)] + more);
            var applied := Apply(flow, planned.0, reference, true, Some(key'), outcome);
            if |table| <= 125
            then planned.1 == Review(Some(reference))
                 && applied == (table, if outcome.Success? then Applied else Expired, Some(Call(draft, key')))
            else applied.2 == None
  {
    PlanningFills(flow, table, code, version, reference, draft, key, more);
    if |table| <= 126 {
      ApplyingRestores(flow, table, code, version, reference, draft, key, key', outcome);
    } else {
      KeysDiffer(flow, code, version, reference);
      assert Loaded(flow, Plan(flow, table, draft.planScope, Some(key), Success(draft), [Some(reference)] + more).0,
                    reference) == None;
    }
  }
}
