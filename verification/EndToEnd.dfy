/** From what a browser submits to the durable row: which submissions take effect themselves once
    Studio reports them as done, and what a reviewed deletion that is applied again comes to. */
module EndToEnd {
  import opened Text
  import opened Drafts
  import opened ProviderModel
  import opened Runs
  import opened WholeSystem

  import A = PlanApply
  import T = Transactions

  type SentForm = WholeSystem.Form
  type Fields = map<string, seq<string>>

  datatype Page = IdentityPage | WorkflowPage | QuotaPage

  /** What a browser submits: an entity, a deletion to plan, a kept plan to apply, or a page's form. */
  datatype Sheet =
    | EntitySheet(create: bool, entity: Entity, version: nat)
    | PlanSheet(code: string, version: nat)
    | ApplySheet(reference: string, plan: DeletionPlan)
    | PageSheet(page: Page, fields: Fields)

  function Action(fields: Fields): string {
    if "action" in fields && fields["action"] != [] then fields["action"][0] else ""
  }

  /** The scope of a page's form has the digest of the whole form. */
  function ScopeOf(sheet: Sheet, digest: Fields -> string): Scope {
    match sheet
    case EntitySheet(create, entity, version) => Mutating(create, entity.code, version)
    case PlanSheet(code, version) => PlanningDeletion(code, version)
    case ApplySheet(reference, _) => ApplyingDeletion(reference)
    case PageSheet(IdentityPage, fields) => Identifying(Action(fields), digest(fields))
    case PageSheet(WorkflowPage, fields) => Operating(Action(fields), digest(fields))
    case PageSheet(QuotaPage, fields) => Publishing(digest(fields))
  }

  /** No two of these forms have the same digest, and no digest has a colon. */
  ghost predicate Distinguishes(digest: Fields -> string, forms: set<Fields>) {
    && (forall fields | fields in forms :: ':' !in digest(fields))
    && forall fields, other | fields in forms && other in forms && digest(fields) == digest(other) :: fields == other
  }

  /** How the handlers turn a sheet into a request. */
  ghost predicate FromSheet(form: SentForm, sheet: Sheet, digest: Fields -> string, forms: set<Fields>,
                            ask: Sheet -> Request) {
    && form.scope == Printed(ScopeOf(sheet, digest)) && (sheet.PageSheet? ==> sheet.fields in forms)
    && ask(sheet).content.Decoded? && SameAsk(form.request, Keyed(ask(sheet), form.key))
  }

  /** Every form that was sent came from a sheet, and a reference of a session names one plan. */
  ghost predicate FromSheets(events: seq<Event>, digest: Fields -> string, forms: set<Fields>, ask: Sheet -> Request) {
    && Distinguishes(digest, forms)
    && (forall i | 0 <= i < |events| && events[i].Sent? ::
          exists sheet :: FromSheet(events[i].form, sheet, digest, forms, ask))
    && forall i, j, first, second | 0 <= i < |events| && 0 <= j < |events| && events[i].Sent? && events[j].Sent?
                                    && FromSheet(events[i].form, first, digest, forms, ask)
                                    && FromSheet(events[j].form, second, digest, forms, ask)
                                    && events[i].form.session == events[j].form.session
                                    && first.ApplySheet? && second.ApplySheet? && first.reference == second.reference ::
         first == second
  }

  /** Two sheets with the same scope are the same, unless they are entities or applies. */
  lemma SheetsDiffer(sheet: Sheet, other: Sheet, digest: Fields -> string, forms: set<Fields>)
    requires Distinguishes(digest, forms)
    requires (sheet.PageSheet? ==> sheet.fields in forms) && (other.PageSheet? ==> other.fields in forms)
    requires Printed(ScopeOf(sheet, digest)) == Printed(ScopeOf(other, digest)) && !sheet.EntitySheet?
    ensures sheet == other || (sheet.ApplySheet? && other.ApplySheet? && sheet.reference == other.reference)
  {
    ScopesDiffer(ScopeOf(sheet, digest), ScopeOf(other, digest));
  }

  lemma SheetsAskOnce(w: Whole, i: nat, sheet: Sheet, digest: Fields -> string, forms: set<Fields>,
                      ask: Sheet -> Request)
    requires Inv(w) && i < |w.studio.events| && w.studio.events[i].Sent?
    requires FromSheets(w.studio.events, digest, forms, ask)
    requires FromSheet(w.studio.events[i].form, sheet, digest, forms, ask) && !sheet.EntitySheet?
    ensures OneAsk(w.studio.events, w.studio.events[i].form)
  {
    var events, form := w.studio.events, w.studio.events[i].form;
    forall j | 0 <= j < |events| && events[j].Sent? && events[j].form.key == form.key
      ensures SameAsk(events[j].form.request, form.request)
    {
      var other :| FromSheet(events[j].form, other, digest, forms, ask);
      SheetsDiffer(sheet, other, digest, forms);
      assert sheet == other;
    }
  }

  /** Whatever was submitted but an entity took effect itself, exactly once, when Studio reports it as
      done: a planned deletion, an applied plan, and every form of the identity, workflow and quota
      pages. (`EditedForms.EditedNameIsLost` has the entity that did not.) */
  lemma ConfirmedSheetTookEffect(processes: map<int, State>, browsers: set<int>, moves: seq<Move>, i: nat,
                                 sheet: Sheet, digest: Fields -> string, forms: set<Fields>, ask: Sheet -> Request)
    requires Possible(Initial(processes, browsers), moves)
    requires var events := Execute(Initial(processes, browsers), moves).studio.events;
             && i < |events| && events[i].Confirmed? && FromSheets(events, digest, forms, ask)
             && FromSheet(events[i].form, sheet, digest, forms, ask) && !sheet.EntitySheet?
    ensures var w := Execute(Initial(processes, browsers), moves);
            OwnRequestTookEffect(w, w.studio.events[i].form)
  {
    InitialInv(processes, browsers);
    AlwaysInv(Initial(processes, browsers), moves);
    var w := Execute(Initial(processes, browsers), moves);
    var j := ConfirmedWasSent(w, i);
    SheetsAskOnce(w, j, sheet, digest, forms, ask);
    SameAskTakesEffect(w, i);
  }

  lemma ConfirmedWasSent(w: Whole, i: nat) returns (j: nat)
    requires Inv(w) && i < |w.studio.events| && w.studio.events[i].Confirmed?
    ensures j < |w.studio.events| && w.studio.events[j] == Sent(w.studio.events[i].form)
  {
    assert Truthful(w, w.studio.events[i]);
    j :| 0 <= j < |w.studio.events| && w.studio.events[j] == Sent(w.studio.events[i].form);
  }

  // ---------------------------------------------------------------- applying again

  /** The request at `i` took effect under the key. */
  predicate TookEffect(run: History, i: nat, key: string) {
    i < |run.requests| && FreshAt(run, i, key)
  }

  /** Every form that was sent under the key asks for what the call's draft asks for. */
  ghost predicate AsksFor(events: seq<Event>, key: string, first: A.Call, second: A.Call, ask: Draft -> Request) {
    && ask(first.draft).content.Decoded? && ask(second.draft).content.Decoded?
    && (exists i | 0 <= i < |events| :: events[i].Sent? && events[i].form.key == key)
    && forall i | 0 <= i < |events| && events[i].Sent? && events[i].form.key == key ::
         SameAsk(events[i].form.request, Keyed(ask(first.draft), key))
         || SameAsk(events[i].form.request, Keyed(ask(second.draft), key))
  }

  lemma CallTakesEffectOnce(call: A.Call, ask: Draft -> Request, processes: map<int, State>, browsers: set<int>,
                            moves: seq<Move>, i: nat, j: nat)
    requires Possible(Initial(processes, browsers), moves)
    requires var w := Execute(Initial(processes, browsers), moves);
             && AsksFor(w.studio.events, call.key, call, call, ask)
             && TookEffect(w.provider.applied, i, call.key) && TookEffect(w.provider.applied, j, call.key)
    ensures i == j
    ensures var applied := Execute(Initial(processes, browsers), moves).provider.applied;
            SameAsk(applied.requests[i], Keyed(ask(call.draft), call.key))
  {
    InitialInv(processes, browsers);
    AlwaysInv(Initial(processes, browsers), moves);
    var w := Execute(Initial(processes, browsers), moves);
    EffectAtMostOnce(w.provider.applied, i, j, call.key);
    var k :| 0 <= k < |w.studio.events| && w.studio.events[k].Sent? && w.studio.events[k].form.key == call.key;
    EffectWasSent(w, w.studio.events[k].form, i);
  }

  /** A reviewed deletion or migration that is applied again after a failure sends the same call, and
      what takes effect under its key, whichever process served which attempt and however it crashed,
      is one request that asks for the reviewed draft. */
  lemma ReviewedCallTakesEffectOnce(flow: A.Flow, table: Table, reference: string, key: Option<string>,
                                    outcome: A.Outcome<()>, ops: seq<Op>, again: Option<string>,
                                    outcome': A.Outcome<()>, first: A.Call, second: A.Call, ask: Draft -> Request,
                                    processes: map<int, State>, browsers: set<int>, moves: seq<Move>, i: nat, j: nat)
    requires key != Some("") && (outcome.Failure? || outcome.Unreached?) && !outcome'.Unreached?
    requires A.Apply(flow, table, reference, true, key, A.Failure).2 == Some(first)
    requires forall k | 0 <= k < |ops| :: A.Harmless(flow, reference, ops[k])
    requires var later := PerformAll(A.Apply(flow, table, reference, true, key, outcome).0, ops);
             A.Apply(flow, later, reference, true, again, outcome').2 == Some(second)
    requires Possible(Initial(processes, browsers), moves)
    requires var w := Execute(Initial(processes, browsers), moves);
             && AsksFor(w.studio.events, first.key, first, second, ask)
             && TookEffect(w.provider.applied, i, first.key) && TookEffect(w.provider.applied, j, second.key)
    ensures first == second && i == j
    ensures var applied := Execute(Initial(processes, browsers), moves).provider.applied;
            SameAsk(applied.requests[i], Keyed(ask(first.draft), first.key))
  {
    A.RetrySendsTheSameCall(flow, table, reference, key, outcome, ops, again, outcome', first);
    CallTakesEffectOnce(first, ask, processes, browsers, moves, i, j);
  }
}
