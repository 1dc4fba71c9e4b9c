/** Studio and the provider together: forms that browsers submit become requests under kept keys, the
    provider's processes serve them, and Studio learns their answers. */
module WholeSystem {
  import opened Text
  import opened Drafts
  import opened ProviderModel
  import opened Runs
  import opened Routing

  import T = Transactions

  /** A form of a session, sent under a key. */
  datatype Form = Form(session: string, scope: string, key: string, request: Request)

  /** What Studio has done, in order. */
  datatype Event = Sent(form: Form) | Confirmed(form: Form, reply: Reply) | Forgot(session: string, scope: string)
                 | Ended(session: string)

  datatype Browser = Quiet | Waiting(form: Form)

  /** The draft maps of the active sessions, the browsers' requests in progress, and the keys that
      clients other than this Studio use. */
  datatype Studio = Studio(tables: map<string, Table>, browsers: map<int, Browser>, events: seq<Event>,
                           foreign: set<string>)

  datatype Whole = Whole(provider: T.System, studio: Studio)

  datatype Move =
    | Open(session: string)
    | End(session: string)
    | Other(session: string, op: Op)
    | Submit(b: int, session: string, scope: string, request: Request, draw: Option<string>)
    | Lose(b: int)
    | Stranger(key: string)
    | Learn(b: int, i: nat)
    | Provide(step: T.Step)

  function Initial(processes: map<int, State>, browsers: set<int>): Whole {
    Whole(T.Initial(processes), Studio(map[], map b | b in browsers :: Quiet, [], {}))
  }

  /** The request with the key that Studio puts into it. */
  function Keyed(request: Request, key: string): Request
    requires request.content.Decoded?
  {
    request.(content := Decoded(request.content.body.(idempotencyKey := key)))
  }

  // ---------------------------------------------------------------- steps

  predicate UnsentKey(studio: Studio, key: string) {
    forall i | 0 <= i < |studio.events| && studio.events[i].Sent? :: studio.events[i].form.key != key
  }

  /** The two ask for the same; the provider's clock may have moved on. */
  predicate SameAsk(a: Request, b: Request) {
    a == b.(clock := a.clock)
  }

  predicate SentRequest(studio: Studio, request: Request) {
    exists i | 0 <= i < |studio.events| ::
      studio.events[i].Sent? && SameAsk(request, studio.events[i].form.request)
  }

  /** A request reaches the provider because Studio sent it or because some other client did. */
  predicate Known(studio: Studio, request: Request) {
    SentRequest(studio, request) || KeyOf(request) in studio.foreign
  }

  /** Drawn keys are new. Other handlers leave the keys of forms alone, except to clear them. */
  predicate StudioEnabled(studio: Studio, move: Move) {
    match move
    case Open(session) => session !in studio.tables
    case End(session) => session in studio.tables
    case Other(session, op) =>
      session in studio.tables && !op.KeyFor? && !Marked(op)
    case Submit(b, session, scope, request, draw) =>
      && b in studio.browsers && studio.browsers[b].Quiet? && session in studio.tables
      && !HasPrefix(scope, STATE) && request.content.Decoded? && IsMutation(request.route)
      && (draw.Some? ==> draw.value != "" && UnsentKey(studio, draw.value) && draw.value !in studio.foreign)
    case Lose(b) => b in studio.browsers
    case Stranger(key) => UnsentKey(studio, key)
    case _ => false
  }

  predicate Enabled(w: Whole, move: Move) {
    match move
    case Provide(step) => T.Enabled(w.provider, step) && (step.Lock? || step.Reject? ==> Known(w.studio, step.request))
    case Learn(b, i) =>
      && b in w.studio.browsers && w.studio.browsers[b].Waiting? && i < |w.provider.answers|
      && SameAsk(w.provider.answers[i].request, w.studio.browsers[b].form.request)
    case _ => StudioEnabled(w.studio, move)
  }

  function Record(studio: Studio, event: Event): Studio {
    studio.(events := studio.events + [event])
  }

  function StudioTake(studio: Studio, move: Move): Studio
    requires StudioEnabled(studio, move)
  {
    match move
    case Open(session) => studio.(tables := studio.tables[session := map[]])
    case End(session) => Record(studio.(tables := studio.tables - {session}), Ended(session))
    case Other(session, op) =>
      var next := studio.(tables := studio.tables[session := Perform(studio.tables[session], op).0]);
      if op.Clear? then Record(next, Forgot(session, op.scope)) else next
    case Submit(b, session, scope, request, draw) =>
      var (table, answer) := Perform(studio.tables[session], KeyFor(scope, draw));
      if !answer.Text? then studio
      else
        var form := Form(session, scope, answer.value, Keyed(request, answer.value));
        Record(studio.(tables := studio.tables[session := table], browsers := studio.browsers[b := Waiting(form)]),
               Sent(form))
    case Lose(b) => studio.(browsers := studio.browsers[b := Quiet])
    case Stranger(key) => studio.(foreign := studio.foreign + {key})
  }

  /** A success is an answer with status 200. */
  predicate Succeeded(answer: T.Answer) {
    answer.Answered? && answer.reply.status == 200
  }

  ghost function Take(w: Whole, move: Move): Whole
    requires Enabled(w, move)
  {
    match move
    case Provide(step) => w.(provider := T.Take(w.provider, step))
    case Learn(b, i) =>
      var next := w.studio.(browsers := w.studio.browsers[b := Quiet]);
      if Succeeded(w.provider.answers[i]) then
        w.(studio := Record(next, Confirmed(w.studio.browsers[b].form, w.provider.answers[i].reply)))
      else w.(studio := next)
    case _ => w.(studio := StudioTake(w.studio, move))
  }

  // ---------------------------------------------------------------- what Studio keeps

  predicate Forgets(event: Event, session: string, scope: string) {
    event == Forgot(session, scope) || event == Ended(session)
  }

  /** Between two places nothing forgot the form's key. */
  predicate KeptBetween(events: seq<Event>, i: nat, j: nat, session: string, scope: string)
    requires j <= |events|
  {
    forall k | i <= k < j :: !Forgets(events[k], session, scope)
  }

  ghost predicate FormsOk(events: seq<Event>) {
    forall i | 0 <= i < |events| && events[i].Sent? ::
      var form := events[i].form;
      && form.key != "" && !HasPrefix(form.scope, STATE)
      && KeyOf(form.request) == form.key && IsMutation(form.request.route)
  }

  /** A key belongs to one form of one session. */
  ghost predicate KeysBelong(events: seq<Event>) {
    forall i, j | 0 <= i < |events| && 0 <= j < |events| && events[i].Sent? && events[j].Sent?
                  && events[i].form.key == events[j].form.key ::
      events[i].form.session == events[j].form.session && events[i].form.scope == events[j].form.scope
  }

  /** A form that is sent again before its key was forgotten is sent under the same key. */
  ghost predicate SameKeys(events: seq<Event>) {
    forall i, j | 0 <= i < j < |events| && events[i].Sent? && events[j].Sent?
                  && events[i].form.session == events[j].form.session
                  && events[i].form.scope == events[j].form.scope
                  && KeptBetween(events, i, j, events[i].form.session, events[i].form.scope) ::
      events[i].form.key == events[j].form.key
  }

  /** A key that nothing forgot is still in its session's map. */
  ghost predicate KeptKeys(studio: Studio) {
    forall i | 0 <= i < |studio.events| && studio.events[i].Sent?
               && KeptBetween(studio.events, i, |studio.events|, studio.events[i].form.session,
                              studio.events[i].form.scope) ::
      Holds(studio, studio.events[i].form)
  }

  predicate Holds(studio: Studio, form: Form) {
    && form.session in studio.tables && form.scope in studio.tables[form.session]
    && studio.tables[form.session][form.scope] == Key(form.key)
  }

  predicate SentFor(events: seq<Event>, session: string, scope: string, key: string) {
    exists i | 0 <= i < |events| ::
      events[i].Sent? && events[i].form.session == session && events[i].form.scope == scope
      && events[i].form.key == key
  }

  /** Every key in a session's map was sent for its form. */
  ghost predicate HeldKeysSent(studio: Studio) {
    forall session, scope | session in studio.tables && scope in studio.tables[session]
                            && studio.tables[session][scope].Key? && !HasPrefix(scope, STATE) ::
      SentFor(studio.events, session, scope, studio.tables[session][scope].text)
  }

  ghost predicate ForeignApart(studio: Studio) {
    forall i | 0 <= i < |studio.events| && studio.events[i].Sent? :: studio.events[i].form.key !in studio.foreign
  }

  ghost predicate BrowsersWait(studio: Studio) {
    forall b | b in studio.browsers && studio.browsers[b].Waiting? :: Sent(studio.browsers[b].form) in studio.events
  }

  ghost predicate StudioInv(studio: Studio) {
    && FormsOk(studio.events) && KeysBelong(studio.events) && SameKeys(studio.events)
    && KeptKeys(studio) && HeldKeysSent(studio) && ForeignApart(studio) && BrowsersWait(studio)
  }

  // ---------------------------------------------------------------- one more event

  lemma KeptLonger(events: seq<Event>, event: Event, i: nat, session: string, scope: string)
    requires i <= |events|
    ensures KeptBetween(events + [event], i, |events|, session, scope)
            <==> KeptBetween(events, i, |events|, session, scope)
    ensures KeptBetween(events + [event], i, |events| + 1, session, scope)
            <==> KeptBetween(events, i, |events|, session, scope) && !Forgets(event, session, scope)
  {
    var longer := events + [event];
    assert longer[|events|] == event;
    assert forall k | i <= k < |events| :: longer[k] == events[k];
  }

  lemma SameKeysEarlier(events: seq<Event>, event: Event, i: nat, j: nat)
    requires SameKeys(events) && i < j < |events| && events[i].Sent? && events[j].Sent?
    requires events[i].form.session == events[j].form.session && events[i].form.scope == events[j].form.scope
    requires KeptBetween(events + [event], i, j, events[i].form.session, events[i].form.scope)
    ensures events[i].form.key == events[j].form.key
  {
    assert forall k | i <= k < j :: (events + [event])[k] == events[k];
    assert KeptBetween(events, i, j, events[i].form.session, events[i].form.scope);
  }

  lemma OtherEvent(events: seq<Event>, event: Event)
    requires FormsOk(events) && KeysBelong(events) && SameKeys(events) && !event.Sent?
    ensures FormsOk(events + [event]) && KeysBelong(events + [event]) && SameKeys(events + [event])
  {
    var longer := events + [event];
    forall i, j | 0 <= i < j < |longer| && longer[i].Sent? && longer[j].Sent?
                  && longer[i].form.session == longer[j].form.session && longer[i].form.scope == longer[j].form.scope
                  && KeptBetween(longer, i, j, longer[i].form.session, longer[i].form.scope)
      ensures longer[i].form.key == longer[j].form.key
    {
      SameKeysEarlier(events, event, i, j);
    }
  }

  /** What makes a new form fit what was sent before. */
  ghost predicate Fits(events: seq<Event>, form: Form) {
    && form.key != "" && !HasPrefix(form.scope, STATE)
    && KeyOf(form.request) == form.key && IsMutation(form.request.route)
    && (forall i | 0 <= i < |events| && events[i].Sent? && events[i].form.key == form.key ::
          events[i].form.session == form.session && events[i].form.scope == form.scope)
    && (forall i | 0 <= i < |events| && events[i].Sent? && events[i].form.session == form.session
                   && events[i].form.scope == form.scope
                   && KeptBetween(events, i, |events|, form.session, form.scope) ::
          events[i].form.key == form.key)
  }

  lemma SentEvent(events: seq<Event>, form: Form)
    requires FormsOk(events) && KeysBelong(events) && SameKeys(events) && Fits(events, form)
    ensures FormsOk(events + [Sent(form)]) && KeysBelong(events + [Sent(form)])
    ensures SameKeys(events + [Sent(form)])
  {
    var longer := events + [Sent(form)];
    forall i, j | 0 <= i < j < |longer| && longer[i].Sent? && longer[j].Sent?
                  && longer[i].form.session == longer[j].form.session && longer[i].form.scope == longer[j].form.scope
                  && KeptBetween(longer, i, j, longer[i].form.session, longer[i].form.scope)
      ensures longer[i].form.key == longer[j].form.key
    {
      if j < |events| {
        SameKeysEarlier(events, Sent(form), i, j);
      } else {
        KeptLonger(events, Sent(form), i, form.session, form.scope);
      }
    }
  }

  lemma SentForLonger(events: seq<Event>, event: Event, session: string, scope: string, key: string)
    requires SentFor(events, session, scope, key)
    ensures SentFor(events + [event], session, scope, key)
  {
    var i :| 0 <= i < |events| && events[i].Sent? && events[i].form.session == session
             && events[i].form.scope == scope && events[i].form.key == key;
    assert (events + [event])[i] == events[i];
  }

  // ---------------------------------------------------------------- one step of Studio

  lemma OpenKeeps(studio: Studio, move: Move)
    requires StudioInv(studio) && StudioEnabled(studio, move) && move.Open?
    ensures StudioInv(StudioTake(studio, move))
  {
  }

  lemma EndKeeps(studio: Studio, move: Move)
    requires StudioInv(studio) && StudioEnabled(studio, move) && move.End?
    ensures StudioInv(StudioTake(studio, move))
  {
    var next := StudioTake(studio, move);
    var event := Ended(move.session);
    OtherEvent(studio.events, event);
    forall i | 0 <= i < |next.events| && next.events[i].Sent?
               && KeptBetween(next.events, i, |next.events|, next.events[i].form.session, next.events[i].form.scope)
      ensures Holds(next, next.events[i].form)
    {
      KeptLonger(studio.events, event, i, next.events[i].form.session, next.events[i].form.scope);
      assert Holds(studio, studio.events[i].form);
    }
    HeldStay(studio, next, event);
  }

  /** Keys that stay in the maps were sent, whatever happens next. */
  lemma HeldStay(studio: Studio, next: Studio, event: Event)
    requires HeldKeysSent(studio) && next.events == studio.events + [event]
    requires forall session, scope | session in next.tables && scope in next.tables[session]
                                     && next.tables[session][scope].Key? && !HasPrefix(scope, STATE) ::
               session in studio.tables && scope in studio.tables[session]
               && studio.tables[session][scope] == next.tables[session][scope]
    ensures HeldKeysSent(next)
  {
    forall session, scope | session in next.tables && scope in next.tables[session]
                            && next.tables[session][scope].Key? && !HasPrefix(scope, STATE)
      ensures SentFor(next.events, session, scope, next.tables[session][scope].text)
    {
      SentForLonger(studio.events, event, session, scope, next.tables[session][scope].text);
    }
  }

  /** An operation of another handler changes no key of a form but the one it clears. */
  lemma OtherLeavesKeys(table: Table, op: Op, scope: string)
    requires !op.KeyFor? && !Marked(op) && !HasPrefix(scope, STATE)
    ensures var after := Perform(table, op).0;
            if op == Clear(scope) then scope !in after
            else (scope in after <==> scope in table) && (scope in table ==> after[scope] == table[scope])
  {
    if op.Store? || op.Delete? {
      forall reference ensures StateKey(op.category, reference) != scope {
        StateKeyMarked(op.category, reference);
      }
    }
  }

  lemma OtherKeeps(studio: Studio, move: Move)
    requires StudioInv(studio) && StudioEnabled(studio, move) && move.Other?
    ensures StudioInv(StudioTake(studio, move))
  {
    var next := StudioTake(studio, move);
    forall scope | !HasPrefix(scope, STATE)
      ensures var after := next.tables[move.session]; var table := studio.tables[move.session];
              if move.op == Clear(scope) then scope !in after
              else (scope in after <==> scope in table) && (scope in table ==> after[scope] == table[scope])
    {
      OtherLeavesKeys(studio.tables[move.session], move.op, scope);
    }
    if move.op.Clear? {
      ClearedKeeps(studio, next, move.session, move.op.scope);
    } else {
      OtherHolds(studio, next);
    }
  }

  lemma OtherHolds(studio: Studio, next: Studio)
    requires StudioInv(studio) && next == studio.(tables := next.tables) && next.tables.Keys == studio.tables.Keys
    requires forall session, scope | session in studio.tables && !HasPrefix(scope, STATE) ::
               (scope in next.tables[session] <==> scope in studio.tables[session])
               && (scope in studio.tables[session] ==> next.tables[session][scope] == studio.tables[session][scope])
    ensures StudioInv(next)
  {
    forall i | 0 <= i < |next.events| && next.events[i].Sent?
               && KeptBetween(next.events, i, |next.events|, next.events[i].form.session, next.events[i].form.scope)
      ensures Holds(next, next.events[i].form)
    {
      assert Holds(studio, studio.events[i].form);
    }
  }

  lemma ClearedKeeps(studio: Studio, next: Studio, session: string, scope: string)
    requires StudioInv(studio) && session in studio.tables
    requires next == studio.(tables := studio.tables[session := studio.tables[session] - {scope}],
                             events := studio.events + [Forgot(session, scope)])
    ensures StudioInv(next)
  {
    var event := Forgot(session, scope);
    OtherEvent(studio.events, event);
    forall i | 0 <= i < |next.events| && next.events[i].Sent?
               && KeptBetween(next.events, i, |next.events|, next.events[i].form.session, next.events[i].form.scope)
      ensures Holds(next, next.events[i].form)
    {
      KeptLonger(studio.events, event, i, next.events[i].form.session, next.events[i].form.scope);
      assert Holds(studio, studio.events[i].form);
    }
    HeldStay(studio, next, event);
  }

  // ---------------------------------------------------------------- a form is sent

  /** The form that a submission sends, if it gets a key. */
  function FormSent(studio: Studio, move: Move): Option<Form>
    requires StudioEnabled(studio, move) && move.Submit?
  {
    var answer := Perform(studio.tables[move.session], KeyFor(move.scope, move.draw)).1;
    if answer.Text? then
      Some(Form(move.session, move.scope, answer.value, Keyed(move.request, answer.value)))
    else None
  }

  /** The key was in the map, or it is the one that was drawn. */
  lemma KeyComesFrom(table: Table, scope: string, draw: Option<string>)
    requires Perform(table, KeyFor(scope, draw)).1.Text?
    ensures var (after, answer) := Perform(table, KeyFor(scope, draw));
            && after == table[scope := Key(answer.value)]
            && if scope in table && table[scope].Key? && table[scope].text != ""
               then answer.value == table[scope].text else draw == Some(answer.value)
  {
    if scope in table && table[scope].Key? && table[scope].text != "" {
      assert table[scope := Key(table[scope].text)] == table;
    }
  }

  lemma FormFits(studio: Studio, move: Move, form: Form)
    requires StudioInv(studio) && StudioEnabled(studio, move) && move.Submit? && FormSent(studio, move) == Some(form)
    ensures Fits(studio.events, form) && form.key !in studio.foreign
  {
    var table := studio.tables[move.session];
    KeyComesFrom(table, move.scope, move.draw);
    if move.scope in table && table[move.scope].Key? && table[move.scope].text != "" {
      assert SentFor(studio.events, move.session, move.scope, form.key);
    }
    forall i | 0 <= i < |studio.events| && studio.events[i].Sent? && studio.events[i].form.session == form.session
               && studio.events[i].form.scope == form.scope
               && KeptBetween(studio.events, i, |studio.events|, form.session, form.scope)
      ensures studio.events[i].form.key == form.key
    {
      assert Holds(studio, studio.events[i].form);
    }
  }

  lemma SubmitKeeps(studio: Studio, move: Move)
    requires StudioInv(studio) && StudioEnabled(studio, move) && move.Submit?
    ensures StudioInv(StudioTake(studio, move))
  {
    match FormSent(studio, move)
    case None =>
    case Some(form) =>
      FormFits(studio, move, form);
      SentEvent(studio.events, form);
      KeyComesFrom(studio.tables[move.session], move.scope, move.draw);
      var next := StudioTake(studio, move);
      assert next.events == studio.events + [Sent(form)];
      assert next.tables == studio.tables[form.session := studio.tables[form.session][form.scope := Key(form.key)]];
      SentHolds(studio, next, form);
      SentWaits(studio, next, form, move.b);
  }

  lemma SentHolds(studio: Studio, next: Studio, form: Form)
    requires StudioInv(studio) && Fits(studio.events, form) && form.session in studio.tables
    requires next.events == studio.events + [Sent(form)]
    requires next.tables == studio.tables[form.session := studio.tables[form.session][form.scope := Key(form.key)]]
    ensures KeptKeys(next) && HeldKeysSent(next)
  {
    forall i | 0 <= i < |next.events| && next.events[i].Sent?
               && KeptBetween(next.events, i, |next.events|, next.events[i].form.session, next.events[i].form.scope)
      ensures Holds(next, next.events[i].form)
    {
      if i < |studio.events| {
        KeptLonger(studio.events, Sent(form), i, next.events[i].form.session, next.events[i].form.scope);
        assert Holds(studio, studio.events[i].form);
      }
    }
    forall session, scope | session in next.tables && scope in next.tables[session]
                            && next.tables[session][scope].Key? && !HasPrefix(scope, STATE)
      ensures SentFor(next.events, session, scope, next.tables[session][scope].text)
    {
      if session == form.session && scope == form.scope {
        assert next.events[|studio.events|] == Sent(form);
      } else {
        SentForLonger(studio.events, Sent(form), session, scope, next.tables[session][scope].text);
      }
    }
  }

  lemma SentWaits(studio: Studio, next: Studio, form: Form, b: int)
    requires BrowsersWait(studio) && ForeignApart(studio) && form.key !in studio.foreign
    requires next.events == studio.events + [Sent(form)] && next.foreign == studio.foreign
    requires next.browsers == studio.browsers[b := Waiting(form)]
    ensures BrowsersWait(next) && ForeignApart(next)
  {
  }

  lemma StudioKeeps(studio: Studio, move: Move)
    requires StudioInv(studio) && StudioEnabled(studio, move)
    ensures StudioInv(StudioTake(studio, move))
  {
    match move
    case Open(_) => OpenKeeps(studio, move);
    case End(_) => EndKeeps(studio, move);
    case Other(_, _) => OtherKeeps(studio, move);
    case Submit(_, _, _, _, _) => SubmitKeeps(studio, move);
    case _ => IdleKeeps(studio, move);
  }

  lemma IdleKeeps(studio: Studio, move: Move)
    requires StudioInv(studio) && StudioEnabled(studio, move) && (move.Lose? || move.Stranger?)
    ensures StudioInv(StudioTake(studio, move))
  {
  }

  /** Learning an answer is one more event that touches no map. */
  lemma LearnKeeps(studio: Studio, b: int, event: Event)
    requires StudioInv(studio) && b in studio.browsers && event.Confirmed?
    ensures StudioInv(Record(studio.(browsers := studio.browsers[b := Quiet]), event))
  {
    var next := Record(studio.(browsers := studio.browsers[b := Quiet]), event);
    OtherEvent(studio.events, event);
    forall i | 0 <= i < |next.events| && next.events[i].Sent?
               && KeptBetween(next.events, i, |next.events|, next.events[i].form.session, next.events[i].form.scope)
      ensures Holds(next, next.events[i].form)
    {
      KeptLonger(studio.events, event, i, next.events[i].form.session, next.events[i].form.scope);
      assert Holds(studio, studio.events[i].form);
    }
    HeldStay(studio, next, event);
  }

  // ---------------------------------------------------------------- both sides

  /** What the provider works on reached it from Studio or from a client with other keys. */
  ghost predicate AllKnown(w: Whole) {
    && (forall p | p in w.provider.processes && !w.provider.processes[p].phase.Idle? ::
          Known(w.studio, w.provider.processes[p].phase.request))
    && (w.provider.late.Some? && w.provider.late.value.Saved? ==> Known(w.studio, w.provider.late.value.request))
    && (forall k | 0 <= k < |w.provider.applied.requests| :: Known(w.studio, w.provider.applied.requests[k]))
  }

  /** What Studio was told is in the provider's records. */
  ghost predicate Truthful(w: Whole, event: Event)
    requires event.Confirmed?
  {
    && Sent(event.form) in w.studio.events && event.form.key in w.provider.row.idempotency
    && event.reply == Reply(200, Stored(w.provider.row.idempotency[event.form.key].value))
  }

  ghost predicate AllTruthful(w: Whole) {
    forall i | 0 <= i < |w.studio.events| && w.studio.events[i].Confirmed? :: Truthful(w, w.studio.events[i])
  }

  ghost predicate Inv(w: Whole) {
    T.Inv(w.provider) && StudioInv(w.studio) && AllKnown(w) && AllTruthful(w)
  }

  lemma InitialInv(processes: map<int, State>, browsers: set<int>)
    ensures Inv(Initial(processes, browsers))
  {
    T.InitialInv(processes);
  }

  lemma KnownLonger(studio: Studio, next: Studio, request: Request)
    requires Known(studio, request) && studio.events <= next.events && studio.foreign <= next.foreign
    ensures Known(next, request)
  {
    if SentRequest(studio, request) {
      var i :| 0 <= i < |studio.events| && studio.events[i].Sent?
               && SameAsk(request, studio.events[i].form.request);
      assert next.events[i] == studio.events[i];
    }
  }

  lemma StudioMoveKeeps(w: Whole, next: Studio)
    requires Inv(w) && StudioInv(next) && w.studio.events <= next.events && w.studio.foreign <= next.foreign
    requires forall i | |w.studio.events| <= i < |next.events| && next.events[i].Confirmed? ::
               Truthful(w.(studio := next), next.events[i])
    ensures Inv(w.(studio := next))
  {
    forall p | p in w.provider.processes && !w.provider.processes[p].phase.Idle?
      ensures Known(next, w.provider.processes[p].phase.request)
    {
      KnownLonger(w.studio, next, w.provider.processes[p].phase.request);
    }
    if w.provider.late.Some? && w.provider.late.value.Saved? {
      KnownLonger(w.studio, next, w.provider.late.value.request);
    }
    forall k | 0 <= k < |w.provider.applied.requests| ensures Known(next, w.provider.applied.requests[k]) {
      KnownLonger(w.studio, next, w.provider.applied.requests[k]);
    }
    forall i | 0 <= i < |next.events| && next.events[i].Confirmed?
      ensures Truthful(w.(studio := next), next.events[i])
    {
      if i < |w.studio.events| {
        assert next.events[i] == w.studio.events[i] && Truthful(w, w.studio.events[i]);
      }
    }
  }

  lemma ProvideKeepsKnown(w: Whole, step: T.Step)
    requires Inv(w) && Enabled(w, Provide(step))
    ensures AllKnown(Take(w, Provide(step)))
  {
    var next := T.Take(w.provider, step);
    T.StepRefines(w.provider, step);
    if T.Commits(step) {
      assert Known(w.studio, T.Committing(w.provider, step).request);
    }
  }

  lemma ProvideKeeps(w: Whole, step: T.Step)
    requires Inv(w) && Enabled(w, Provide(step))
    ensures Inv(Take(w, Provide(step)))
  {
    T.TakeKeepsInv(w.provider, step);
    T.ExtendExtendsRecords(w.provider, step);
    ProvideKeepsKnown(w, step);
    var next := Take(w, Provide(step));
    forall i | 0 <= i < |next.studio.events| && next.studio.events[i].Confirmed?
      ensures Truthful(next, next.studio.events[i])
    {
      assert Truthful(w, w.studio.events[i]);
    }
  }

  lemma LearnTruthful(w: Whole, b: int, i: nat)
    requires Inv(w) && Enabled(w, Learn(b, i)) && Succeeded(w.provider.answers[i])
    ensures Truthful(w, Confirmed(w.studio.browsers[b].form, w.provider.answers[i].reply))
  {
    assert Sent(w.studio.browsers[b].form) in w.studio.events;
    T.SuccessIsOnce(w.provider, i);
  }

  lemma LearnTakes(w: Whole, b: int, i: nat)
    requires Inv(w) && Enabled(w, Learn(b, i))
    ensures Inv(Take(w, Learn(b, i)))
  {
    if Succeeded(w.provider.answers[i]) {
      LearnTruthful(w, b, i);
      LearnKeeps(w.studio, b, Confirmed(w.studio.browsers[b].form, w.provider.answers[i].reply));
    }
    StudioMoveKeeps(w, Take(w, Learn(b, i)).studio);
  }

  lemma StudioTakes(w: Whole, move: Move)
    requires Inv(w) && StudioEnabled(w.studio, move)
    ensures Inv(w.(studio := StudioTake(w.studio, move)))
  {
    StudioKeeps(w.studio, move);
    StudioMoveKeeps(w, StudioTake(w.studio, move));
  }

  lemma TakeKeepsInv(w: Whole, move: Move)
    requires Inv(w) && Enabled(w, move)
    ensures Inv(Take(w, move))
  {
    match move
    case Provide(step) => ProvideKeeps(w, step);
    case Learn(b, i) => LearnTakes(w, b, i);
    case _ => StudioTakes(w, move);
  }

  // ---------------------------------------------------------------- behaviours

  ghost predicate Possible(w: Whole, moves: seq<Move>)
    decreases |moves|
  {
    moves == [] || (Enabled(w, moves[0]) && Possible(Take(w, moves[0]), moves[1..]))
  }

  ghost function Execute(w: Whole, moves: seq<Move>): Whole
    requires Possible(w, moves)
    decreases |moves|
  {
    if moves == [] then w else Execute(Take(w, moves[0]), moves[1..])
  }

  lemma {:induction false} AlwaysInv(w: Whole, moves: seq<Move>)
    requires Inv(w) && Possible(w, moves)
    ensures Inv(Execute(w, moves))
    decreases |moves|
  {
    if moves != [] {
      TakeKeepsInv(w, moves[0]);
      AlwaysInv(Take(w, moves[0]), moves[1..]);
    }
  }

  // ---------------------------------------------------------------- which of a form's requests took effect

  /** The first request under the key that the provider answered with success. */
  ghost predicate FirstSuccess(run: History, k: nat, key: string)
    requires k < |run.requests|
  {
    && KeyOf(run.requests[k]) == key && Succeeds(run, k)
    && forall j | 0 <= j < k && KeyOf(run.requests[j]) == key :: !Succeeds(run, j)
  }

  /** The first success under a key is the one effect under it. */
  lemma FirstSuccessIsFresh(run: History, k: nat, key: string)
    requires k < |run.requests| && FirstSuccess(run, k, key)
    ensures T.OnlyEffectAt(run, k, key)
  {
    if !FreshAt(run, k, key) {
      var i := EarlierEffect(run, k, key);
      FreshSucceeds(run, i);
    }
    forall j | 0 <= j < |run.requests| && FreshAt(run, j, key) ensures j == k {
      EffectAtMostOnce(run, j, k, key);
    }
  }

  lemma EarlierEffect(run: History, k: nat, key: string) returns (i: nat)
    requires k < |run.requests| && KeyOf(run.requests[k]) == key && Succeeds(run, k) && !FreshAt(run, k, key)
    ensures i < k && FreshAt(run, i, key)
  {
    if Decide(run.states[k], run.requests[k]).Refuse? {
      RefusalStatus(run.states[k], run.requests[k]);
    }
    i := RecordOrigin(run, k, key);
  }

  lemma FreshSucceeds(run: History, i: nat)
    requires i < |run.requests| && Fresh(run.states[i], run.requests[i])
    ensures Succeeds(run, i)
  {
    StepCases(run.states[i], run.requests[i]);
  }

  /** Where the one effect under the key was made is the first success under it. */
  lemma EffectIsFirstSuccess(run: History, k: nat, key: string)
    requires k < |run.requests| && FreshAt(run, k, key)
    ensures FirstSuccess(run, k, key)
  {
    FreshSucceeds(run, k);
    forall j | 0 <= j < k && KeyOf(run.requests[j]) == key ensures !Succeeds(run, j) {
      if Succeeds(run, j) {
        SuccessIsTheRecord(run, j, k);
        StepCases(run.states[k], run.requests[k]);
      }
    }
  }

  predicate SentWith(events: seq<Event>, form: Form, request: Request) {
    exists i | 0 <= i < |events| ::
      events[i].Sent? && events[i].form.session == form.session && events[i].form.scope == form.scope
      && events[i].form.key == form.key && SameAsk(request, events[i].form.request)
  }

  lemma EffectWasSent(w: Whole, form: Form, k: nat)
    requires Inv(w) && Sent(form) in w.studio.events
    requires k < |w.provider.applied.requests| && FreshAt(w.provider.applied, k, form.key)
    ensures SentWith(w.studio.events, form, w.provider.applied.requests[k])
  {
    var request := w.provider.applied.requests[k];
    assert KeyOf(request) == form.key && Known(w.studio, request);
    assert form.key !in w.studio.foreign;
    var i :| 0 <= i < |w.studio.events| && w.studio.events[i].Sent?
             && SameAsk(request, w.studio.events[i].form.request);
    assert w.studio.events[i].form.key == form.key;
  }

  /** What the form itself asks for took effect, and nothing else under its key did. */
  ghost predicate OwnRequestTookEffect(w: Whole, form: Form) {
    exists k | 0 <= k < |w.provider.applied.requests| ::
      T.OnlyEffectAt(w.provider.applied, k, form.key) && SameAsk(w.provider.applied.requests[k], form.request)
  }

  /** A key that Studio saw confirmed took effect exactly once, by the first request under it that the
      provider answered with success. That request was sent for the same session and scope, and the
      confirmation carries its record. What the confirmed form itself asked for took effect exactly when
      that first request asked for the same. */
  lemma ConfirmedTookEffectExactly(processes: map<int, State>, browsers: set<int>, moves: seq<Move>, i: nat)
    returns (k: nat)
    requires Possible(Initial(processes, browsers), moves)
    requires var w := Execute(Initial(processes, browsers), moves);
             i < |w.studio.events| && w.studio.events[i].Confirmed?
    ensures var w := Execute(Initial(processes, browsers), moves);
            var form, applied := w.studio.events[i].form, w.provider.applied;
            && k < |applied.requests| && FirstSuccess(applied, k, form.key)
            && T.OnlyEffectAt(applied, k, form.key) && SentWith(w.studio.events, form, applied.requests[k])
            && Truthful(w, w.studio.events[i])
            && (OwnRequestTookEffect(w, form) <==> SameAsk(applied.requests[k], form.request))
  {
    InitialInv(processes, browsers);
    AlwaysInv(Initial(processes, browsers), moves);
    k := EffectOf(Execute(Initial(processes, browsers), moves), i);
  }

  lemma EffectOf(w: Whole, i: nat) returns (k: nat)
    requires Inv(w) && i < |w.studio.events| && w.studio.events[i].Confirmed?
    ensures var form, applied := w.studio.events[i].form, w.provider.applied;
            && k < |applied.requests| && FirstSuccess(applied, k, form.key)
            && T.OnlyEffectAt(applied, k, form.key) && SentWith(w.studio.events, form, applied.requests[k])
            && Truthful(w, w.studio.events[i])
            && (OwnRequestTookEffect(w, form) <==> SameAsk(applied.requests[k], form.request))
  {
    var form := w.studio.events[i].form;
    assert Truthful(w, w.studio.events[i]);
    T.RecordedOnce(w.provider, form.key);
    k :| 0 <= k < |w.provider.applied.requests| && T.OnlyEffectAt(w.provider.applied, k, form.key);
    EffectIsFirstSuccess(w.provider.applied, k, form.key);
    EffectWasSent(w, form, k);
  }

  /** All forms that were sent under this key ask for the same. */
  ghost predicate OneAsk(events: seq<Event>, form: Form) {
    forall i | 0 <= i < |events| && events[i].Sent? && events[i].form.key == form.key ::
      SameAsk(events[i].form.request, form.request)
  }

  /** If every form sent under the key asked for the same, a confirmed form took effect itself. */
  lemma SameAskTakesEffect(w: Whole, i: nat)
    requires Inv(w) && i < |w.studio.events| && w.studio.events[i].Confirmed?
    requires OneAsk(w.studio.events, w.studio.events[i].form)
    ensures OwnRequestTookEffect(w, w.studio.events[i].form)
  {
    var k := EffectOf(w, i);
    var form := w.studio.events[i].form;
    var j :| 0 <= j < |w.studio.events| && w.studio.events[j].Sent? && w.studio.events[j].form.key == form.key
             && SameAsk(w.provider.applied.requests[k], w.studio.events[j].form.request);
    assert SameAsk(w.studio.events[j].form.request, form.request);
  }

  /** However often a form is submitted before its key is forgotten, all its requests together take
      effect at most once. */
  lemma ResentTakesEffectOnce(processes: map<int, State>, browsers: set<int>, moves: seq<Move>, i: nat, j: nat,
                              k: nat, l: nat)
    requires Possible(Initial(processes, browsers), moves)
    requires var w := Execute(Initial(processes, browsers), moves);
             var events := w.studio.events;
             && i < j < |events| && events[i].Sent? && events[j].Sent?
             && events[i].form.session == events[j].form.session && events[i].form.scope == events[j].form.scope
             && KeptBetween(events, i, j, events[i].form.session, events[i].form.scope)
             && k < |w.provider.applied.requests| && l < |w.provider.applied.requests|
             && FreshAt(w.provider.applied, k, events[i].form.key)
             && FreshAt(w.provider.applied, l, events[j].form.key)
    ensures k == l
  {
    InitialInv(processes, browsers);
    AlwaysInv(Initial(processes, browsers), moves);
    var w := Execute(Initial(processes, browsers), moves);
    assert w.studio.events[i].form.key == w.studio.events[j].form.key;
    EffectAtMostOnce(w.provider.applied, k, l, w.studio.events[i].form.key);
  }
}
