/** A form that was edited and sent again under its kept key: the provider answers with the record of
    the first version, and Studio reports success for the second. */
module EditedForms {
  import opened Text
  import opened Drafts
  import opened Routing
  import opened ProviderModel
  import opened Runs
  import opened WholeSystem

  import T = Transactions

  type SentForm = WholeSystem.Form

  // ---------------------------------------------------------------- behaviours, one move at a time

  ghost predicate Reached(start: Whole, moves: seq<Move>, w: Whole) {
    Possible(start, moves) && Execute(start, moves) == w
  }

  lemma {:induction false} GoOn(start: Whole, moves: seq<Move>, w: Whole, move: Move)
    requires Reached(start, moves, w) && Enabled(w, move)
    ensures Reached(start, moves + [move], Take(w, move))
    decreases |moves|
  {
    if moves == [] {
      assert [move][1..] == [] && [] + [move] == [move];
      assert Execute(Take(w, move), []) == Take(w, move);
    } else {
      GoOn(Take(start, moves[0]), moves[1..], w, move);
      assert (moves + [move])[1..] == moves[1..] + [move];
    }
  }

  /** The process is free and so is the row. */
  predicate Ready(provider: T.System, p: int) {
    p in provider.processes && provider.processes[p].phase.Idle? && provider.holder == None && provider.late == None
  }

  /** After the process served the request and committed, with or without telling. */
  ghost predicate ServedBy(before: Whole, after: Whole, p: int, request: Request, told: bool) {
    var (row, reply) := Serve(before.provider.row, request);
    && after.studio == before.studio && Ready(after.provider, p) && after.provider.row == row
    && after.provider.applied == Extend(before.provider.applied, request)
    && after.provider.answers == before.provider.answers
       + [if told then T.Answered(request, reply, |before.provider.applied.requests|) else T.Unavailable(request)]
  }

  /** The process has served the request in memory. */
  ghost predicate ServedInMemory(before: Whole, after: Whole, p: int, request: Request) {
    var (row, reply) := Serve(before.provider.row, request);
    && p in before.provider.processes
    && after == before.(provider := T.Put(before.provider, p, T.Buffered(request, reply), row).(holder := Some(p)))
  }

  lemma ServeInMemory(start: Whole, moves: seq<Move>, w: Whole, p: int, request: Request)
    returns (more: seq<Move>, after: Whole)
    requires Reached(start, moves, w) && Ready(w.provider, p) && Known(w.studio, request)
    ensures Reached(start, more, after) && ServedInMemory(w, after, p, request)
  {
    var lock, serve := Provide(T.Lock(p, request)), Provide(T.ServeMemory(p));
    GoOn(start, moves, w, lock);
    GoOn(start, moves + [lock], Take(w, lock), serve);
    more := moves + [lock] + [serve];
    after := Take(Take(w, lock), serve);
  }

  lemma ServeRequest(start: Whole, moves: seq<Move>, w: Whole, p: int, request: Request, told: bool)
    returns (more: seq<Move>, after: Whole)
    requires Reached(start, moves, w) && Ready(w.provider, p) && Known(w.studio, request)
    requires Serve(w.provider.row, request).1.status < 500
    ensures Reached(start, more, after) && ServedBy(w, after, p, request, told)
  {
    var served, middle := ServeInMemory(start, moves, w, p, request);
    var save := Provide(T.Save(p));
    var commit := Provide(if told then T.CommitConfirmed(p) else T.CommitUnconfirmed(p));
    GoOn(start, served, middle, save);
    GoOn(start, served + [save], Take(middle, save), commit);
    more := served + [save] + [commit];
    after := Take(Take(middle, save), commit);
  }

  // ---------------------------------------------------------------- the first attempt

  /** The first attempt took effect and nobody was told; its key is kept. */
  ghost predicate FirstLost(w: Whole, form: SentForm, p: int, b: int) {
    && Ready(w.provider, p) && w.provider.row == Serve(InitialState(), form.request).0
    && w.provider.applied.requests == [form.request] && w.provider.applied.states[0] == InitialState()
    && |w.provider.answers| == 1
    && b in w.studio.browsers && w.studio.browsers[b] == Quiet
    && w.studio.events == [Sent(form)] && Holds(w.studio, form)
  }

  lemma FirstSent(processes: map<int, State>, browsers: set<int>, b: int, session: string, scope: string,
                  key: string, request: Request) returns (moves: seq<Move>, w: Whole)
    requires b in browsers && key != ""
    requires 1 <= |scope| <= 1024 && !HasPrefix(scope, STATE) && request.content.Decoded? && IsMutation(request.route)
    ensures Reached(Initial(processes, browsers), moves, w)
    ensures var form := WholeSystem.Form(session, scope, key, Keyed(request, key));
            && w.provider == T.Initial(processes) && w.studio.events == [Sent(form)] && Holds(w.studio, form)
            && b in w.studio.browsers && w.studio.browsers[b] == Waiting(form)
  {
    var start := Initial(processes, browsers);
    var open, submit := Open(session), Submit(b, session, scope, request, Some(key));
    assert Reached(start, [], start);
    GoOn(start, [], start, open);
    var begun := Take(start, open);
    assert Perform(begun.studio.tables[session], KeyFor(scope, Some(key))) == (map[scope := Key(key)], Text(key));
    GoOn(start, [] + [open], begun, submit);
    moves := [] + [open] + [submit];
    w := Take(begun, submit);
  }

  /** Nothing but the one form has been sent, and nothing was served. */
  ghost predicate FirstWaits(w: Whole, form: SentForm, p: int, b: int) {
    && Ready(w.provider, p) && w.provider.row == InitialState() && w.provider.answers == []
    && w.provider.applied.requests == [] && w.provider.applied.states == [InitialState()]
    && w.studio.events == [Sent(form)] && Holds(w.studio, form)
    && b in w.studio.browsers && w.studio.browsers[b] == Waiting(form)
  }

  lemma FirstAttempt(start: Whole, moves: seq<Move>, sent: Whole, form: SentForm, p: int, b: int)
    returns (more: seq<Move>, w: Whole)
    requires Reached(start, moves, sent) && FirstWaits(sent, form, p, b)
    requires Serve(InitialState(), form.request).1.status < 500
    ensures Reached(start, more, w) && FirstLost(w, form, p, b)
  {
    assert sent.studio.events[0] == Sent(form);
    var served;
    more, served := ServeRequest(start, moves, sent, p, form.request, false);
    GoOn(start, more, served, Learn(b, 0));
    more := more + [Learn(b, 0)];
    w := Take(served, Learn(b, 0));
  }

  // ---------------------------------------------------------------- the second attempt

  /** The second attempt is confirmed. */
  ghost predicate SecondConfirmed(before: Whole, w: Whole, first: SentForm, second: SentForm) {
    var (row, reply) := Serve(before.provider.row, second.request);
    && w.provider.row == row && w.provider.applied == Extend(before.provider.applied, second.request)
    && w.studio.events == [Sent(first), Sent(second), Confirmed(second, reply)]
  }

  lemma SecondSent(start: Whole, moves: seq<Move>, w: Whole, p: int, b: int, first: SentForm, request: Request)
    returns (more: seq<Move>, after: Whole)
    requires Reached(start, moves, w) && FirstLost(w, first, p, b) && first.key != ""
    requires 1 <= |first.scope| <= 1024 && !HasPrefix(first.scope, STATE)
    requires request.content.Decoded? && IsMutation(request.route)
    ensures Reached(start, more, after)
    ensures var second := first.(request := Keyed(request, first.key));
            && after.provider == w.provider && after.studio.events == [Sent(first), Sent(second)]
            && b in after.studio.browsers && after.studio.browsers[b] == Waiting(second)
  {
    var submit := Submit(b, first.session, first.scope, request, None);
    assert Perform(w.studio.tables[first.session], KeyFor(first.scope, None)).1 == Text(first.key);
    GoOn(start, moves, w, submit);
    more := moves + [submit];
    after := Take(w, submit);
  }

  lemma SecondAttempt(start: Whole, moves: seq<Move>, w: Whole, p: int, b: int, first: SentForm, request: Request)
    returns (more: seq<Move>, after: Whole)
    requires Reached(start, moves, w) && FirstLost(w, first, p, b) && first.key != ""
    requires 1 <= |first.scope| <= 1024 && !HasPrefix(first.scope, STATE)
    requires request.content.Decoded? && IsMutation(request.route)
    requires Serve(w.provider.row, Keyed(request, first.key)).1.status == 200
    ensures Reached(start, more, after)
    ensures SecondConfirmed(w, after, first, first.(request := Keyed(request, first.key)))
  {
    var second := first.(request := Keyed(request, first.key));
    var sent;
    more, sent := SecondSent(start, moves, w, p, b, first, request);
    assert sent.studio.events[1] == Sent(second);
    var served;
    more, served := ServeRequest(start, more, sent, p, second.request, true);
    GoOn(start, more, served, Learn(b, 1));
    more := more + [Learn(b, 1)];
    after := Take(served, Learn(b, 1));
  }

  // ---------------------------------------------------------------- the edit is lost

  /** The record of an accepted request answers whatever else comes under its key. */
  lemma RecordAnswers(s: State, first: Request, second: Request)
    requires Fresh(s, first) && IsMutation(second.route) && CheckForm(second).WellFormed?
    requires KeyOf(second) == KeyOf(first)
    ensures var t := Serve(s, first).0;
            Serve(t, second) == (t, Reply(200, Stored(ValueOf(ChangeMade(s, first)))))
  {
    StepCases(s, first);
  }

  /** Whatever first request took effect and whatever well-formed second one was sent under the kept key
      after an answer that told nothing: there is a behaviour in which Studio confirms the second, the
      row has the first, and what the second asked for never took effect. */
  lemma EditedResendIsLost(processes: map<int, State>, browsers: set<int>, p: int, b: int, session: string,
                           scope: string, key: string, first: Request, second: Request)
    returns (moves: seq<Move>, w: Whole)
    requires p in processes && b in browsers && key != ""
    requires 1 <= |scope| <= 1024 && !HasPrefix(scope, STATE) && first.content.Decoded? && second.content.Decoded?
    requires Fresh(InitialState(), Keyed(first, key))
    requires IsMutation(second.route) && CheckForm(Keyed(second, key)).WellFormed?
    requires !SameAsk(Keyed(first, key), Keyed(second, key))
    ensures Reached(Initial(processes, browsers), moves, w)
    ensures var form := WholeSystem.Form(session, scope, key, Keyed(second, key));
            && |w.studio.events| == 3 && w.studio.events[2].Confirmed? && w.studio.events[2].form == form
            && w.provider.row == Serve(InitialState(), Keyed(first, key)).0
            && !OwnRequestTookEffect(w, form)
  {
    var one, two := Keyed(first, key), Keyed(second, key);
    var form := WholeSystem.Form(session, scope, key, one);
    StepCases(InitialState(), one);
    RecordAnswers(InitialState(), one, two);
    var lost;
    var waiting;
    moves, waiting := FirstSent(processes, browsers, b, session, scope, key, first);
    moves, lost := FirstAttempt(Initial(processes, browsers), moves, waiting, form, p, b);
    moves, w := SecondAttempt(Initial(processes, browsers), moves, lost, p, b, form, second);
    FirstIsTheEffect(w.provider.applied, one, two, key);
  }

  lemma FirstIsTheEffect(run: History, first: Request, second: Request, key: string)
    requires run.requests == [first, second] && Fresh(InitialState(), first) && KeyOf(first) == key
    requires !SameAsk(first, second)
    ensures forall k | 0 <= k < |run.requests| && T.OnlyEffectAt(run, k, key) :: !SameAsk(run.requests[k], second)
  {
    StepHolds(run, 0);
    assert FreshAt(run, 0, key);
  }

  /** An update of an entity, as the editor asks for it. */
  function Update(entity: Entity, version: int, clock: Clock): Request {
    Request(UpdateEntity, One(entity.code), true, false,
            Decoded(Body("", version, "", "", "", "", "", "", entity, QuotaPlan("", 0, "", 0, map[]))), clock)
  }

  /** So a name that was edited after a lost answer is lost: both versions of the form share the scope of
      code and version, Studio reports the second as updated, and the first name stays. */
  lemma EditedNameIsLost(processes: map<int, State>, browsers: set<int>, p: int, b: int, session: string,
                         key: string, entity: Entity, name: string, clock: Clock)
    returns (moves: seq<Move>, w: Whole)
    requires p in processes && b in browsers && key != ""
    requires entity.code in InitialState().entities && '/' !in entity.code && 1 <= |entity.code| <= 256
    requires entity.version == InitialState().entities[entity.code].version
    requires entity.name != "" && name != "" && name != entity.name
    ensures Reached(Initial(processes, browsers), moves, w)
    ensures |w.studio.events| == 3 && w.studio.events[2].Confirmed?
    ensures w.studio.events[2].form.request == Keyed(Update(entity.(name := name), entity.version, clock), key)
    ensures !OwnRequestTookEffect(w, w.studio.events[2].form)
    ensures entity.code in w.provider.row.entities && w.provider.row.entities[entity.code].name == entity.name
  {
    var scope := Printed(Mutating(false, entity.code, entity.version));
    var first, second := Update(entity, entity.version, clock), Update(entity.(name := name), entity.version, clock);
    ScopesAreUnmarked(Mutating(false, entity.code, entity.version));
    UpdateIsFresh(InitialState(), entity, key, clock);
    moves, w := EditedResendIsLost(processes, browsers, p, b, session, scope, key, first, second);
  }

  lemma UpdateIsFresh(s: State, entity: Entity, key: string, clock: Clock)
    requires entity.code in s.entities && '/' !in entity.code && entity.code != "" && entity.name != "" && key != ""
    requires entity.version == s.entities[entity.code].version && key !in s.idempotency
    ensures var request := Keyed(Update(entity, entity.version, clock), key);
            && Fresh(s, request)
            && entity.code in Serve(s, request).0.entities
            && Serve(s, request).0.entities[entity.code].name == entity.name
  {
  }
}
