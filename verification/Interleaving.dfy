/** What every interleaving of the broker's lock sections keeps: who owns each open client, which
    sessions are usable, how often a login is exchanged, and how large the tables get. */
module Interleaving {
  import opened Counting
  import opened Text
  import opened AuthModel
  import opened Sections

  ghost predicate OthersStay(s: System, next: System, t: int) {
    forall u | u != t ::
      (u in next.threads <==> u in s.threads) && (u in s.threads ==> next.threads[u] == s.threads[u])
  }

  // ---------------------------------------------------------------- clients

  predicate Bound(session: Session, client: Client) {
    client == Client(session.tenantID, session.token.accessToken, true)
  }

  /** An active session has the open client that is bound to its tenant and current token. */
  predicate Equipped(s: System, ref: nat)
    requires ref < |s.sessions| && |s.owners| == |s.clients|
  {
    var session := s.sessions[ref];
    && session.client < |s.clients|
    && (session.active ==> s.owners[session.client] == Held(ref) && Bound(session, s.clients[session.client]))
  }

  predicate Owned(s: System, client: nat)
    requires client < |s.clients| == |s.owners|
  {
    match s.owners[client]
    case Nobody => !s.clients[client].open
    case Local(t) =>
      s.clients[client].open && t in s.threads && s.threads[t].Connected? && s.threads[t].client == client
    case Held(ref) =>
      s.clients[client].open && ref < |s.sessions| && s.sessions[ref].active && s.sessions[ref].client == client
  }

  predicate CarriesClient(s: System, t: int)
    requires t in s.threads && |s.owners| == |s.clients|
  {
    var place := s.threads[t];
    place.Connected? ==>
      && place.client < |s.clients| && s.owners[place.client] == Local(t)
      && s.clients[place.client] == Client(place.ticket.attempt.tenantID, place.identity.token.accessToken, true)
  }

  predicate ClientsOk(s: System) {
    && |s.owners| == |s.clients|
    && (forall ref | 0 <= ref < |s.sessions| :: Equipped(s, ref))
    && (forall client | 0 <= client < |s.clients| :: Owned(s, client))
    && (forall t | t in s.threads :: CarriesClient(s, t))
  }

  /** Steps that touch neither a session nor a client. */
  predicate Quiet(step: Step) {
    step.Begin? || step.Claim? || step.MakeExchange? || step.Insert? || step.Find? || step.Leave?
    || step.Borrow? || step.Return? || step.Drop?
  }

  /** Only thread `t` moved, from one place without a client to another. */
  ghost predicate Undisturbed(s: System, next: System, t: int) {
    && t in s.threads && !s.threads[t].Connected? && t in next.threads && !next.threads[t].Connected?
    && next.sessions == s.sessions && next.clients == s.clients && next.owners == s.owners
    && next.limits == s.limits && OthersStay(s, next, t)
  }

  lemma QuietInsert(s: System, step: Step)
    requires Enabled(s, step) && step.Insert?
    ensures Undisturbed(s, TakeInsert(s, step), step.t)
  {
  }

  lemma QuietLogin(s: System, step: Step)
    requires Enabled(s, step) && (step.Claim? || step.MakeExchange?)
    ensures Undisturbed(s, if step.Claim? then TakeClaim(s, step) else TakeExchange(s, step), step.t)
  {
  }

  lemma QuietStep(s: System, step: Step)
    requires Enabled(s, step) && Quiet(step)
    ensures Undisturbed(s, Take(s, step), step.t)
  {
    if step.Insert? {
      QuietInsert(s, step);
    } else if step.Claim? || step.MakeExchange? {
      QuietLogin(s, step);
    }
  }

  lemma ThreadMoves(s: System, next: System, t: int)
    requires ClientsOk(s) && t in s.threads && !s.threads[t].Connected?
    requires next.sessions == s.sessions && next.clients == s.clients && next.owners == s.owners
    requires t in next.threads && !next.threads[t].Connected?
    requires OthersStay(s, next, t)
    ensures ClientsOk(next)
  {
    forall client | 0 <= client < |next.clients| ensures Owned(next, client) {
      assert Owned(s, client);
    }
    forall ref | 0 <= ref < |next.sessions| ensures Equipped(next, ref) {
      assert Equipped(s, ref);
    }
    forall u | u in next.threads ensures CarriesClient(next, u) {
      assert CarriesClient(s, u);
    }
  }

  lemma ConnectKeepsClients(s: System, step: Step)
    requires ClientsOk(s) && Enabled(s, step) && step.Connect?
    ensures ClientsOk(TakeConnect(s, step))
  {
    var next := TakeConnect(s, step);
    forall client | 0 <= client < |next.clients| ensures Owned(next, client) {
      assert client < |s.clients| ==> Owned(s, client);
    }
    forall ref | 0 <= ref < |next.sessions| ensures Equipped(next, ref) {
      assert Equipped(s, ref);
    }
    forall u | u in next.threads ensures CarriesClient(next, u) {
      assert CarriesClient(s, u);
    }
  }

  lemma EstablishKeepsClients(s: System, step: Step)
    requires ClientsOk(s) && Enabled(s, step) && step.Establish?
    ensures ClientsOk(TakeEstablish(s, step))
  {
    EstablishKeepsOwners(s, step);
    EstablishKeepsHolders(s, step);
  }

  lemma EstablishKeepsOwners(s: System, step: Step)
    requires ClientsOk(s) && Enabled(s, step) && step.Establish?
    ensures var next := TakeEstablish(s, step);
            |next.owners| == |next.clients| && forall client | 0 <= client < |next.clients| :: Owned(next, client)
  {
    var next := TakeEstablish(s, step);
    assert CarriesClient(s, step.t);
    forall client | 0 <= client < |next.clients| ensures Owned(next, client) {
      assert Owned(s, client);
    }
  }

  lemma EstablishKeepsHolders(s: System, step: Step)
    requires ClientsOk(s) && Enabled(s, step) && step.Establish?
    ensures var next := TakeEstablish(s, step);
            && |next.owners| == |next.clients|
            && (forall ref | 0 <= ref < |next.sessions| :: Equipped(next, ref))
            && (forall u | u in next.threads :: CarriesClient(next, u))
  {
    var next := TakeEstablish(s, step);
    assert CarriesClient(s, step.t);
    forall ref | 0 <= ref < |next.sessions| ensures Equipped(next, ref) {
      assert ref < |s.sessions| ==> Equipped(s, ref);
    }
    forall u | u in next.threads ensures CarriesClient(next, u) {
      assert CarriesClient(s, u);
    }
  }

  lemma RetireKeepsClients(s: System, step: Step)
    requires ClientsOk(s) && Enabled(s, step) && step.Retire?
    ensures ClientsOk(TakeRetire(s, step))
  {
    var next := TakeRetire(s, step);
    assert Equipped(s, step.ref);
    forall client | 0 <= client < |next.clients| ensures Owned(next, client) {
      assert Owned(s, client);
    }
    forall ref | 0 <= ref < |next.sessions| ensures Equipped(next, ref) {
      assert Equipped(s, ref);
    }
    forall u | u in next.threads ensures CarriesClient(next, u) {
      assert CarriesClient(s, u);
    }
  }

  lemma InspectKeepsClients(s: System, step: Step)
    requires ClientsOk(s) && Enabled(s, step) && step.Inspect?
    ensures ClientsOk(TakeInspect(s, step))
  {
    var next := TakeInspect(s, step);
    var place := s.threads[step.t];
    if next.sessions == s.sessions && next.clients == s.clients && next.owners == s.owners {
      ThreadMoves(s, next, step.t);
    } else {
      assert Equipped(s, place.ref);
      forall client | 0 <= client < |next.clients| ensures Owned(next, client) {
        assert client < |s.clients| ==> Owned(s, client);
      }
      forall ref | 0 <= ref < |next.sessions| ensures Equipped(next, ref) {
        assert Equipped(s, ref);
      }
      forall u | u in next.threads ensures CarriesClient(next, u) {
        assert CarriesClient(s, u);
      }
    }
  }

  lemma EditKeepsClients(s: System, step: Step)
    requires ClientsOk(s) && Enabled(s, step) && step.Edit?
    ensures ClientsOk(Take(s, step))
  {
    var next := Take(s, step);
    forall client | 0 <= client < |next.clients| ensures Owned(next, client) {
      assert Owned(s, client);
    }
    forall ref | 0 <= ref < |next.sessions| ensures Equipped(next, ref) {
      assert Equipped(s, ref);
    }
    forall u | u in next.threads ensures CarriesClient(next, u) {
      assert CarriesClient(s, u);
    }
  }

  lemma ClientsStay(s: System, step: Step)
    requires ClientsOk(s) && Enabled(s, step)
    ensures ClientsOk(Take(s, step))
  {
    if Quiet(step) {
      QuietStep(s, step);
      ThreadMoves(s, Take(s, step), step.t);
    } else {
      match step
      case Connect(_, _) => ConnectKeepsClients(s, step);
      case Establish(_, _, _) => EstablishKeepsClients(s, step);
      case Retire(_, _) => RetireKeepsClients(s, step);
      case Inspect(_, _, _, _) => InspectKeepsClients(s, step);
      case Edit(_, _) => EditKeepsClients(s, step);
    }
  }

  // ---------------------------------------------------------------- sessions

  predicate InTable(s: System, ref: nat) {
    ref < |s.sessions| && s.sessions[ref].id in s.table && s.table[s.sessions[ref].id] == ref
  }

  predicate Mentions(place: Place, ref: nat) {
    match place
    case Created(r, _) => r == ref
    case Found(r, _) => r == ref
    case Dropping(r, _) => r == ref
    case Retiring(refs) => ref in refs
    case _ => false
  }

  /** Thread `t` will insert or deactivate the session. */
  predicate Keeps(s: System, t: int, ref: nat) {
    t in s.threads
    && ((s.threads[t].Created? && s.threads[t].ref == ref) || (s.threads[t].Retiring? && ref in s.threads[t].refs))
  }

  /** An active session is in the table or in the hands of a thread that will insert or deactivate
      it. */
  predicate Covered(s: System, ref: nat)
    requires ref < |s.sessions|
  {
    s.sessions[ref].active ==> InTable(s, ref) || exists t | t in s.threads :: Keeps(s, t, ref)
  }

  predicate Cleared(session: Session) {
    !session.active ==>
      session.token.accessToken == "" && session.token.refreshToken == "" && session.drafts == map[]
  }

  predicate Listed(s: System, id: string)
    requires id in s.table
  {
    s.table[id] < |s.sessions| && s.sessions[s.table[id]].active && s.sessions[s.table[id]].id == id
  }

  predicate CarriesSession(s: System, t: int)
    requires t in s.threads
  {
    match s.threads[t]
    case Created(ref, _) =>
      && ref < |s.sessions| && s.sessions[ref].active && !InTable(s, ref)
      && forall u | u in s.threads && u != t :: !Mentions(s.threads[u], ref)
    case Found(ref, id) => ref < |s.sessions| && s.sessions[ref].id == id
    case Dropping(ref, id) => ref < |s.sessions| && s.sessions[ref].id == id
    case Retiring(refs) => refs != {} && forall ref | ref in refs :: ref < |s.sessions| && !InTable(s, ref)
    case _ => true
  }

  predicate SessionsOk(s: System) {
    && (forall id | id in s.table :: Listed(s, id))
    && (forall ref | 0 <= ref < |s.sessions| :: Cleared(s.sessions[ref]) && Covered(s, ref))
    && (forall t | t in s.threads :: CarriesSession(s, t))
  }

  /** Steps that neither change a session, nor the table, nor a list of sessions to retire. */
  predicate Apart(step: Step) {
    step.Begin? || step.Claim? || step.MakeExchange? || step.Connect? || step.Find? || step.Leave?
    || step.Borrow? || step.Return?
  }

  /** Nothing but the place of thread `t` changes for the sessions. */
  ghost predicate Aside(s: System, next: System, t: int) {
    && next.sessions == s.sessions && next.table == s.table
    && t in s.threads && t in next.threads && OthersStay(s, next, t)
    && !s.threads[t].Created? && !s.threads[t].Retiring?
    && Reaches(s, s.threads[t], next.threads[t])
  }

  lemma LoginIsAside(s: System, step: Step)
    requires Enabled(s, step) && (step.Claim? || step.MakeExchange? || step.Connect?)
    ensures Aside(s, if step.Claim? then TakeClaim(s, step) else if step.Connect? then TakeConnect(s, step)
                     else TakeExchange(s, step), step.t)
  {
  }

  lemma ApartStep(s: System, step: Step)
    requires Enabled(s, step) && Apart(step)
    ensures Aside(s, Take(s, step), step.t)
  {
    if step.Claim? || step.MakeExchange? || step.Connect? {
      LoginIsAside(s, step);
    }
  }

  /** A thread in neither place comes to know a session from the table or from before. */
  predicate Reaches(s: System, before: Place, after: Place) {
    match after
    case Created(_, _) => false
    case Retiring(_) => false
    case Found(ref, id) => id in s.table && s.table[id] == ref
    case Dropping(ref, id) => before == Found(ref, id)
    case _ => true
  }

  lemma ThreadLearns(s: System, next: System, t: int)
    requires SessionsOk(s) && t in s.threads && t in next.threads
    requires next.sessions == s.sessions && next.table == s.table
    requires OthersStay(s, next, t)
    requires !s.threads[t].Created? && !s.threads[t].Retiring?
    requires Reaches(s, s.threads[t], next.threads[t])
    ensures SessionsOk(next)
  {
    forall ref | 0 <= ref < |s.sessions| && s.sessions[ref].active && !InTable(s, ref)
      ensures exists u | u in next.threads :: Keeps(next, u, ref)
    {
      assert Covered(s, ref);
      var u :| u in s.threads && Keeps(s, u, ref);
      assert u != t && Keeps(next, u, ref);
    }
    assert CarriesSession(s, t);
    forall u | u in next.threads ensures CarriesSession(next, u) {
      assert CarriesSession(s, u);
    }
    forall id | id in next.table ensures Listed(next, id) {
      assert Listed(s, id);
    }
  }

  lemma EstablishKeepsSessions(s: System, step: Step)
    requires SessionsOk(s) && Enabled(s, step) && step.Establish?
    ensures SessionsOk(TakeEstablish(s, step))
  {
    var next := TakeEstablish(s, step);
    if next.sessions == s.sessions {
      ThreadLearns(s, next, step.t);
    } else {
      forall id | id in next.table ensures Listed(next, id) {
        assert Listed(s, id);
      }
      forall ref | 0 <= ref < |next.sessions| ensures Covered(next, ref) {
        if ref == |s.sessions| {
          assert Keeps(next, step.t, ref);
        } else if s.sessions[ref].active && !InTable(s, ref) {
          assert Covered(s, ref);
          var u :| u in s.threads && Keeps(s, u, ref);
          assert Keeps(next, u, ref);
        }
      }
      forall u | u in next.threads ensures CarriesSession(next, u) {
        assert u in s.threads && CarriesSession(s, u);
        forall v | v in next.threads && v != step.t ensures !Mentions(next.threads[v], |s.sessions|) {
          assert CarriesSession(s, v);
        }
      }
    }
  }

  /** The table after `Insert`: it may have gained the new session, and what it lost is on the
      thread's list. */
  predicate Replaces(s: System, next: System, mine: nat, refs: set<nat>)
    requires mine < |s.sessions|
  {
    && (forall id | id in next.table ::
          (id in s.table && next.table[id] == s.table[id]) || (id == s.sessions[mine].id && next.table[id] == mine))
    && (forall id | id in s.table :: (id in next.table && next.table[id] == s.table[id]) || s.table[id] in refs)
    && (InTable(next, mine) || mine in refs)
    && (forall ref | ref in refs :: (InTable(s, ref) || ref == mine) && !InTable(next, ref))
  }

  lemma InsertReplaces(s: System, step: Step) returns (refs: set<nat>)
    requires SessionsOk(s) && Enabled(s, step) && step.Insert?
    ensures s.threads[step.t].ref < |s.sessions|
    ensures TakeInsert(s, step).threads == s.threads[step.t := Onward(refs)]
    ensures TakeInsert(s, step).sessions == s.sessions
    ensures Replaces(s, TakeInsert(s, step), s.threads[step.t].ref, refs)
  {
    var place := s.threads[step.t];
    var live := LiveTable(s, place.now);
    var expired := ExpiredRefs(s, place.now);
    var id := s.sessions[place.ref].id;
    assert CarriesSession(s, step.t);
    refs := if id in live then expired + {place.ref}
            else if |live| < s.limits.maxSessions then expired else expired + {live[step.victim]};
    TableReplaced(s, TakeInsert(s, step), place.ref, place.now,
                  if id in live then {place.ref}
                  else if |live| < s.limits.maxSessions then {} else {live[step.victim]});
  }

  lemma TableReplaced(s: System, next: System, mine: nat, now: int, more: set<nat>)
    requires SessionsOk(s) && mine < |s.sessions| && !InTable(s, mine) && next.sessions == s.sessions
    requires var live := LiveTable(s, now);
             var id := s.sessions[mine].id;
             || (id in live && next.table == live && more == {mine})
             || (id !in live && next.table == live[id := mine] && more == {})
             || (id !in live && exists victim ::
                   victim in live && next.table == (live - {victim})[id := mine] && more == {live[victim]})
    ensures Replaces(s, next, mine, ExpiredRefs(s, now) + more)
  {
    forall other | other in s.table ensures Listed(s, other) {
    }
  }

  lemma InsertKeepsSessions(s: System, step: Step)
    requires SessionsOk(s) && Enabled(s, step) && step.Insert?
    ensures SessionsOk(TakeInsert(s, step))
  {
    var refs := InsertReplaces(s, step);
    TableChanges(s, TakeInsert(s, step), step.t, refs);
  }

  lemma TableChanges(s: System, next: System, t: int, refs: set<nat>)
    requires SessionsOk(s) && t in s.threads && s.threads[t].Created? && s.threads[t].ref < |s.sessions|
    requires next.threads == s.threads[t := Onward(refs)] && next.sessions == s.sessions
    requires Replaces(s, next, s.threads[t].ref, refs)
    ensures SessionsOk(next)
  {
    var mine := s.threads[t].ref;
    assert CarriesSession(s, t);
    forall id | id in next.table ensures Listed(next, id) {
      assert id in s.table ==> Listed(s, id);
    }
    forall ref | 0 <= ref < |next.sessions| && next.sessions[ref].active && !InTable(next, ref)
      ensures exists u | u in next.threads :: Keeps(next, u, ref)
    {
      assert Covered(s, ref);
      if InTable(s, ref) || ref == mine {
        assert Keeps(next, t, ref);
      } else {
        var u :| u in s.threads && Keeps(s, u, ref);
        assert Keeps(next, u, ref);
      }
    }
    forall u | u in next.threads ensures CarriesSession(next, u) {
      assert CarriesSession(s, u);
    }
  }

  lemma RetireKeepsSessions(s: System, step: Step)
    requires SessionsOk(s) && Enabled(s, step) && step.Retire?
    ensures SessionsOk(TakeRetire(s, step))
  {
    assert CarriesSession(s, step.t);
    SessionEnds(s, TakeRetire(s, step), step.t, step.ref);
  }

  lemma SessionEnds(s: System, next: System, t: int, ref: nat)
    requires SessionsOk(s) && t in s.threads && s.threads[t].Retiring? && ref in s.threads[t].refs
    requires ref < |s.sessions| && !InTable(s, ref) && next.table == s.table
    requires next.threads == s.threads[t := Onward(s.threads[t].refs - {ref})]
    requires next.sessions == if s.sessions[ref].active then s.sessions[ref := Deactivated(s.sessions[ref])]
                              else s.sessions
    ensures SessionsOk(next)
  {
    assert CarriesSession(s, t);
    forall id | id in next.table ensures Listed(next, id) {
      assert Listed(s, id);
    }
    forall other | 0 <= other < |next.sessions| ensures Cleared(next.sessions[other]) && Covered(next, other) {
      assert Cleared(s.sessions[other]) && Covered(s, other);
      if next.sessions[other].active && !InTable(next, other) {
        var u :| u in s.threads && Keeps(s, u, other);
        assert other != ref;
        if u == t {
          assert other in s.threads[t].refs - {ref};
          assert next.threads[t] == Retiring(s.threads[t].refs - {ref});
        }
        assert Keeps(next, u, other);
      }
    }
    forall u | u in next.threads ensures CarriesSession(next, u) {
      assert CarriesSession(s, u);
    }
  }

  lemma InspectKeepsSessions(s: System, step: Step)
    requires SessionsOk(s) && Enabled(s, step) && step.Inspect?
    ensures SessionsOk(TakeInspect(s, step))
  {
    var next := TakeInspect(s, step);
    if next.sessions == s.sessions {
      ThreadLearns(s, next, step.t);
    } else {
      SessionChanges(s, next, step.t);
    }
  }

  /** A thread rewrites an active session it found, without ending it. */
  lemma SessionChanges(s: System, next: System, t: int)
    requires SessionsOk(s) && t in s.threads && s.threads[t].Found? && next.threads == s.threads[t := Idle]
    requires next.table == s.table
    requires var ref := s.threads[t].ref;
             && ref < |s.sessions| == |next.sessions|
             && next.sessions == s.sessions[ref := next.sessions[ref]]
             && s.sessions[ref].active && next.sessions[ref].active && next.sessions[ref].id == s.sessions[ref].id
    ensures SessionsOk(next)
  {
    forall id | id in next.table ensures Listed(next, id) {
      assert Listed(s, id);
    }
    forall ref | 0 <= ref < |next.sessions| ensures Cleared(next.sessions[ref]) {
      assert Cleared(s.sessions[ref]);
    }
    forall ref | 0 <= ref < |next.sessions| && next.sessions[ref].active && !InTable(next, ref)
      ensures exists u | u in next.threads :: Keeps(next, u, ref)
    {
      assert Covered(s, ref);
      var u :| u in s.threads && Keeps(s, u, ref);
      assert Keeps(next, u, ref);
    }
    forall u | u in next.threads ensures CarriesSession(next, u) {
      assert CarriesSession(s, u);
    }
  }

  lemma DropKeepsSessions(s: System, step: Step)
    requires SessionsOk(s) && Enabled(s, step) && step.Drop?
    ensures SessionsOk(Take(s, step))
  {
    var next := Take(s, step);
    assert CarriesSession(s, step.t);
    forall id | id in next.table ensures Listed(next, id) {
      assert Listed(s, id);
    }
    forall ref | 0 <= ref < |next.sessions| && next.sessions[ref].active && !InTable(next, ref)
      ensures exists u | u in next.threads :: Keeps(next, u, ref)
    {
      assert Covered(s, ref);
      if InTable(s, ref) {
        assert Keeps(next, step.t, ref);
      } else {
        var u :| u in s.threads && Keeps(s, u, ref);
        assert Keeps(next, u, ref);
      }
    }
    forall u | u in next.threads ensures CarriesSession(next, u) {
      assert CarriesSession(s, u);
    }
  }

  lemma SessionsStay(s: System, step: Step)
    requires SessionsOk(s) && Enabled(s, step)
    ensures SessionsOk(Take(s, step))
  {
    if Apart(step) {
      ApartStep(s, step);
      ThreadLearns(s, Take(s, step), step.t);
    } else {
      match step
      case Establish(_, _, _) => EstablishKeepsSessions(s, step);
      case Insert(_, _) => InsertKeepsSessions(s, step);
      case Retire(_, _) => RetireKeepsSessions(s, step);
      case Inspect(_, _, _, _) => InspectKeepsSessions(s, step);
      case Edit(t, _) =>
        if s.sessions[s.threads[t].ref].active {
          SessionChanges(s, Take(s, step), t);
        } else {
          ThreadLearns(s, Take(s, step), t);
        }
      case Drop(_) => DropKeepsSessions(s, step);
    }
  }

  // ---------------------------------------------------------------- logins

  predicate Unexchanged(s: System, serial: nat) {
    forall i | 0 <= i < |s.exchanges| :: s.exchanges[i].serial != serial
  }

  /** The login of the ticket is at this stage. */
  predicate Stands(s: System, ticket: Ticket, stage: Stage)
    requires ticket.serial < |s.logins|
  {
    s.logins[ticket.serial].attempt == ticket.attempt && s.logins[ticket.serial].stage == stage
  }

  /** The authorization request that was sent announced the image of the attempt's own verifier. */
  predicate Announced(s: System, login: Login) {
    login.sent == Authorization(login.attempt.state, login.attempt.nonce, s.limits.s256(login.attempt.verifier))
  }

  predicate Awaited(s: System, id: string)
    requires id in s.pending
  {
    var ticket := s.pending[id];
    && ticket.serial < |s.logins| && Stands(s, ticket, Waiting)
    && ticket.attempt.id == id && Unexchanged(s, ticket.serial)
  }

  /** Thread `t` alone works on the login of its ticket. */
  predicate CarriesTicket(s: System, t: int)
    requires t in s.threads
  {
    var place := s.threads[t];
    && (place.Exchanging? || place.Identified? || place.Connected? ==>
          place.ticket.serial < |s.logins| && Stands(s, place.ticket, Claimed(t)))
    && (place.Exchanging? ==>
          && Unexchanged(s, place.ticket.serial)
          && place.state == place.ticket.attempt.state && place.code != "" && place.now < place.ticket.attempt.expires)
    && (place.Identified? || place.Connected? ==> Admissible(place.identity, place.ticket.attempt))
  }

  /** An exchange used the secrets of its own login: the verifier whose image that login's
      authorization request carried, and the nonce it announced. It followed a callback in time that
      presented a code and the state of that request. */
  predicate Proper(s: System, exchange: Exchange) {
    && exchange.serial < |s.logins|
    && var login := s.logins[exchange.serial];
    && !login.stage.Waiting?
    && exchange.verifier == login.attempt.verifier && exchange.tenantID == login.attempt.tenantID
    && s.limits.s256(exchange.verifier) == login.sent.challenge && exchange.nonce == login.sent.nonce
    && exchange.state == login.sent.state && exchange.code != "" && exchange.now < login.attempt.expires
  }

  predicate FromLogin(s: System, ref: nat)
    requires ref < |s.sessions|
  {
    var session := s.sessions[ref];
    session.login < |s.logins| && s.logins[session.login].stage == Over
    && session.tenantID == s.logins[session.login].attempt.tenantID
  }

  predicate OncePerLogin(s: System) {
    && (forall i, j | 0 <= i < j < |s.exchanges| :: s.exchanges[i].serial != s.exchanges[j].serial)
    && (forall i, j | 0 <= i < j < |s.sessions| :: s.sessions[i].login != s.sessions[j].login)
  }

  predicate LoginsOk(s: System) {
    && (forall id | id in s.pending :: Awaited(s, id))
    && (forall i | 0 <= i < |s.exchanges| :: Proper(s, s.exchanges[i]))
    && (forall ref | 0 <= ref < |s.sessions| :: FromLogin(s, ref))
    && (forall t | t in s.threads :: CarriesTicket(s, t))
    && (forall serial | 0 <= serial < |s.logins| :: Announced(s, s.logins[serial]))
    && OncePerLogin(s)
  }

  predicate Ticketless(place: Place) {
    !place.Exchanging? && !place.Identified? && !place.Connected?
  }

  /** Steps that belong to no login. */
  predicate AfterLogin(step: Step) {
    step.Insert? || step.Retire? || step.Find? || step.Inspect? || step.Leave? || step.Borrow?
    || step.Return? || step.Edit? || step.Drop?
  }

  ghost predicate SameHistory(s: System, next: System, t: int) {
    && next.pending == s.pending && next.logins == s.logins && next.exchanges == s.exchanges
    && next.limits == s.limits
    && t in s.threads && t in next.threads && Ticketless(next.threads[t])
    && OthersStay(s, next, t)
  }

  /** At most the session that was found is rewritten, and it stays the session of its login. */
  predicate SameLogin(s: System, next: System, ref: int) {
    && |next.sessions| == |s.sessions|
    && (forall other | 0 <= other < |s.sessions| && other != ref :: next.sessions[other] == s.sessions[other])
    && (0 <= ref < |s.sessions| ==>
          next.sessions[ref].login == s.sessions[ref].login && next.sessions[ref].tenantID == s.sessions[ref].tenantID)
  }

  lemma SameHistoryStep(s: System, step: Step)
    requires Enabled(s, step) && AfterLogin(step)
    ensures SameHistory(s, Take(s, step), step.t)
  {
    if step.Insert? {
      InsertSameHistory(s, step);
    } else if step.Inspect? {
      InspectSameHistory(s, step);
    }
  }

  lemma InspectSameHistory(s: System, step: Step)
    requires Enabled(s, step) && step.Inspect?
    ensures SameHistory(s, TakeInspect(s, step), step.t)
  {
  }

  lemma InsertSameHistory(s: System, step: Step)
    requires Enabled(s, step) && step.Insert?
    ensures SameHistory(s, TakeInsert(s, step), step.t)
  {
  }

  /** The session that a step rewrites. */
  function Rewritten(s: System, step: Step): int
    requires Enabled(s, step)
  {
    match step
    case Retire(_, ref) => ref
    case Inspect(t, _, _, _) => s.threads[t].ref
    case Edit(t, _) => s.threads[t].ref
    case _ => -1
  }

  lemma InspectSameLogin(s: System, step: Step)
    requires Enabled(s, step) && step.Inspect?
    ensures SameLogin(s, TakeInspect(s, step), Rewritten(s, step))
  {
  }

  lemma InsertSameLogin(s: System, step: Step)
    requires Enabled(s, step) && step.Insert?
    ensures SameLogin(s, TakeInsert(s, step), Rewritten(s, step))
  {
  }

  lemma SameLoginStep(s: System, step: Step)
    requires Enabled(s, step) && AfterLogin(step)
    ensures SameLogin(s, Take(s, step), Rewritten(s, step))
  {
    if step.Insert? {
      InsertSameLogin(s, step);
    } else if step.Inspect? {
      InspectSameLogin(s, step);
    }
  }

  lemma LoginsUntouched(s: System, next: System, t: int, ref: int)
    requires LoginsOk(s) && SameHistory(s, next, t) && SameLogin(s, next, ref)
    ensures LoginsOk(next)
  {
    forall id | id in next.pending ensures Awaited(next, id) {
      assert Awaited(s, id);
    }
    forall i | 0 <= i < |next.exchanges| ensures Proper(next, next.exchanges[i]) {
      assert Proper(s, s.exchanges[i]);
    }
    forall other | 0 <= other < |next.sessions| ensures FromLogin(next, other) {
      assert FromLogin(s, other);
    }
    forall u | u in next.threads ensures CarriesTicket(next, u) {
      assert CarriesTicket(s, u);
    }
  }

  /** The logins so far are as they were, and there may be one more. */
  ghost predicate Appends(s: System, next: System) {
    && |s.logins| <= |next.logins| && next.logins[..|s.logins|] == s.logins
    && next.limits == s.limits && next.exchanges == s.exchanges && next.sessions == s.sessions
    && next.threads == s.threads
  }

  lemma AppendingKeepsHistory(s: System, next: System)
    requires LoginsOk(s) && Appends(s, next)
    ensures forall i | 0 <= i < |next.exchanges| :: Proper(next, next.exchanges[i])
    ensures forall ref | 0 <= ref < |next.sessions| :: FromLogin(next, ref)
    ensures forall serial | 0 <= serial < |s.logins| :: Announced(next, next.logins[serial])
  {
    assert forall serial | 0 <= serial < |s.logins| :: next.logins[serial] == s.logins[serial];
    forall i | 0 <= i < |next.exchanges| ensures Proper(next, next.exchanges[i]) {
      assert Proper(s, s.exchanges[i]);
    }
    forall ref | 0 <= ref < |next.sessions| ensures FromLogin(next, ref) {
      assert FromLogin(s, ref);
    }
  }

  lemma AppendingKeepsTickets(s: System, next: System)
    requires LoginsOk(s) && Appends(s, next)
    ensures forall t | t in next.threads :: CarriesTicket(next, t)
    ensures forall id | id in next.pending && id in s.pending && next.pending[id] == s.pending[id] :: Awaited(next, id)
  {
    assert forall serial | 0 <= serial < |s.logins| :: next.logins[serial] == s.logins[serial];
    forall t | t in next.threads ensures CarriesTicket(next, t) {
      assert CarriesTicket(s, t);
    }
    forall id | id in next.pending && id in s.pending && next.pending[id] == s.pending[id] ensures Awaited(next, id) {
      assert Awaited(s, id);
    }
  }

  /** `Begin` adds at most one login, waiting and announced, and its ticket. */
  predicate BeginsOne(s: System, next: System, attempt: Attempt) {
    && |s.logins| <= |next.logins| <= |s.logins| + 1
    && (|next.logins| > |s.logins| ==>
          next.logins[|s.logins|].attempt == attempt && next.logins[|s.logins|].stage == Waiting
          && Announced(next, next.logins[|s.logins|]))
    && (forall id | id in next.pending ::
          || (id in s.pending && next.pending[id] == s.pending[id])
          || (&& id == attempt.id && next.pending[id] == Ticket(|s.logins|, attempt)
              && |next.logins| > |s.logins|))
  }

  lemma BeginAppends(s: System, attempt: Attempt, now: int, kept: set<string>)
    ensures Appends(s, TakeBegin(s, attempt, now, kept))
    ensures BeginsOne(s, TakeBegin(s, attempt, now, kept), attempt)
  {
  }

  lemma NewLoginUnexchanged(s: System, next: System)
    requires LoginsOk(s) && Appends(s, next)
    ensures Unexchanged(next, |s.logins|)
  {
    forall i | 0 <= i < |s.exchanges| ensures s.exchanges[i].serial < |s.logins| {
      assert Proper(s, s.exchanges[i]);
    }
  }

  lemma BeginKeepsLogins(s: System, attempt: Attempt, now: int, kept: set<string>)
    requires LoginsOk(s)
    ensures LoginsOk(TakeBegin(s, attempt, now, kept))
  {
    var next := TakeBegin(s, attempt, now, kept);
    BeginAppends(s, attempt, now, kept);
    AppendingKeepsHistory(s, next);
    AppendingKeepsTickets(s, next);
    NewLoginUnexchanged(s, next);
  }

  /** Thread `t` moves one login on, and what the step adds belongs to that login. */
  ghost predicate Progress(s: System, next: System, t: int, serial: nat) {
    && serial < |s.logins| == |next.logins| && t in s.threads && t in next.threads
    && (s.logins[serial].stage == Waiting || s.logins[serial].stage == Claimed(t))
    && next.logins[serial] == s.logins[serial].(stage := next.logins[serial].stage)
    && !next.logins[serial].stage.Waiting? && next.limits == s.limits
    && (forall i | 0 <= i < |s.logins| && i != serial :: next.logins[i] == s.logins[i])
    && OthersStay(s, next, t)
    && (forall id | id in next.pending ::
          id in s.pending && next.pending[id] == s.pending[id] && next.pending[id].serial != serial)
    && AddsExchange(s, next, serial) && AddsSession(s, next, serial)
    && CarriesTicket(next, t)
  }

  predicate AddsExchange(s: System, next: System, serial: nat) {
    || next.exchanges == s.exchanges
    || (&& Unexchanged(s, serial) && |next.exchanges| == |s.exchanges| + 1
        && next.exchanges[..|s.exchanges|] == s.exchanges
        && next.exchanges[|s.exchanges|].serial == serial && Proper(next, next.exchanges[|s.exchanges|]))
  }

  predicate AddsSession(s: System, next: System, serial: nat) {
    || next.sessions == s.sessions
    || (&& |next.sessions| == |s.sessions| + 1 && next.sessions[..|s.sessions|] == s.sessions
        && next.sessions[|s.sessions|].login == serial && FromLogin(next, |s.sessions|))
  }

  lemma ProgressKeepsTickets(s: System, next: System, t: int, serial: nat)
    requires LoginsOk(s) && Progress(s, next, t, serial)
    ensures forall u | u in next.threads :: CarriesTicket(next, u)
    ensures forall id | id in next.pending :: Awaited(next, id)
  {
    forall id | id in next.pending ensures Awaited(next, id) {
      assert Awaited(s, id);
      assert next.exchanges[..|s.exchanges|] == s.exchanges;
    }
    forall u | u in next.threads ensures CarriesTicket(next, u) {
      assert CarriesTicket(s, u);
      assert next.exchanges[..|s.exchanges|] == s.exchanges;
    }
  }

  lemma ProgressKeepsExchanges(s: System, next: System, t: int, serial: nat)
    requires LoginsOk(s) && Progress(s, next, t, serial)
    ensures forall i | 0 <= i < |next.exchanges| :: Proper(next, next.exchanges[i])
    ensures forall i, j | 0 <= i < j < |next.exchanges| :: next.exchanges[i].serial != next.exchanges[j].serial
  {
    forall i | 0 <= i < |s.exchanges| ensures next.exchanges[i] == s.exchanges[i] && Proper(next, next.exchanges[i]) {
      assert Proper(s, s.exchanges[i]);
      assert next.exchanges[..|s.exchanges|] == s.exchanges;
    }
  }

  lemma ProgressKeepsSessions(s: System, next: System, t: int, serial: nat)
    requires LoginsOk(s) && Progress(s, next, t, serial)
    ensures forall ref | 0 <= ref < |next.sessions| :: FromLogin(next, ref)
    ensures forall i, j | 0 <= i < j < |next.sessions| :: next.sessions[i].login != next.sessions[j].login
  {
    forall ref | 0 <= ref < |s.sessions|
      ensures next.sessions[ref] == s.sessions[ref] && s.sessions[ref].login != serial && FromLogin(next, ref)
    {
      assert FromLogin(s, ref);
      assert next.sessions[..|s.sessions|] == s.sessions;
    }
  }

  lemma ProgressKeepsLogins(s: System, next: System, t: int, serial: nat)
    requires LoginsOk(s) && Progress(s, next, t, serial)
    ensures LoginsOk(next)
  {
    ProgressKeepsTickets(s, next, t, serial);
    ProgressKeepsExchanges(s, next, t, serial);
    ProgressKeepsSessions(s, next, t, serial);
  }

  lemma ClaimKeepsLogins(s: System, step: Step)
    requires LoginsOk(s) && Enabled(s, step) && step.Claim?
    ensures LoginsOk(TakeClaim(s, step))
  {
    var next := TakeClaim(s, step);
    forall id | id in s.pending ensures Awaited(s, id) {
    }
    if next.logins == s.logins && next.threads == s.threads {
      forall u | u in next.threads ensures CarriesTicket(next, u) {
        assert CarriesTicket(s, u);
      }
      forall ref | 0 <= ref < |next.sessions| ensures FromLogin(next, ref) {
        assert FromLogin(s, ref);
      }
      forall i | 0 <= i < |next.exchanges| ensures Proper(next, next.exchanges[i]) {
        assert Proper(s, s.exchanges[i]);
      }
    } else {
      ProgressKeepsLogins(s, next, step.t, s.pending[step.id].serial);
    }
  }

  lemma ExchangeProgresses(s: System, step: Step)
    requires LoginsOk(s) && Enabled(s, step) && step.MakeExchange?
    ensures Progress(s, TakeExchange(s, step), step.t, s.threads[step.t].ticket.serial)
  {
    assert CarriesTicket(s, step.t);
    forall id | id in s.pending ensures Awaited(s, id) {
    }
  }

  lemma ConnectProgresses(s: System, step: Step)
    requires LoginsOk(s) && Enabled(s, step) && step.Connect?
    ensures Progress(s, TakeConnect(s, step), step.t, s.threads[step.t].ticket.serial)
  {
    assert CarriesTicket(s, step.t);
    forall id | id in s.pending ensures Awaited(s, id) {
    }
  }

  lemma EstablishProgresses(s: System, step: Step)
    requires LoginsOk(s) && Enabled(s, step) && step.Establish?
    ensures Progress(s, TakeEstablish(s, step), step.t, s.threads[step.t].ticket.serial)
  {
    assert CarriesTicket(s, step.t);
    forall id | id in s.pending ensures Awaited(s, id) {
    }
  }

  lemma LoginsStay(s: System, step: Step)
    requires LoginsOk(s) && Enabled(s, step)
    ensures LoginsOk(Take(s, step))
  {
    var next := Take(s, step);
    if AfterLogin(step) {
      SameHistoryStep(s, step);
      SameLoginStep(s, step);
      LoginsUntouched(s, next, step.t, Rewritten(s, step));
    } else {
      match step
      case Begin(_, attempt, now, kept) => BeginKeepsLogins(s, attempt, now, kept);
      case Claim(_, _, _, _, _) => ClaimKeepsLogins(s, step);
      case MakeExchange(t, _) =>
        ExchangeProgresses(s, step);
        ProgressKeepsLogins(s, next, t, s.threads[t].ticket.serial);
      case Connect(t, _) =>
        ConnectProgresses(s, step);
        ProgressKeepsLogins(s, next, t, s.threads[t].ticket.serial);
      case Establish(t, _, _) =>
        EstablishProgresses(s, step);
        ProgressKeepsLogins(s, next, t, s.threads[t].ticket.serial);
    }
  }

  // ---------------------------------------------------------------- bounds

  predicate WithinBounds(s: System) {
    && |s.pending| <= s.limits.maxPending && |s.table| <= s.limits.maxSessions
    && s.limits.maxPending >= 1 && s.limits.maxSessions >= 1
  }

  lemma BeginBounds(s: System, step: Step)
    requires WithinBounds(s) && Enabled(s, step) && step.Begin?
    ensures WithinBounds(TakeBegin(s, step.attempt, step.now, step.kept))
  {
    var live := LivePending(s.pending, step.now);
    SubmapSize(live, s.pending);
    SubmapSize(Only(live, step.kept), Attempts(Only(live, step.kept)));
  }

  lemma InsertBounds(s: System, step: Step)
    requires WithinBounds(s) && Enabled(s, step) && step.Insert?
    ensures WithinBounds(TakeInsert(s, step))
  {
    var live := LiveTable(s, s.threads[step.t].now);
    SubmapSize(live, s.table);
    if |live| >= s.limits.maxSessions {
      assert (live - {step.victim}).Keys == live.Keys - {step.victim};
    }
  }

  lemma ClaimBounds(s: System, step: Step)
    requires WithinBounds(s) && Enabled(s, step) && step.Claim?
    ensures WithinBounds(TakeClaim(s, step))
  {
    SubmapSize(s.pending - {step.id}, s.pending);
  }

  lemma DropBounds(s: System, step: Step)
    requires WithinBounds(s) && Enabled(s, step) && step.Drop?
    ensures WithinBounds(Take(s, step))
  {
    SubmapSize(Take(s, step).table, s.table);
  }

  /** Steps that leave both tables alone. */
  predicate OffTables(step: Step) {
    !step.Begin? && !step.Claim? && !step.Insert? && !step.Drop?
  }

  lemma TablesUntouched(s: System, step: Step)
    requires Enabled(s, step) && OffTables(step)
    ensures Take(s, step).pending == s.pending && Take(s, step).table == s.table && Take(s, step).limits == s.limits
  {
    match step
    case MakeExchange(_, _) => assert Take(s, step) == TakeExchange(s, step);
    case Establish(_, _, _) => assert Take(s, step) == TakeEstablish(s, step);
    case Inspect(_, _, _, _) => assert Take(s, step) == TakeInspect(s, step);
    case Retire(_, _) => assert Take(s, step) == TakeRetire(s, step);
    case _ =>
  }

  lemma BoundsStay(s: System, step: Step)
    requires WithinBounds(s) && Enabled(s, step)
    ensures WithinBounds(Take(s, step))
  {
    if OffTables(step) {
      TablesUntouched(s, step);
    } else {
      match step
      case Begin(_, _, _, _) => BeginBounds(s, step);
      case Claim(_, _, _, _, _) => ClaimBounds(s, step);
      case Insert(_, _) => InsertBounds(s, step);
      case Drop(_) => DropBounds(s, step);
    }
  }

  // ---------------------------------------------------------------- every run

  predicate Inv(s: System) {
    ClientsOk(s) && SessionsOk(s) && LoginsOk(s) && WithinBounds(s)
  }

  predicate Possible(s: System, steps: seq<Step>)
    decreases |steps|
  {
    steps == [] || (Enabled(s, steps[0]) && Possible(Take(s, steps[0]), steps[1..]))
  }

  function Execute(s: System, steps: seq<Step>): System
    requires Possible(s, steps)
    decreases |steps|
  {
    if steps == [] then s else Execute(Take(s, steps[0]), steps[1..])
  }

  lemma InvStays(s: System, step: Step)
    requires Inv(s) && Enabled(s, step)
    ensures Inv(Take(s, step))
  {
    ClientsStay(s, step);
    SessionsStay(s, step);
    LoginsStay(s, step);
    BoundsStay(s, step);
  }

  lemma {:induction false} AlwaysInv(s: System, steps: seq<Step>)
    requires Inv(s) && Possible(s, steps)
    ensures Inv(Execute(s, steps))
    decreases |steps|
  {
    if steps != [] {
      InvStays(s, steps[0]);
      AlwaysInv(Take(s, steps[0]), steps[1..]);
    }
  }

  lemma InitialInv(limits: Limits, threads: set<int>)
    requires limits.maxPending >= 1 && limits.maxSessions >= 1
    ensures Inv(Initial(limits, threads))
  {
  }
}
