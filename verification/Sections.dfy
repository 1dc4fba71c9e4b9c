/** The broker run by any number of threads. Every step below is one lock section of one thread
    (under the broker lock or under one session's lock) or one call to the outside between two
    sections; any interleaving of steps may happen. */
module Sections {
  import opened Text
  import opened AuthModel

  /** The settings of the broker; `s256` is the image that PKCE sends instead of a verifier. */
  datatype Limits = Limits(tenants: set<string>, pendingTTL: int, sessionTTL: int, refreshSkew: int,
                           maxPending: nat, maxSessions: nat, s256: string -> string)

  /** An attempt numbered by the `Begin` that made it. */
  datatype Ticket = Ticket(serial: nat, attempt: Attempt)

  datatype Client = Client(tenantID: string, token: string, open: bool)

  datatype Session = Session(id: string, csrf: string, tenantID: string, token: Token, created: int,
                             expires: int, active: bool, client: nat, drafts: map<string, string>,
                             login: nat)

  /** Where a thread is. `Created` holds a session that is not in the table yet; `Dropping` has
      decided to invalidate; `Retiring` still has to deactivate these sessions. */
  datatype Place =
    | Idle
    | Exchanging(ticket: Ticket, code: string, state: string, now: int)
    | Identified(ticket: Ticket, identity: Identity, now: int)
    | Connected(ticket: Ticket, identity: Identity, client: nat, now: int)
    | Created(ref: nat, now: int)
    | Found(ref: nat, id: string)
    | Dropping(ref: nat, id: string)
    | Retiring(refs: set<nat>)
    | Using(client: nat)

  datatype Owner = Nobody | Local(t: int) | Held(ref: nat)

  datatype Stage = Waiting | Claimed(t: int) | Over

  /** A begun login, with the authorization request that its `Begin` sent. */
  datatype Login = Login(attempt: Attempt, sent: Authorization, stage: Stage)

  /** A request to the identity provider, with the callback that led to it: the state that was presented and
      when. */
  datatype Exchange = Exchange(serial: nat, verifier: string, nonce: string, tenantID: string, code: string,
                               state: string, now: int)

  /** `sessions` and `clients` list everything ever made; `table` is the broker's session map.
      The last three fields only record history for the statements: who has to close a client,
      how far each login has come, and the exchanges that were made. */
  datatype System = System(limits: Limits, pending: map<string, Ticket>, table: map<string, nat>,
                           sessions: seq<Session>, clients: seq<Client>, threads: map<int, Place>,
                           owners: seq<Owner>, logins: seq<Login>, exchanges: seq<Exchange>)

  datatype Step =
    | Begin(t: int, attempt: Attempt, now: int, kept: set<string>)
    | Claim(t: int, id: string, state: string, code: string, now: int)
    | MakeExchange(t: int, outcome: Option<Identity>)
    | Connect(t: int, connects: bool)
    | Establish(t: int, sessionID: Option<string>, proof: Option<string>)
    | Insert(t: int, victim: string)
    | Retire(t: int, ref: nat)
    | Find(t: int, id: string)
    | Inspect(t: int, now: int, refreshed: Option<Token>, connects: bool)
    | Leave(t: int, csrf: string)
    | Borrow(t: int)
    | Return(t: int)
    | Edit(t: int, drafts: map<string, string>)
    | Drop(t: int)

  function Initial(limits: Limits, threads: set<int>): System {
    System(limits, map[], map[], [], [], map t | t in threads :: Idle, [], [], [])
  }

  // ---------------------------------------------------------------- helpers

  function Goto(s: System, t: int, place: Place): System {
    s.(threads := s.threads[t := place])
  }

  function Close(s: System, client: nat): System
    requires client < |s.clients| == |s.owners|
  {
    s.(clients := s.clients[client := s.clients[client].(open := false)],
       owners := s.owners[client := Nobody])
  }

  function Own(s: System, client: nat, owner: Owner): System
    requires client < |s.owners|
  {
    s.(owners := s.owners[client := owner])
  }

  function MakeClient(s: System, tenantID: string, token: string, owner: Owner): System {
    s.(clients := s.clients + [Client(tenantID, token, true)], owners := s.owners + [owner])
  }

  function Advance(s: System, serial: nat, stage: Stage): System
    requires serial < |s.logins|
  {
    s.(logins := s.logins[serial := s.logins[serial].(stage := stage)])
  }

  function Attempts(pending: map<string, Ticket>): map<string, Attempt> {
    map id | id in pending :: pending[id].attempt
  }

  function LivePending(pending: map<string, Ticket>, now: int): map<string, Ticket> {
    map id | id in pending && now < pending[id].attempt.expires :: pending[id]
  }

  function Only(pending: map<string, Ticket>, kept: set<string>): map<string, Ticket> {
    map id | id in pending && id in kept :: pending[id]
  }

  function LiveTable(s: System, now: int): map<string, nat>
    requires TableInRange(s)
  {
    map id | id in s.table && now < s.sessions[s.table[id]].expires :: s.table[id]
  }

  function ExpiredRefs(s: System, now: int): set<nat>
    requires TableInRange(s)
  {
    set id | id in s.table && s.sessions[s.table[id]].expires <= now :: s.table[id]
  }

  predicate TableInRange(s: System) {
    forall id | id in s.table :: s.table[id] < |s.sessions|
  }

  function Deactivated(session: Session): Session {
    session.(active := false, token := Token("", "", session.token.expiry), drafts := map[])
  }

  /** The place after the rest of a retirement list. */
  function Onward(refs: set<nat>): Place {
    if refs == {} then Idle else Retiring(refs)
  }

  predicate NeedsRefresh(s: System, session: Session, now: int) {
    session.token.expiry.Some? && session.token.expiry.value <= now + s.limits.refreshSkew
  }

  /** The refresh that `Session` makes under the session lock succeeds. */
  predicate Refreshes(session: Session, refreshed: Option<Token>, connects: bool) {
    session.token.refreshToken != "" && refreshed.Some? && refreshed.value.accessToken != "" && connects
  }

  function Renewed(session: Session, token: Token, client: nat): Session {
    session.(client := client,
             token := Token(token.accessToken,
                            if token.refreshToken != "" then token.refreshToken else session.token.refreshToken,
                            token.expiry))
  }

  // ---------------------------------------------------------------- the steps

  predicate At(s: System, t: int, place: Place) {
    t in s.threads && s.threads[t] == place
  }

  predicate Enabled(s: System, step: Step) {
    && step.t in s.threads && |s.owners| == |s.clients| && TableInRange(s)
    && var place := s.threads[step.t];
    match step
    case Begin(_, attempt, now, kept) =>
      && place.Idle?
      && attempt.id != "" && attempt.tenantID in s.limits.tenants && s.limits.maxPending >= 1
      && attempt.created == now && attempt.expires == now + s.limits.pendingTTL
      && var live := LivePending(s.pending, now);
      EvictedTo(Attempts(live), Attempts(Only(live, kept)), s.limits.maxPending)
    case Claim(_, id, _, _, _) =>
      place.Idle? && (id in s.pending ==> s.pending[id].serial < |s.logins|)
    case MakeExchange(_, _) => place.Exchanging? && place.ticket.serial < |s.logins|
    case Connect(_, _) => place.Identified? && place.ticket.serial < |s.logins|
    case Establish(_, _, _) =>
      place.Connected? && place.ticket.serial < |s.logins| && place.client < |s.clients|
    case Insert(_, victim) =>
      && place.Created? && place.ref < |s.sessions|
      && var live := LiveTable(s, place.now);
      |live| >= s.limits.maxSessions ==>
        victim in live && forall id | id in live :: s.sessions[live[victim]].created <= s.sessions[live[id]].created
    case Retire(_, ref) =>
      place.Retiring? && ref in place.refs && ref < |s.sessions| && s.sessions[ref].client < |s.clients|
    case Find(_, _) => place.Idle?
    case Inspect(_, _, _, _) => place.Found? && place.ref < |s.sessions| && s.sessions[place.ref].client < |s.clients|
    case Leave(_, _) => place.Found? && place.ref < |s.sessions|
    case Borrow(_) => place.Found? && place.ref < |s.sessions|
    case Return(_) => place.Using?
    case Edit(_, _) => place.Found? && place.ref < |s.sessions|
    case Drop(_) => place.Dropping?
  }

  /** `Begin`, under the broker lock. */
  function TakeBegin(s: System, attempt: Attempt, now: int, kept: set<string>): System {
    var live := LivePending(s.pending, now);
    if attempt.id in live then s.(pending := live)
    else
      s.(pending := Only(live, kept)[attempt.id := Ticket(|s.logins|, attempt)],
         logins := s.logins
           + [Login(attempt, Authorization(attempt.state, attempt.nonce, s.limits.s256(attempt.verifier)), Waiting)])
  }

  /** The first section of `Complete`: the attempt leaves the table whatever happens next. */
  function TakeClaim(s: System, step: Step): System
    requires step.Claim? && Enabled(s, step)
  {
    var rest := s.(pending := s.pending - {step.id});
    if step.id in s.pending && step.now < s.pending[step.id].attempt.expires
       && s.pending[step.id].attempt.state == step.state && step.code != ""
    then
      var ticket := s.pending[step.id];
      Goto(Advance(rest, ticket.serial, Claimed(step.t)), step.t, Exchanging(ticket, step.code, step.state, step.now))
    else rest
  }

  function TakeExchange(s: System, step: Step): System
    requires step.MakeExchange? && Enabled(s, step)
  {
    var place := s.threads[step.t];
    var attempt := place.ticket.attempt;
    var asked := s.(exchanges := s.exchanges
                      + [Exchange(place.ticket.serial, attempt.verifier, attempt.nonce, attempt.tenantID, place.code,
                                  place.state, place.now)]);
    if step.outcome.Some? && Admissible(step.outcome.value, attempt)
    then Goto(asked, step.t, Identified(place.ticket, step.outcome.value, place.now))
    else Goto(Advance(asked, place.ticket.serial, Over), step.t, Idle)
  }

  function TakeConnect(s: System, step: Step): System
    requires step.Connect? && Enabled(s, step)
  {
    var place := s.threads[step.t];
    if step.connects then
      var made := MakeClient(s, place.ticket.attempt.tenantID, place.identity.token.accessToken, Local(step.t));
      Goto(made, step.t, Connected(place.ticket, place.identity, |s.clients|, place.now))
    else Goto(Advance(s, place.ticket.serial, Over), step.t, Idle)
  }

  /** Draws the session id and the CSRF token and makes the session; a failed draw closes the
      client. */
  function TakeEstablish(s: System, step: Step): System
    requires step.Establish? && Enabled(s, step)
  {
    var place := s.threads[step.t];
    var over := Advance(s, place.ticket.serial, Over);
    if step.sessionID.Some? && step.proof.Some? then
      var session := Session(step.sessionID.value, step.proof.value, place.ticket.attempt.tenantID,
                             place.identity.token, place.now, place.now + s.limits.sessionTTL, true,
                             place.client, map[], place.ticket.serial);
      var made := over.(sessions := s.sessions + [session]);
      Goto(Own(made, place.client, Held(|s.sessions|)), step.t, Created(|s.sessions|, place.now))
    else Goto(Close(over, place.client), step.t, Idle)
  }

  /** The last broker section of `Complete`: expired sessions leave the table, an identifier
      collision retires the new session, and otherwise the oldest session makes room. */
  function TakeInsert(s: System, step: Step): System
    requires step.Insert? && Enabled(s, step)
  {
    var place := s.threads[step.t];
    var live := LiveTable(s, place.now);
    var expired := ExpiredRefs(s, place.now);
    var id := s.sessions[place.ref].id;
    if id in live then Goto(s.(table := live), step.t, Onward(expired + {place.ref}))
    else if |live| < s.limits.maxSessions then
      Goto(s.(table := live[id := place.ref]), step.t, Onward(expired))
    else
      Goto(s.(table := (live - {step.victim})[id := place.ref]), step.t, Onward(expired + {live[step.victim]}))
  }

  /** `deactivate`, under the session lock. */
  function TakeRetire(s: System, step: Step): System
    requires step.Retire? && Enabled(s, step)
  {
    var session := s.sessions[step.ref];
    var after := Goto(s, step.t, Onward(s.threads[step.t].refs - {step.ref}));
    if session.active then
      Close(after, session.client).(sessions := s.sessions[step.ref := Deactivated(session)])
    else after
  }

  /** `Session` under the session lock: an unusable session is invalidated, a token near its
      expiry is refreshed and the client swapped. */
  function TakeInspect(s: System, step: Step): System
    requires step.Inspect? && Enabled(s, step)
  {
    var place := s.threads[step.t];
    var session := s.sessions[place.ref];
    if !session.active || session.expires <= step.now then Goto(s, step.t, Dropping(place.ref, place.id))
    else if !NeedsRefresh(s, session, step.now) then Goto(s, step.t, Idle)
    else if !Refreshes(session, step.refreshed, step.connects) then
      Goto(s, step.t, Dropping(place.ref, place.id))
    else
      var made := MakeClient(s, session.tenantID, step.refreshed.value.accessToken, Held(place.ref));
      var renewed := Renewed(session, step.refreshed.value, |s.clients|);
      Goto(Close(made.(sessions := s.sessions[place.ref := renewed]), session.client), step.t, Idle)
  }

  function Take(s: System, step: Step): System
    requires Enabled(s, step)
  {
    var place := s.threads[step.t];
    match step
    case Begin(_, attempt, now, kept) => TakeBegin(s, attempt, now, kept)
    case Claim(_, _, _, _, _) => TakeClaim(s, step)
    case MakeExchange(_, _) => TakeExchange(s, step)
    case Connect(_, _) => TakeConnect(s, step)
    case Establish(_, _, _) => TakeEstablish(s, step)
    case Insert(_, _) => TakeInsert(s, step)
    case Retire(_, _) => TakeRetire(s, step)
    case Find(t, id) => if id in s.table then Goto(s, t, Found(s.table[id], id)) else s
    case Inspect(_, _, _, _) => TakeInspect(s, step)
    case Leave(t, csrf) =>
      if s.sessions[place.ref].active && s.sessions[place.ref].csrf == csrf
      then Goto(s, t, Dropping(place.ref, place.id)) else Goto(s, t, Idle)
    case Borrow(t) =>
      Goto(s, t, if s.sessions[place.ref].active then Using(s.sessions[place.ref].client) else Idle)
    case Return(t) => Goto(s, t, Idle)
    case Edit(t, drafts) =>
      var session := s.sessions[place.ref];
      if session.active
      then Goto(s.(sessions := s.sessions[place.ref := session.(drafts := drafts)]), t, Idle)
      else Goto(s, t, Idle)
    case Drop(t) =>
      var rest := if place.id in s.table && s.table[place.id] == place.ref
                  then s.(table := s.table - {place.id}) else s;
      Goto(rest, t, Retiring({place.ref}))
  }
}
