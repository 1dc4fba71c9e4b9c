/** The broker object and its sessions, run by one thread at a time: bounded tables, eviction,
    expiry and the ownership of the provider clients. */
module Broker {
  import opened Counting
  import opened Text
  import opened Sorting
  import opened RoleIndex
  import opened AuthModel
  import opened Drafts

  /** The provider clients that the factory has made; a closed client never opens again. */
  class Clients {
    var made: nat
    var open: set<nat>

    constructor ()
      ensures made == 0 && open == {}
    {
      made, open := 0, {};
    }

    ghost predicate Valid()
      reads this
    {
      forall c | c in open :: c < made
    }

    method Make() returns (client: nat)
      requires Valid()
      modifies this
      ensures Valid() && client == old(made) && made == old(made) + 1 && open == old(open) + {client}
    {
      client := made;
      made := made + 1;
      open := open + {client};
    }

    method Close(client: nat)
      requires Valid()
      modifies this
      ensures Valid() && made == old(made) && open == old(open) - {client}
    {
      open := open - {client};
    }
  }

  class Session {
    const id: string
    const csrf: string
    const tenantID: string
    const subject: string
    const displayName: string
    const roles: seq<string>
    const created: int
    const expires: int
    var token: Token
    var active: bool
    var client: nat
    var drafts: Drafts.Table

    constructor (id: string, csrf: string, attempt: Attempt, identity: Identity, roles: seq<string>,
                 now: int, ttl: int, client: nat)
      ensures this.id == id && this.csrf == csrf && this.tenantID == attempt.tenantID
      ensures subject == identity.subject && displayName == identity.displayName && this.roles == roles
      ensures created == now && expires == now + ttl
      ensures token == identity.token && active && this.client == client && drafts == map[]
    {
      this.id, this.csrf, this.tenantID := id, csrf, attempt.tenantID;
      this.subject, this.displayName, this.roles := identity.subject, identity.displayName, roles;
      this.created, this.expires := now, now + ttl;
      this.token, this.active, this.client, this.drafts := identity.token, true, client, map[];
    }

    /** Ends the session: closes its client and drops its tokens and drafts. */
    method Deactivate(clients: Clients)
      requires clients.Valid()
      modifies this, clients
      ensures clients.Valid() && clients.made == old(clients.made)
      ensures client == old(client) && !active
      ensures if old(active)
              then token == Token("", "", old(token.expiry)) && drafts == map[]
                   && clients.open == old(clients.open) - {client}
              else token == old(token) && drafts == old(drafts) && clients.open == old(clients.open)
    {
      if !active {
        return;
      }
      active := false;
      clients.Close(client);
      token := Token("", "", token.expiry);
      drafts := map[];
    }

    // -------------------------------------------------------------- drafts

    /** `StoreDraft`: draws up to three references and stores under the first free one. */
    method StoreDraft(category: string, draft: Option<Draft>, draws: seq<Option<string>>) returns (answer: Answer)
      requires |draws| == 3
      modifies this`drafts
      ensures if active then (drafts, answer) == Perform(old(drafts), Store(category, draft, draws))
              else drafts == old(drafts) && answer == Refused
    {
      if !SafeCategory(category) || draft == None || !active || |drafts| >= MAX_SESSION_DRAFTS {
        return Refused;
      }
      for i := 0 to 3
        invariant drafts == old(drafts)
        invariant FirstFree(drafts, category, draws) == FirstFree(drafts, category, draws[i..])
      {
        if draws[i] == None {
          return Refused;
        }
        var reference := draws[i].value;
        var key := StateKey(category, reference);
        if key !in drafts {
          drafts := drafts[key := draft.value];
          return Text(reference);
        }
      }
      return Refused;
    }

    method LoadDraft(category: string, reference: string) returns (answer: Answer)
      ensures answer == if active then Perform(drafts, Load(category, reference)).1 else Snapshot(None)
    {
      if !SafeCategory(category) || reference == "" || |reference| > 256 || !active {
        return Snapshot(None);
      }
      var key := StateKey(category, reference);
      return Snapshot(if key in drafts then Some(drafts[key]) else None);
    }

    method DeleteDraft(category: string, reference: string)
      modifies this`drafts
      ensures drafts == if active then Perform(old(drafts), Delete(category, reference)).0 else old(drafts)
    {
      if !SafeCategory(category) || reference == "" {
        return;
      }
      if active {
        drafts := drafts - {StateKey(category, reference)};
      }
    }

    /** `DraftKey`: the key kept for the scope, or a fresh one. */
    method DraftKey(scope: string, draw: Option<string>) returns (answer: Answer)
      modifies this`drafts
      ensures if active then (drafts, answer) == Perform(old(drafts), KeyFor(scope, draw))
              else drafts == old(drafts) && answer == Refused
    {
      if scope == "" || |scope| > 1024 || !active {
        return Refused;
      }
      if scope in drafts && drafts[scope].Key? && drafts[scope].text != "" {
        return Text(drafts[scope].text);
      }
      if |drafts| >= MAX_SESSION_DRAFTS || draw == None {
        return Refused;
      }
      drafts := drafts[scope := Key(draw.value)];
      return Text(draw.value);
    }

    method ClearDraft(scope: string)
      modifies this`drafts
      ensures drafts == if active then Perform(old(drafts), Clear(scope)).0 else old(drafts)
    {
      if active {
        drafts := drafts - {scope};
      }
    }
  }

  predicate Lists(table: map<string, Session>, session: Session) {
    session.id in table && table[session.id] == session
  }

  predicate Keyed(table: map<string, Session>) {
    forall id | id in table :: table[id].id == id
  }

  function Unexpired(table: map<string, Session>, now: int): map<string, Session> {
    map id | id in table && now < table[id].expires :: table[id]
  }

  function Expired(table: map<string, Session>, now: int): set<Session> {
    set id | id in table && table[id].expires <= now :: table[id]
  }

  /** `after` gains the session, keeps only sessions of `before` that have not expired, and lists
      everything it lost as retired; what it lost before its time is older than all it kept. */
  predicate Admits(before: map<string, Session>, after: map<string, Session>, session: Session, now: int,
                   retired: set<Session>)
  {
    && Lists(after, session) && Keyed(after)
    && (forall id | id in after ::
          after[id] == session || (id in before && after[id] == before[id] && now < after[id].expires))
    && (forall gone | gone in retired :: Lists(before, gone) && !Lists(after, gone))
    && (forall id | id in before :: Lists(after, before[id]) || before[id] in retired)
    && (forall gone, id | gone in retired && now < gone.expires && id in after && after[id] != session ::
          gone.created <= after[id].created)
  }

  lemma EvictionAdmits(before: map<string, Session>, kept: map<string, Session>, session: Session, now: int,
                       evicted: Session?)
    requires Keyed(before) && !Lists(before, session)
    requires var live := Unexpired(before, now);
             && session.id !in live
             && if evicted == null then kept == live
                else Lists(live, evicted) && kept == live - {evicted.id}
                     && forall id | id in live :: evicted.created <= live[id].created
    ensures Admits(before, kept[session.id := session], session, now,
                   Expired(before, now) + if evicted == null then {} else {evicted})
  {
  }

  /** The clients that sessions had when they were last looked at. */
  function ClientsOf(table: map<string, Session>, client: map<Session, nat>): set<nat> {
    set id | id in table && table[id] in client :: client[table[id]]
  }

  predicate OneClientEach(table: map<string, Session>, client: map<Session, nat>) {
    && (forall id | id in table :: table[id] in client)
    && (forall s, t | s in client && t in client && s != t :: client[s] != client[t])
  }

  /** Closing the clients of the retired sessions leaves the clients of the new table. */
  lemma ClientsBalance(before: map<string, Session>, after: map<string, Session>, session: Session, now: int,
                       retired: set<Session>, client: map<Session, nat>)
    requires Keyed(before) && OneClientEach(before, client) && session in client
    requires Admits(before, after, session, now, retired)
    ensures ClientsOf(after, client)
            == ClientsOf(before, client) + {client[session]}
               - set gone | gone in retired && gone in client :: client[gone]
  {
    forall id | id in before && before[id] !in retired
      ensures client[before[id]] in ClientsOf(after, client)
    {
      assert after[before[id].id] == before[id];
    }
    forall id | id in after ensures after[id] in client && after[id] !in retired {
    }
  }

  lemma ExpiryBalance(before: map<string, Session>, now: int, client: map<Session, nat>)
    requires Keyed(before) && OneClientEach(before, client)
    ensures ClientsOf(Unexpired(before, now), client)
            == ClientsOf(before, client) - set gone | gone in Expired(before, now) && gone in client :: client[gone]
  {
    var after := Unexpired(before, now);
    forall id | id in before && before[id] !in Expired(before, now)
      ensures client[before[id]] in ClientsOf(after, client)
    {
      assert after[id] == before[id];
    }
    forall id | id in after ensures after[id] !in Expired(before, now) {
      assert before[id].id == id;
    }
  }

  class Broker {
    const tenants: map<string, Tenant>
    const pendingTTL: int
    const sessionTTL: int
    const refreshSkew: int
    const maxPending: nat
    const maxSessions: nat
    const clients: Clients
    var pending: map<string, Attempt>
    var sessions: map<string, Session>

    constructor (tenants: map<string, Tenant>, config: Config, clients: Clients)
      requires config.maxPending >= 1 && config.maxSessions >= 1
      ensures this.tenants == tenants && this.clients == clients
      ensures pendingTTL == config.pendingTTL && sessionTTL == config.sessionTTL
      ensures refreshSkew == config.refreshSkew
      ensures maxPending == config.maxPending && maxSessions == config.maxSessions
      ensures pending == map[] && sessions == map[]
    {
      this.tenants, this.clients := tenants, clients;
      pendingTTL, sessionTTL := config.pendingTTL, config.sessionTTL;
      refreshSkew, maxPending, maxSessions := config.refreshSkew, config.maxPending, config.maxSessions;
      pending, sessions := map[], map[];
    }

    // -------------------------------------------------------------- login attempts

    /** Deletes the expired attempts, in map order. */
    method CleanupPending(now: int)
      modifies this`pending
      ensures pending == Live(old(pending), now)
    {
      ghost var before := pending;
      var rest := pending.Keys;
      while rest != {}
        invariant rest <= before.Keys
        invariant pending.Keys == rest + (before.Keys - rest) * Live(before, now).Keys
        invariant forall id | id in pending :: pending[id] == before[id]
        decreases rest
      {
        var id :| id in rest;
        if pending[id].expires <= now {
          pending := pending - {id};
        }
        rest := rest - {id};
      }
      assert pending.Keys == Live(before, now).Keys;
      assert pending == Live(before, now);
    }

    /** One scan for the oldest attempt. */
    method OldestPending() returns (oldestID: string)
      requires pending != map[] && "" !in pending
      ensures oldestID in pending
      ensures forall id | id in pending :: pending[oldestID].created <= pending[id].created
    {
      oldestID := "";
      var oldest := 0;
      var rest := pending.Keys;
      while rest != {}
        invariant rest <= pending.Keys
        invariant oldestID == "" ==> rest == pending.Keys
        invariant oldestID != "" ==> oldestID in pending && oldest == pending[oldestID].created
        invariant oldestID != "" ==> forall id | id in pending.Keys - rest :: oldest <= pending[id].created
        decreases rest
      {
        var id :| id in rest;
        if oldestID == "" || pending[id].created < oldest {
          oldestID, oldest := id, pending[id].created;
        }
        rest := rest - {id};
      }
    }

    /** Removes the oldest attempts until one more fits. */
    method EvictOldestPending()
      requires maxPending >= 1 && "" !in pending
      modifies this`pending
      ensures EvictedTo(old(pending), pending, maxPending)
    {
      ghost var before := pending;
      while |pending| >= maxPending
        invariant KeepsNewest(before, pending)
        invariant |pending| == |before| || maxPending - 1 <= |pending| < |before|
        decreases |pending|
      {
        var victim := OldestPending();
        ghost var kept := pending;
        pending := pending - {victim};
        assert pending.Keys == kept.Keys - {victim};
      }
    }

    /** The bounds hold, every session in the table is active under its own identifier, and the
        open clients are exactly the clients of these sessions, one for each. */
    ghost predicate Valid()
      reads this, clients, sessions.Values
    {
      PendingValid() && SessionsValid() && clients.Valid() && clients.open == SessionClients()
    }

    ghost predicate PendingValid()
      reads this`pending
    {
      && maxPending >= 1 && |pending| <= maxPending && "" !in pending
      && forall id | id in pending :: pending[id].id == id && pending[id].tenantID in tenants
    }

    ghost predicate SessionsValid()
      reads this`sessions, sessions.Values
    {
      && maxSessions >= 1 && |sessions| <= maxSessions && "" !in sessions
      && (forall id | id in sessions ::
            sessions[id].id == id && sessions[id].active && sessions[id].tenantID in tenants)
      && (forall id, other | id in sessions && other in sessions && id != other ::
            sessions[id].client != sessions[other].client)
    }

    ghost function SessionClients(): set<nat>
      reads this`sessions, sessions.Values
    {
      set id | id in sessions :: sessions[id].client
    }

    /** Every other attempt is one from before that has not expired. */
    static predicate OthersLive(before: map<string, Attempt>, after: map<string, Attempt>, id: string, now: int) {
      forall other | other in after && other != id ::
        other in before && after[other] == before[other] && now < after[other].expires
    }

    /** The section of `Begin` under the broker lock: expired attempts go, a collision is refused
        and otherwise the oldest attempts make room. */
    method AddPending(attempt: Attempt, now: int) returns (added: bool)
      requires PendingValid() && attempt.id != "" && attempt.tenantID in tenants
      modifies this`pending
      ensures PendingValid()
      ensures added <==> (attempt.id in old(pending) ==> old(pending)[attempt.id].expires <= now)
      ensures added ==> OthersLive(old(pending), pending, attempt.id, now)
      ensures if added
              then attempt.id in pending && pending[attempt.id] == attempt
                   && EvictedTo(Live(old(pending), now), pending - {attempt.id}, maxPending)
              else pending == Live(old(pending), now)
    {
      CleanupPending(now);
      SubmapSize(pending, old(pending));
      if attempt.id in pending {
        return false;
      }
      EvictOldestPending();
      ghost var kept := pending;
      pending := pending[attempt.id := attempt];
      assert pending - {attempt.id} == kept;
      return true;
    }

    /** `Begin`: a login attempt with fresh random values joins the bounded table, and the request
        that is sent with the browser carries the image of the verifier and not the verifier. */
    method Begin(tenantID: string, id: Option<string>, state: Option<string>, nonce: Option<string>,
                 verifier: Option<string>, s256: string -> string, safeURL: Authorization -> bool, now: int)
      returns (result: Result<Attempt>, sent: Option<Authorization>)
      requires Valid()
      requires id != Some("")
      modifies this`pending
      ensures Valid()
      ensures result.Ok? <==>
                && tenantID in tenants && id.Some? && state.Some? && nonce.Some? && verifier.Some?
                && safeURL(Authorization(state.value, nonce.value, s256(verifier.value)))
                && (id.value in old(pending) ==> old(pending)[id.value].expires <= now)
      ensures result.Ok? ==> OthersLive(old(pending), pending, id.value, now)
      ensures result.Ok? ==>
                && result.value == Attempt(id.value, state.value, tenantID, nonce.value, verifier.value,
                                           now, now + pendingTTL)
                && id.value in pending && pending[id.value] == result.value
                && EvictedTo(Live(old(pending), now), pending - {id.value}, maxPending)
      ensures sent == if result.Ok?
                      then Some(Authorization(result.value.state, result.value.nonce, s256(result.value.verifier)))
                      else None
      ensures result.Err? ==>
                pending == old(pending) || (result.error == Collision && pending == Live(old(pending), now))
      ensures tenantID !in tenants ==> result == Err(UnknownTenant)
    {
      if tenantID !in tenants {
        return Err(UnknownTenant), None;
      }
      if id == None || state == None || nonce == None || verifier == None {
        return Err(RandomFailed), None;
      }
      var request := Authorization(state.value, nonce.value, s256(verifier.value));
      if !safeURL(request) {
        return Err(UnsafeURL), None;
      }
      var attempt := Attempt(id.value, state.value, tenantID, nonce.value, verifier.value, now, now + pendingTTL);
      var added := AddPending(attempt, now);
      if !added {
        return Err(Collision), None;
      }
      return Ok(attempt), Some(request);
    }

    // -------------------------------------------------------------- sessions

    /** Takes the expired sessions out of the table and lists them. */
    method CleanupSessions(now: int) returns (removed: set<Session>)
      modifies this`sessions
      ensures sessions == Unexpired(old(sessions), now)
      ensures removed == Expired(old(sessions), now)
    {
      ghost var before := sessions;
      removed := {};
      var rest := sessions.Keys;
      while rest != {}
        invariant rest <= before.Keys
        invariant sessions.Keys == rest + (before.Keys - rest) * Unexpired(before, now).Keys
        invariant forall id | id in sessions :: sessions[id] == before[id]
        invariant removed == set id | id in before.Keys - rest && before[id].expires <= now :: before[id]
        decreases rest
      {
        var id :| id in rest;
        if sessions[id].expires <= now {
          removed := removed + {sessions[id]};
          sessions := sessions - {id};
        }
        rest := rest - {id};
      }
      assert sessions == Unexpired(before, now);
    }

    /** Takes the oldest session out of a full table. */
    method EvictOldestSession() returns (evicted: Session?)
      requires "" !in sessions && maxSessions >= 1 && Keyed(sessions)
      modifies this`sessions
      ensures evicted == null <==> |old(sessions)| < maxSessions
      ensures |old(sessions)| <= maxSessions ==> |sessions| < maxSessions
      ensures evicted == null ==> sessions == old(sessions)
      ensures evicted != null ==>
                && evicted.id in old(sessions) && evicted == old(sessions)[evicted.id]
                && sessions == old(sessions) - {evicted.id}
                && forall other | other in old(sessions) :: evicted.created <= old(sessions)[other].created
    {
      if |sessions| < maxSessions {
        return null;
      }
      var oldestID := "";
      var oldest := 0;
      evicted := null;
      var rest := sessions.Keys;
      while rest != {}
        invariant rest <= sessions.Keys
        invariant oldestID == "" ==> rest == sessions.Keys
        invariant oldestID != "" ==> oldestID in sessions && evicted == sessions[oldestID] && oldest == evicted.created
        invariant oldestID != "" ==> forall id | id in sessions.Keys - rest :: oldest <= sessions[id].created
        decreases rest
      {
        var id :| id in rest;
        if oldestID == "" || sessions[id].created < oldest {
          oldestID, oldest, evicted := id, sessions[id].created, sessions[id];
        }
        rest := rest - {id};
      }
      assert (sessions - {oldestID}).Keys == sessions.Keys - {oldestID};
      sessions := sessions - {oldestID};
    }

    /** The last section of `Complete` under the broker lock: expired sessions leave, an identifier
        collision keeps the new session out, and otherwise the oldest session makes room. */
    method AddSession(session: Session, now: int) returns (added: bool, retired: set<Session>)
      requires maxSessions >= 1 && |sessions| <= maxSessions && "" !in sessions && Keyed(sessions)
      requires session.id != "" && !Lists(sessions, session)
      modifies this`sessions
      ensures |sessions| <= maxSessions && "" !in sessions
      ensures added <==> session.id !in Unexpired(old(sessions), now)
      ensures !added ==> sessions == Unexpired(old(sessions), now) && retired == Expired(old(sessions), now)
      ensures added ==> Admits(old(sessions), sessions, session, now, retired)
      ensures added ==> |sessions| == if |Unexpired(old(sessions), now)| < maxSessions
                                      then |Unexpired(old(sessions), now)| + 1 else maxSessions
    {
      ghost var before := sessions;
      retired := CleanupSessions(now);
      SubmapSize(sessions, before);
      if session.id in sessions {
        return false, retired;
      }
      var evicted := EvictOldestSession();
      EvictionAdmits(before, sessions, session, now, evicted);
      retired := retired + if evicted == null then {} else {evicted};
      InsertSize(sessions, session.id, session);
      sessions := sessions[session.id := session];
      added := true;
    }

    /** Deactivates the listed sessions. */
    method DeactivateAll(list: set<Session>)
      requires clients.Valid()
      modifies list, clients
      ensures clients.Valid() && clients.made == old(clients.made)
      ensures forall session | session in list :: !session.active && session.client == old(session.client)
      ensures clients.open == old(clients.open) - set session | session in list && old(session.active) :: session.client
    {
      var rest := list;
      while rest != {}
        invariant rest <= list && clients.Valid() && clients.made == old(clients.made)
        invariant forall session | session in list :: session.client == old(session.client)
        invariant forall session | session in rest :: session.active == old(session.active)
        invariant forall session | session in list - rest :: !session.active
        invariant clients.open
                  == old(clients.open) - set session | session in list - rest && old(session.active) :: session.client
        decreases rest
      {
        var session :| session in rest;
        session.Deactivate(clients);
        rest := rest - {session};
      }
    }

    /** Deactivates the sessions on the list, which have left the table; `extra` clients stay. */
    method RetireAll(list: set<Session>, ghost extra: set<nat>)
      requires SessionsValid() && clients.Valid()
      requires forall session | session in list :: session.active && !Lists(sessions, session)
      requires SessionClients() + extra == clients.open - set session | session in list :: session.client
      modifies list, clients
      ensures SessionsValid() && clients.Valid() && clients.open == SessionClients() + extra
      ensures SessionClients() == old(SessionClients())
      ensures forall session | session in list :: !session.active
    {
      ghost var kept := SessionClients();
      assert forall id | id in sessions :: sessions[id] !in list;
      DeactivateAll(list);
      assert SessionClients() == kept;
    }

    /** What holds when the table has changed and nobody has been deactivated yet. */
    ghost predicate Unsettled(before: map<string, Session>, session: Session)
      reads this`sessions, clients, before.Values, session
    {
      && Keyed(before) && session.active && session.tenantID in tenants
      && (forall id | id in before :: before[id].active && before[id].tenantID in tenants && before[id] != session)
      && (forall id | id in before :: before[id].client != session.client)
      && (forall id, other | id in before && other in before && id != other ::
            before[id].client != before[other].client)
      && clients.open == (set id | id in before :: before[id].client) + {session.client}
      && maxSessions >= 1 && |sessions| <= maxSessions && "" !in sessions
    }

    lemma AdmissionBalances(before: map<string, Session>, session: Session, now: int, retired: set<Session>)
      requires Unsettled(before, session) && Admits(before, sessions, session, now, retired)
      ensures SessionsValid()
      ensures forall gone | gone in retired :: gone.active && !Lists(sessions, gone)
      ensures SessionClients() == clients.open - set gone | gone in retired :: gone.client
    {
      var client := map s | s in before.Values + {session} :: s.client;
      assert (set id | id in before :: before[id].client) == ClientsOf(before, client);
      ClientsBalance(before, sessions, session, now, retired, client);
      assert SessionClients() == ClientsOf(sessions, client);
      assert (set gone | gone in retired :: gone.client)
             == set gone | gone in retired && gone in client :: client[gone];
    }

    lemma CollisionBalances(before: map<string, Session>, session: Session, now: int)
      requires Unsettled(before, session) && sessions == Unexpired(before, now)
      ensures SessionsValid()
      ensures forall gone | gone in Expired(before, now) :: gone.active && gone != session && !Lists(sessions, gone)
      ensures SessionClients() + {session.client}
              == clients.open - set gone | gone in Expired(before, now) :: gone.client
    {
      var client := map s | s in before.Values :: s.client;
      var expired := Expired(before, now);
      assert (set id | id in before :: before[id].client) == ClientsOf(before, client);
      ExpiryBalance(before, now, client);
      assert SessionClients() == ClientsOf(sessions, client);
      assert (set gone | gone in expired :: gone.client)
             == set gone | gone in expired && gone in client :: client[gone];
    }

    method RetireReplaced(ghost before: map<string, Session>, session: Session, now: int, retired: set<Session>)
      requires PendingValid() && clients.Valid()
      requires Unsettled(before, session) && Admits(before, sessions, session, now, retired)
      modifies retired, clients
      ensures Valid()
      ensures forall gone | gone in retired :: !gone.active
    {
      AdmissionBalances(before, session, now, retired);
      RetireAll(retired, {});
    }

    method RetireCollided(ghost before: map<string, Session>, session: Session, now: int, expired: set<Session>)
      requires PendingValid() && clients.Valid()
      requires Unsettled(before, session) && sessions == Unexpired(before, now) && expired == Expired(before, now)
      modifies expired, session, clients
      ensures Valid()
      ensures forall gone | gone in expired :: !gone.active
    {
      CollisionBalances(before, session, now);
      assert forall id | id in sessions :: before[id] != session;
      RetireAll(expired, {session.client});
      ghost var kept := SessionClients();
      session.Deactivate(clients);
      assert SessionClients() == kept;
    }

    /** Puts a new session into the table and deactivates everyone who has to leave. */
    method Settle(session: Session, now: int) returns (added: bool, retired: set<Session>)
      requires PendingValid() && SessionsValid() && clients.Valid()
      requires session.active && session.id != "" && session.tenantID in tenants
      requires forall id | id in sessions :: sessions[id] != session
      requires session.client !in SessionClients() && clients.open == SessionClients() + {session.client}
      modifies this`sessions, clients, session, sessions.Values
      ensures Valid()
      ensures added <==> session.id !in Unexpired(old(sessions), now)
      ensures if added then Admits(old(sessions), sessions, session, now, retired) && unchanged(session)
              else sessions == Unexpired(old(sessions), now) && retired == Expired(old(sessions), now)
      ensures forall gone | gone in retired :: !gone.active
      ensures forall id | id in sessions && sessions[id] != session :: unchanged(sessions[id])
    {
      ghost var before := sessions;
      added, retired := AddSession(session, now);
      if added {
        RetireReplaced(before, session, now, retired);
      } else {
        RetireCollided(before, session, now, retired);
      }
    }

    method NewSession(attempt: Attempt, identity: Identity, now: int, id: string, csrf: string, client: nat)
      returns (session: Session)
      ensures fresh(session) && Starts(session, attempt, identity, now, id, csrf) && session.client == client
    {
      var roles := NormalizedRoles(identity.roles);
      session := new Session(id, csrf, attempt, identity, roles, now, sessionTTL, client);
    }

    /** `Complete` from the exchanged identity on: makes the client and the session and settles who
        has to leave. */
    method OpenSession(attempt: Attempt, identity: Identity, now: int, connects: bool, id: Option<string>,
                       csrf: Option<string>) returns (result: Result<Session>, ghost retired: set<Session>)
      requires Valid() && attempt.tenantID in tenants && id != Some("")
      modifies this`sessions, clients, sessions.Values
      ensures Valid()
      ensures result.Ok? <==> connects && id.Some? && csrf.Some? && id.value !in Unexpired(old(sessions), now)
      ensures result.Err? ==> sessions == old(sessions) || sessions == Unexpired(old(sessions), now)
      ensures result.Ok? ==>
                && fresh(result.value) && Starts(result.value, attempt, identity, now, id.value, csrf.value)
                && Admits(old(sessions), sessions, result.value, now, retired)
      ensures forall gone | gone in retired :: !gone.active
      ensures forall other | other in sessions && other in old(sessions) && sessions[other] == old(sessions)[other] ::
                unchanged(sessions[other])
    {
      retired := {};
      if !connects {
        return Err(ClientFailed), {};
      }
      ghost var held := SessionClients();
      var client := clients.Make();
      assert SessionsValid() && SessionClients() == held && client !in held;
      if id == None || csrf == None {
        clients.Close(client);
        return Err(RandomFailed), {};
      }
      result, retired := AdmitNew(attempt, identity, now, client, id.value, csrf.value);
    }

    /** The session of a new client goes into the table and those who have to leave are deactivated. */
    method AdmitNew(attempt: Attempt, identity: Identity, now: int, client: nat, id: string, csrf: string)
      returns (result: Result<Session>, ghost retired: set<Session>)
      requires PendingValid() && SessionsValid() && clients.Valid() && attempt.tenantID in tenants && id != ""
      requires client !in SessionClients() && clients.open == SessionClients() + {client}
      modifies this`sessions, clients, sessions.Values
      ensures Valid()
      ensures result.Ok? <==> id !in Unexpired(old(sessions), now)
      ensures if result.Ok?
              then fresh(result.value) && Starts(result.value, attempt, identity, now, id, csrf)
                   && Admits(old(sessions), sessions, result.value, now, retired)
              else sessions == Unexpired(old(sessions), now)
      ensures forall gone | gone in retired :: !gone.active
      ensures forall other | other in sessions && other in old(sessions) && sessions[other] == old(sessions)[other] ::
                unchanged(sessions[other])
    {
      ghost var held := SessionClients();
      var session := NewSession(attempt, identity, now, id, csrf, client);
      assert SessionsValid() && SessionClients() == held;
      var added, left := Settle(session, now);
      return if added then Ok(session) else Err(Collision), left;
    }

    /** The new session belongs to the attempt's tenant and the exchanged identity. */
    predicate Starts(session: Session, attempt: Attempt, identity: Identity, now: int, id: string, csrf: string)
      reads session
    {
      && session.id == id && session.csrf == csrf && session.tenantID == attempt.tenantID
      && session.subject == identity.subject && session.displayName == identity.displayName
      && session.roles == NormalRoles(identity.roles) && session.token == identity.token
      && session.created == now && session.expires == now + sessionTTL && session.active
      && session.drafts == map[]
    }

    method DropPending(id: string)
      requires Valid()
      modifies this`pending
      ensures Valid() && pending == old(pending) - {id}
    {
      SubmapSize(pending - {id}, pending);
      pending := pending - {id};
      assert SessionsValid() && SessionClients() == old(SessionClients());
    }

    /** The first section of `Complete`: the attempt leaves the table before anything is checked. */
    method ClaimPending(id: string, state: string, code: string, now: int) returns (claimed: Option<Attempt>)
      requires Valid()
      modifies this`pending
      ensures Valid() && pending == old(pending) - {id}
      ensures claimed.Some? ==> claimed.value.tenantID in tenants
      ensures claimed == if id in old(pending) && now < old(pending)[id].expires && old(pending)[id].state == state
                            && code != ""
                         then Some(old(pending)[id]) else None
    {
      claimed := if id in pending then Some(pending[id]) else None;
      DropPending(id);
      if claimed == None || claimed.value.expires <= now || claimed.value.state != state || code == "" {
        return None;
      }
    }

    /** `Complete` from the claimed attempt on. `exchange` answers the request with the attempt's own
        verifier. */
    method CompleteClaimed(attempt: Attempt, code: string, now: int, exchange: ExchangeRequest -> Option<Identity>,
                           connects: bool, id: Option<string>, csrf: Option<string>)
      returns (result: Result<Session>, asked: Option<ExchangeRequest>, ghost retired: set<Session>)
      requires Valid() && attempt.tenantID in tenants && id != Some("")
      modifies this`sessions, clients, sessions.Values
      ensures Valid() && asked == Some(ExchangeRequest(code, attempt.verifier, attempt.nonce))
      ensures result.Ok? <==>
                && Exchanged(attempt, code, exchange).Some?
                && connects && id.Some? && csrf.Some? && id.value !in Unexpired(old(sessions), now)
      ensures result.Err? ==> sessions == old(sessions) || sessions == Unexpired(old(sessions), now)
      ensures result.Ok? ==>
                && fresh(result.value)
                && Starts(result.value, attempt, Exchanged(attempt, code, exchange).value, now, id.value, csrf.value)
                && Admits(old(sessions), sessions, result.value, now, retired)
      ensures forall gone | gone in retired :: !gone.active
      ensures forall other | other in sessions && other in old(sessions) && sessions[other] == old(sessions)[other] ::
                unchanged(sessions[other])
    {
      retired := {};
      var request := ExchangeRequest(code, attempt.verifier, attempt.nonce);
      asked := Some(request);
      var identity := exchange(request);
      if identity == None {
        return Err(ExchangeFailed), asked, {};
      }
      if !Admissible(identity.value, attempt) {
        return Err(InvalidIdentity), asked, {};
      }
      result, retired := OpenSession(attempt, identity.value, now, connects, id, csrf);
    }

    /** `Complete`: the attempt is consumed whatever happens. Only an attempt that is there, has not
        expired and is presented with its own state and a code leads to a request to the identity
        provider, with the attempt's own verifier and nonce, and only an identity with the attempt's
        nonce, a subject, a token and members within their bounds starts a session. */
    method Complete(pendingID: string, state: string, code: string, now: int,
                    exchange: ExchangeRequest -> Option<Identity>, connects: bool, id: Option<string>,
                    csrf: Option<string>)
      returns (result: Result<Session>, asked: Option<ExchangeRequest>, ghost retired: set<Session>)
      requires Valid() && id != Some("")
      modifies this`pending, this`sessions, clients, sessions.Values
      ensures Valid() && pending == old(pending) - {pendingID}
      ensures if pendingID in old(pending) && old(pending)[pendingID].state == state
                 && now < old(pending)[pendingID].expires && code != ""
              then asked == Some(ExchangeRequest(code, old(pending)[pendingID].verifier, old(pending)[pendingID].nonce))
              else asked == None && result == Err(InvalidState) && sessions == old(sessions)
                   && clients.made == old(clients.made) && clients.open == old(clients.open)
      ensures asked.Some? ==>
                var answer := exchange(asked.value);
                result.Ok? <==>
                  && answer.Some? && answer.value.nonce == asked.value.nonce
                  && answer.value.subject != "" && answer.value.token.accessToken != ""
                  && |answer.value.subject| <= 1024 && |answer.value.displayName| <= 1024
                  && |answer.value.roles| <= 256
                  && (forall i | 0 <= i < |answer.value.roles| :: |answer.value.roles[i]| <= 128)
                  && |answer.value.token.accessToken| <= 16384 && |answer.value.token.refreshToken| <= 16384
                  && connects && id.Some? && csrf.Some?
                  && (id.value in old(sessions) ==> old(sessions)[id.value].expires <= now)
      ensures result.Err? ==> sessions == old(sessions) || sessions == Unexpired(old(sessions), now)
      ensures result.Ok? ==>
                && fresh(result.value)
                && pendingID in old(pending) && asked.Some? && exchange(asked.value).Some?
                && id.value in sessions && sessions[id.value] == result.value
                && result.value.csrf == csrf.value && result.value.tenantID == old(pending)[pendingID].tenantID
                && result.value.subject == exchange(asked.value).value.subject
                && result.value.token == exchange(asked.value).value.token
                && result.value.active && result.value.expires == now + sessionTTL && result.value.drafts == map[]
                && Starts(result.value, old(pending)[pendingID], exchange(asked.value).value, now, id.value, csrf.value)
                && Admits(old(sessions), sessions, result.value, now, retired)
      ensures forall gone | gone in retired :: !gone.active
      ensures forall other | other in sessions && other in old(sessions) && sessions[other] == old(sessions)[other] ::
                unchanged(sessions[other])
    {
      retired := {};
      var claimed := ClaimPending(pendingID, state, code, now);
      if claimed == None {
        return Err(InvalidState), None, {};
      }
      result, asked, retired := CompleteClaimed(claimed.value, code, now, exchange, connects, id, csrf);
    }

    /** The identity that the exchange for the attempt gives, if it may start a session. */
    function Exchanged(attempt: Attempt, code: string, exchange: ExchangeRequest -> Option<Identity>)
      : Option<Identity>
    {
      var identity := exchange(ExchangeRequest(code, attempt.verifier, attempt.nonce));
      if identity.Some? && Admissible(identity.value, attempt) then identity else None
    }

    /** `invalidate`: takes the session out of the table if it is there and deactivates it. */
    method Invalidate(session: Session)
      requires Valid() && Lists(sessions, session)
      modifies this`sessions, session, clients
      ensures Valid() && !session.active
      ensures sessions == old(sessions) - {session.id}
    {
      ghost var held := SessionClients();
      TakeOut(session);
      session.Deactivate(clients);
      assert SessionsValid() && SessionClients() == held - {session.client};
    }

    method TakeOut(session: Session)
      requires SessionsValid() && Lists(sessions, session)
      modifies this`sessions
      ensures SessionsValid() && sessions == old(sessions) - {session.id} && session !in sessions.Values
      ensures SessionClients() == old(SessionClients()) - {session.client}
    {
      RemovalBalances(session);
      SubmapSize(sessions - {session.id}, sessions);
      sessions := sessions - {session.id};
    }

    /** Taking one session out keeps the table valid and misses just its client. */
    lemma RemovalBalances(session: Session)
      requires SessionsValid() && Lists(sessions, session)
      ensures var rest := sessions - {session.id};
              && (forall id | id in rest :: rest[id] == sessions[id] && rest[id] != session)
              && (set id | id in rest :: rest[id].client) == SessionClients() - {session.client}
    {
      var rest := sessions - {session.id};
      forall client | client in SessionClients() && client != session.client
        ensures client in set id | id in rest :: rest[id].client
      {
        var id :| id in sessions && sessions[id].client == client;
        assert rest[id].client == client;
      }
    }

    /** The session may be used now, after a refresh if its token is close to its expiry. */
    predicate Refreshing(session: Session, now: int)
      reads session
    {
      session.token.expiry.Some? && session.token.expiry.value <= now + refreshSkew
    }

    predicate Usable(id: string, now: int, refreshed: Option<Token>, connects: bool)
      reads this`sessions, sessions.Values
    {
      && id in sessions && now < sessions[id].expires
      && (Refreshing(sessions[id], now) ==>
            && sessions[id].token.refreshToken != "" && refreshed.Some? && refreshed.value.accessToken != ""
            && connects)
    }

    /** A refreshed token; without a refresh token of its own it keeps the old one. */
    function Replaced(token: Token, refreshed: Token): Token {
      refreshed.(refreshToken := if refreshed.refreshToken != "" then refreshed.refreshToken else token.refreshToken)
    }

    /** Swaps the client and the token of a session; the old client is closed. */
    method Renew(session: Session, token: Token)
      requires Valid() && Lists(sessions, session)
      modifies session, clients
      ensures Valid()
      ensures session.token == Replaced(old(session.token), token)
      ensures session.client == old(clients.made) && session.active && session.drafts == old(session.drafts)
    {
      ghost var held := SessionClients();
      var client := clients.Make();
      assert SessionsValid() && SessionClients() == held && client !in held;
      var previous := session.client;
      Rebind(session, client, Token(token.accessToken,
                                    if token.refreshToken != "" then token.refreshToken else session.token.refreshToken,
                                    token.expiry));
      clients.Close(previous);
      assert SessionsValid() && SessionClients() == held - {previous} + {client};
    }

    /** Gives a session of the table a client that no session has. */
    method Rebind(session: Session, client: nat, token: Token)
      requires SessionsValid() && Lists(sessions, session) && client !in SessionClients()
      modifies session`client, session`token
      ensures SessionsValid() && session.client == client && session.token == token
      ensures SessionClients() == old(SessionClients()) - {old(session.client)} + {client}
    {
      ghost var kept := SessionClients() - {session.client};
      session.client := client;
      session.token := token;
      assert SessionClients() == kept + {client};
    }

    /** Refreshes a session whose token is close to its expiry. */
    method Refresh(session: Session, now: int, refreshed: Option<Token>, connects: bool) returns (usable: bool)
      requires Valid() && Lists(sessions, session)
      modifies session, clients
      ensures Valid()
      ensures usable <==>
                (old(Refreshing(session, now)) ==>
                   && old(session.token.refreshToken) != "" && refreshed.Some? && refreshed.value.accessToken != ""
                   && connects)
      ensures usable && old(Refreshing(session, now)) ==>
                session.client == old(clients.made) && session.drafts == old(session.drafts)
                && session.token == Replaced(old(session.token), refreshed.value)
      ensures !(usable && old(Refreshing(session, now))) ==> unchanged(session) && unchanged(clients)
    {
      if !Refreshing(session, now) {
        return true;
      }
      if session.token.refreshToken == "" || refreshed == None || refreshed.value.accessToken == "" || !connects {
        return false;
      }
      Renew(session, refreshed.value);
      return true;
    }

    /** Asks for the expiry and then for a refresh of the session with this identifier. */
    method Inspect(id: string, session: Session, now: int, refreshed: Option<Token>, connects: bool)
      returns (usable: bool)
      requires Valid() && id in sessions && sessions[id] == session
      modifies session, clients
      ensures Valid()
      ensures usable <==> old(Usable(id, now, refreshed, connects))
      ensures usable ==>
                && session.drafts == old(session.drafts)
                && if old(Refreshing(session, now))
                   then session.client == old(clients.made)
                        && session.token == Replaced(old(session.token), refreshed.value)
                   else unchanged(session) && unchanged(clients)
    {
      if session.expires <= now {
        return false;
      }
      usable := Refresh(session, now, refreshed, connects);
    }

    /** `Session`: a usable session is refreshed when its token needs it; any other session with
        this identifier is invalidated. */
    method View(id: string, now: int, refreshed: Option<Token>, connects: bool) returns (found: Session?)
      requires Valid()
      modifies this`sessions, clients, sessions.Values
      ensures Valid()
      ensures found != null <==>
                && id in old(sessions) && now < old(sessions)[id].expires
                && (old(sessions[id].token.expiry) == None
                    || now + refreshSkew < old(sessions[id].token.expiry).value
                    || (old(sessions[id].token.refreshToken) != "" && connects
                        && refreshed.Some? && refreshed.value.accessToken != ""))
      ensures found != null ==>
                && sessions == old(sessions) && found == sessions[id]
                && found.drafts == old(sessions[id].drafts)
                && if old(sessions[id].token.expiry) == None
                      || now + refreshSkew < old(sessions[id].token.expiry).value
                   then unchanged(found) && unchanged(clients)
                   else found.client == old(clients.made)
                        && found.token.accessToken == refreshed.value.accessToken
                        && found.token.expiry == refreshed.value.expiry
                        && found.token.refreshToken == if refreshed.value.refreshToken == ""
                                                       then old(sessions[id].token.refreshToken)
                                                       else refreshed.value.refreshToken
      ensures found == null ==> sessions == old(sessions) - {id}
      ensures forall other | other in sessions && other != id :: unchanged(sessions[other])
      ensures found == null && id in old(sessions) ==> !old(sessions)[id].active
    {
      if id !in sessions {
        return null;
      }
      var session := sessions[id];
      var usable := Inspect(id, session, now, refreshed, connects);
      if !usable {
        Invalidate(session);
        return null;
      }
      return session;
    }

    /** `WithClient`, up to the operation: hands out the session's open client after `Session` has
        had its say. */
    method Borrow(id: string, now: int, refreshed: Option<Token>, connects: bool) returns (client: Option<nat>)
      requires Valid()
      modifies this`sessions, clients, sessions.Values
      ensures Valid()
      ensures client.Some? <==>
                && id in old(sessions) && now < old(sessions)[id].expires
                && (old(sessions[id].token.expiry) == None
                    || now + refreshSkew < old(sessions[id].token.expiry).value
                    || (old(sessions[id].token.refreshToken) != "" && connects
                        && refreshed.Some? && refreshed.value.accessToken != ""))
      ensures client.Some? ==>
                client.value in clients.open && id in sessions && sessions[id].client == client.value
      ensures client.Some? ==>
                if old(sessions[id].token.expiry) == None
                   || now + refreshSkew < old(sessions[id].token.expiry).value
                then client.value == old(sessions[id].client) && clients.made == old(clients.made)
                else client.value == old(clients.made)
                     && sessions[id].token.accessToken == refreshed.value.accessToken
      ensures sessions == if client.Some? then old(sessions) else old(sessions) - {id}
    {
      var found := View(id, now, refreshed, connects);
      if found == null || id !in sessions {
        return None;
      }
      var session := sessions[id];
      if !session.active {
        return None;
      }
      return Some(session.client);
    }

    method ValidateCSRF(id: string, csrf: string) returns (error: Option<Error>)
      requires Valid()
      ensures error == if id !in sessions then Some(UnknownSession)
                       else if sessions[id].csrf != csrf then Some(InvalidCSRF) else None
    {
      if id !in sessions || !sessions[id].active {
        return Some(UnknownSession);
      }
      return if sessions[id].csrf == csrf then None else Some(InvalidCSRF);
    }

    /** `Logout`: with the session's own CSRF token the session is over. */
    method Logout(id: string, csrf: string) returns (error: Option<Error>)
      requires Valid()
      modifies this`sessions, clients, sessions.Values
      ensures Valid()
      ensures error == if id !in old(sessions) then Some(UnknownSession)
                       else if old(sessions)[id].csrf != csrf then Some(InvalidCSRF) else None
      ensures if error == None then sessions == old(sessions) - {id} && !old(sessions)[id].active
              else sessions == old(sessions)
      ensures forall other | other in sessions :: unchanged(sessions[other])
    {
      if id !in sessions {
        return Some(UnknownSession);
      }
      var session := sessions[id];
      if !session.active || session.csrf != csrf {
        return Some(InvalidCSRF);
      }
      Invalidate(session);
      return None;
    }

    /** `Switch`: with the session's own CSRF token the session is over before the new login
        begins, even when the target tenant does not exist. */
    method Switch(sessionID: string, csrf: string, tenantID: string, id: Option<string>, state: Option<string>,
                  nonce: Option<string>, verifier: Option<string>, s256: string -> string,
                  safeURL: Authorization -> bool, now: int)
      returns (result: Result<Attempt>, sent: Option<Authorization>)
      requires Valid() && id != Some("")
      modifies this, clients, sessions.Values
      ensures Valid()
      ensures if sessionID in old(sessions) && old(sessions)[sessionID].csrf == csrf
              then sessions == old(sessions) - {sessionID} && !old(sessions)[sessionID].active
                   && (tenantID !in tenants ==> result == Err(UnknownTenant))
              else sessions == old(sessions) && pending == old(pending)
                   && result == Err(if sessionID in sessions then InvalidCSRF else UnknownSession)
      ensures forall other | other in sessions :: unchanged(sessions[other])
      ensures result.Ok? ==> result.value.tenantID == tenantID
    {
      if sessionID !in sessions {
        return Err(UnknownSession), None;
      }
      var session := sessions[sessionID];
      if !session.active {
        return Err(UnknownSession), None;
      }
      if session.csrf != csrf {
        return Err(InvalidCSRF), None;
      }
      Invalidate(session);
      result, sent := Begin(tenantID, id, state, nonce, verifier, s256, safeURL, now);
    }
  }

  /** Registers the tenants one by one; an unusable or repeated tenant stops. */
  method RegisterTenants(registrations: seq<Registration>) returns (tenants: Option<map<string, Tenant>>)
    ensures tenants.Some? <==> DistinctUsable(registrations)
    ensures tenants.Some? ==>
              forall r | r in registrations :: r.id in tenants.value && tenants.value[r.id] == r.tenant
  {
    var found: map<string, Tenant> := map[];
    for i := 0 to |registrations|
      invariant DistinctUsable(registrations[..i])
      invariant forall id :: id in found <==> exists j | 0 <= j < i :: registrations[j].id == id
      invariant forall j | 0 <= j < i :: found[registrations[j].id] == registrations[j].tenant
    {
      var registration := registrations[i];
      if !Usable(registration) {
        assert registration in registrations;
        return None;
      }
      if registration.id in found {
        return None;
      }
      found := found[registration.id := registration.tenant];
    }
    assert registrations[..|registrations|] == registrations;
    return Some(found);
  }

  /** `NewBroker`: fills in defaults, checks the bounds and registers the tenants. */
  method NewBroker(given: Config) returns (broker: Broker?)
    ensures broker != null <==>
              && given.registrations != [] && given.hasFactory && given.pendingTTL >= 0 && given.sessionTTL >= 0
              && given.refreshSkew >= 0 && given.maxPending >= 0 && given.maxSessions >= 0
              && (forall i | 0 <= i < |given.registrations| ::
                    var r := given.registrations[i];
                    r.id != "" && r.tenant.name != "" && r.tenant.baseURL != "" && r.usable)
              && forall i, j | 0 <= i < j < |given.registrations| ::
                   given.registrations[i].id != given.registrations[j].id
    ensures broker != null ==>
              && broker.pendingTTL == (if given.pendingTTL == 0 then 600_000_000_000 else given.pendingTTL)
              && broker.sessionTTL == (if given.sessionTTL == 0 then 28_800_000_000_000 else given.sessionTTL)
              && broker.refreshSkew == (if given.refreshSkew == 0 then 60_000_000_000 else given.refreshSkew)
              && broker.maxPending == (if given.maxPending == 0 then 1024 else given.maxPending)
              && broker.maxSessions == (if given.maxSessions == 0 then 4096 else given.maxSessions)
    ensures broker != null ==>
              && broker.Valid() && fresh(broker) && fresh(broker.clients)
              && broker.pending == map[] && broker.sessions == map[]
              && forall r | r in given.registrations ::
                   r.id in broker.tenants && broker.tenants[r.id] == r.tenant
  {
    if given.registrations == [] || !given.hasFactory {
      return null;
    }
    var config := WithDefaults(given);
    if config.pendingTTL <= 0 || config.sessionTTL <= 0 || config.refreshSkew < 0
       || config.maxPending < 1 || config.maxSessions < 1
    {
      return null;
    }
    var tenants := RegisterTenants(given.registrations);
    if tenants == None {
      return null;
    }
    var clients := new Clients();
    broker := new Broker(tenants.value, config, clients);
  }
}
