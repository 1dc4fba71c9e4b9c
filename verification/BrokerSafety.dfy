/** What the invariant of `Interleaving` means for whole runs of the broker: client conservation,
    the finality of deactivation and logout, and single-use logins. */
module BrokerSafety {
  import opened Text
  import opened AuthModel
  import opened Sections
  import opened Interleaving

  // ---------------------------------------------------------------- clients

  predicate CurrentOf(s: System, client: nat, ref: nat) {
    ref < |s.sessions| && s.sessions[ref].active && s.sessions[ref].client == client
  }

  predicate LocalTo(s: System, client: nat, t: int) {
    t in s.threads && s.threads[t].Connected? && s.threads[t].client == client
  }

  /** Every client ever made is closed, or is the current client of exactly one active session, or
      is still local to exactly one `Complete`. */
  lemma ClientConservation(s: System, client: nat)
    requires Inv(s) && client < |s.clients|
    ensures s.clients[client].open <==>
              (exists ref | 0 <= ref < |s.sessions| :: CurrentOf(s, client, ref))
              || (exists t | t in s.threads :: LocalTo(s, client, t))
    ensures forall ref, other | CurrentOf(s, client, ref) && CurrentOf(s, client, other) :: ref == other
    ensures forall t, u | LocalTo(s, client, t) && LocalTo(s, client, u) :: t == u
    ensures forall ref, t | CurrentOf(s, client, ref) :: !LocalTo(s, client, t)
  {
    assert Owned(s, client);
    forall ref | CurrentOf(s, client, ref) ensures s.owners[client] == Held(ref) && s.clients[client].open {
      assert Equipped(s, ref);
    }
    forall t | LocalTo(s, client, t) ensures s.owners[client] == Local(t) && s.clients[client].open {
      assert CarriesClient(s, t);
    }
    match s.owners[client]
    case Nobody =>
    case Local(t) => assert LocalTo(s, client, t);
    case Held(ref) => assert CurrentOf(s, client, ref);
  }

  /** No `Complete` and no retirement is in flight. */
  predicate Quiet(s: System) {
    forall t | t in s.threads ::
      !s.threads[t].Connected? && !s.threads[t].Created? && !s.threads[t].Retiring?
  }

  function OpenClients(s: System): set<nat> {
    set client | 0 <= client < |s.clients| && s.clients[client].open
  }

  lemma {:induction false} ValuesSize<K>(m: map<K, nat>)
    requires forall x, y | x in m && y in m && x != y :: m[x] != m[y]
    ensures |m.Values| == |m|
    decreases |m|
  {
    if m != map[] {
      var x :| x in m;
      var rest := m - {x};
      assert rest.Keys == m.Keys - {x};
      forall v ensures v in rest.Values <==> v in m.Values && v != m[x] {
        if v in m.Values && v != m[x] {
          var y :| y in m && m[y] == v;
          assert y in rest && rest[y] == v;
        }
      }
      assert rest.Values == m.Values - {m[x]};
      ValuesSize(rest);
    }
  }

  /** The clients of the sessions in the table. */
  function TableClients(s: System): map<string, nat>
    requires TableInRange(s)
  {
    map id | id in s.table :: s.sessions[s.table[id]].client
  }

  lemma TableClientsDiffer(s: System, id: string, other: string)
    requires Inv(s) && id in s.table && other in s.table && id != other
    ensures Listed(s, id) && Listed(s, other)
    ensures s.sessions[s.table[id]].client != s.sessions[s.table[other]].client
  {
    assert Listed(s, id) && Listed(s, other);
    assert Equipped(s, s.table[id]) && Equipped(s, s.table[other]);
  }

  lemma TableClientIsOpen(s: System, id: string)
    requires Inv(s) && id in s.table
    ensures Listed(s, id) && s.sessions[s.table[id]].client in OpenClients(s)
  {
    assert Listed(s, id) && Equipped(s, s.table[id]);
  }

  lemma OpenClientIsListed(s: System, client: nat) returns (id: string)
    requires Inv(s) && Quiet(s) && client in OpenClients(s)
    ensures id in s.table && Listed(s, id) && s.sessions[s.table[id]].client == client
  {
    assert Owned(s, client);
    assert !s.owners[client].Local?;
    var ref := s.owners[client].ref;
    assert Covered(s, ref);
    assert forall t | t in s.threads :: !Keeps(s, t, ref);
    id := s.sessions[ref].id;
    assert Listed(s, id);
  }

  /** When nothing is in flight, the open clients are exactly the clients of the sessions in the
      table, one for each, and so no more than the limit. */
  lemma OpenClientsAreTheTables(s: System)
    requires Inv(s) && Quiet(s) && TableInRange(s)
    ensures OpenClients(s) == TableClients(s).Values
  {
    var owned := TableClients(s);
    forall client | client in OpenClients(s) ensures client in owned.Values {
      var id := OpenClientIsListed(s, client);
      assert owned[id] == client;
    }
    forall id | id in s.table ensures owned[id] in OpenClients(s) {
      TableClientIsOpen(s, id);
    }
  }

  lemma QuietConservation(s: System)
    requires Inv(s) && Quiet(s)
    ensures TableInRange(s) && OpenClients(s) == TableClients(s).Values
    ensures |OpenClients(s)| == |s.table| <= s.limits.maxSessions
  {
    forall id | id in s.table ensures Listed(s, id) {
    }
    OpenClientsAreTheTables(s);
    var owned := TableClients(s);
    forall id, other | id in owned && other in owned && id != other ensures owned[id] != owned[other] {
      TableClientsDiffer(s, id, other);
    }
    ValuesSize(owned);
    assert owned.Keys == s.table.Keys;
  }

  /** The client of an active session was made for the tenant of the session's own `Begin` and for
      the session's current access token, however often it was swapped. */
  lemma ClientBinding(s: System, ref: nat)
    requires Inv(s) && ref < |s.sessions| && s.sessions[ref].active
    ensures s.sessions[ref].client < |s.clients| && s.sessions[ref].login < |s.logins|
    ensures s.clients[s.sessions[ref].client]
            == Client(s.logins[s.sessions[ref].login].attempt.tenantID, s.sessions[ref].token.accessToken, true)
  {
    assert Equipped(s, ref) && FromLogin(s, ref);
  }

  // ---------------------------------------------------------------- finality

  /** What no step takes back: an ended session stays as it is, a closed client stays closed, and
      no client is rebound. */
  predicate Final(s: System, next: System) {
    && |s.sessions| <= |next.sessions| && |s.clients| <= |next.clients|
    && (forall ref | 0 <= ref < |s.sessions| && !s.sessions[ref].active :: next.sessions[ref] == s.sessions[ref])
    && (forall ref | 0 <= ref < |s.sessions| :: next.sessions[ref].id == s.sessions[ref].id)
    && (forall c | 0 <= c < |s.clients| ::
          next.clients[c].tenantID == s.clients[c].tenantID && next.clients[c].token == s.clients[c].token
          && (!s.clients[c].open ==> !next.clients[c].open))
  }

  lemma StepIsFinal(s: System, step: Step)
    requires Enabled(s, step) && ClientsOk(s)
    ensures Final(s, Take(s, step)) && SomeoneMoves(s, Take(s, step), step.t)
  {
    if Interleaving.Quiet(step) {
      QuietStep(s, step);
    } else {
      LoudStepIsFinal(s, step);
    }
  }

  /** Only thread `t` moves, and no session starts again. */
  ghost predicate SomeoneMoves(s: System, next: System, t: int) {
    && OthersStay(s, next, t) && t in next.threads && |s.sessions| <= |next.sessions|
    && forall ref | 0 <= ref < |s.sessions| && next.sessions[ref].active :: s.sessions[ref].active
  }

  lemma EstablishIsFinal(s: System, step: Step)
    requires Enabled(s, step) && ClientsOk(s) && step.Establish?
    ensures Final(s, TakeEstablish(s, step)) && SomeoneMoves(s, TakeEstablish(s, step), step.t)
  {
  }

  lemma RetireIsFinal(s: System, step: Step)
    requires Enabled(s, step) && ClientsOk(s) && step.Retire?
    ensures Final(s, TakeRetire(s, step)) && SomeoneMoves(s, TakeRetire(s, step), step.t)
  {
  }

  lemma InspectIsFinal(s: System, step: Step)
    requires Enabled(s, step) && ClientsOk(s) && step.Inspect?
    ensures Final(s, TakeInspect(s, step)) && SomeoneMoves(s, TakeInspect(s, step), step.t)
  {
  }

  lemma LoudStepIsFinal(s: System, step: Step)
    requires Enabled(s, step) && ClientsOk(s) && !Interleaving.Quiet(step)
    ensures Final(s, Take(s, step)) && SomeoneMoves(s, Take(s, step), step.t)
  {
    match step
    case Connect(_, _) =>
    case Establish(_, _, _) => EstablishIsFinal(s, step);
    case Retire(_, _) => RetireIsFinal(s, step);
    case Inspect(_, _, _, _) => InspectIsFinal(s, step);
    case Edit(_, _) =>
  }

  lemma {:induction false} RunIsFinal(s: System, steps: seq<Step>)
    requires Inv(s) && Possible(s, steps)
    ensures Final(s, Execute(s, steps))
    decreases |steps|
  {
    if steps != [] {
      InvStays(s, steps[0]);
      StepIsFinal(s, steps[0]);
      RunIsFinal(Take(s, steps[0]), steps[1..]);
    }
  }

  /** Whatever a thread that found a session does after the session has ended: `Session` gives no
      view, and no client is handed out, no draft or client changes and nothing passes CSRF. */
  lemma EndedIsUseless(s: System, step: Step)
    requires Enabled(s, step) && s.threads[step.t].Found?
    requires s.threads[step.t].ref < |s.sessions| && !s.sessions[s.threads[step.t].ref].active
    ensures Take(s, step).sessions == s.sessions && Take(s, step).clients == s.clients
    ensures if step.Inspect? then Take(s, step).threads[step.t].Dropping? else Take(s, step).threads[step.t] == Idle
  {
  }

  predicate IdsDiffer(s: System) {
    forall ref, other | 0 <= ref < other < |s.sessions| :: s.sessions[ref].id != s.sessions[other].id
  }

  /** The identifier of an ended session finds nothing. */
  lemma EndedIsUnlisted(s: System, ref: nat)
    requires Inv(s) && IdsDiffer(s) && ref < |s.sessions| && !s.sessions[ref].active
    ensures FindsNothing(s, s.sessions[ref].id)
  {
    forall id | id in s.table ensures Listed(s, id) {
    }
  }

  /** Thread `t` is ending the session, or it has ended. */
  predicate Ending(s: System, t: int, ref: nat) {
    && ref < |s.sessions| && t in s.threads
    && (s.sessions[ref].active ==>
          match s.threads[t]
          case Dropping(r, _) => r == ref
          case Retiring(refs) => ref in refs
          case _ => false)
  }

  /** Another thread's step and a step after the end leave it so. */
  lemma EndingUndisturbed(s: System, next: System, u: int, t: int, ref: nat)
    requires SomeoneMoves(s, next, u) && Ending(s, t, ref) && (u != t || !s.sessions[ref].active)
    ensures Ending(next, t, ref)
  {
  }

  lemma DropEnds(s: System, step: Step, ref: nat)
    requires Enabled(s, step) && step.Drop? && Ending(s, step.t, ref) && s.sessions[ref].active
    ensures Ending(Take(s, step), step.t, ref)
  {
  }

  lemma RetireEnds(s: System, step: Step, ref: nat)
    requires Enabled(s, step) && step.Retire? && Ending(s, step.t, ref) && s.sessions[ref].active
    ensures Ending(TakeRetire(s, step), step.t, ref)
  {
    var refs := s.threads[step.t].refs;
    assert ref != step.ref ==> ref in refs - {step.ref};
  }

  lemma EndingStays(s: System, step: Step, t: int, ref: nat)
    requires Inv(s) && Enabled(s, step) && Ending(s, t, ref)
    ensures Ending(Take(s, step), t, ref)
  {
    if step.t != t || !s.sessions[ref].active {
      StepIsFinal(s, step);
      EndingUndisturbed(s, Take(s, step), step.t, t, ref);
    } else {
      match step
      case Drop(_) => DropEnds(s, step, ref);
      case Retire(_, _) => RetireEnds(s, step, ref);
    }
  }

  lemma {:induction false} EndingLasts(s: System, steps: seq<Step>, t: int, ref: nat)
    requires Inv(s) && Possible(s, steps) && Ending(s, t, ref)
    ensures Ending(Execute(s, steps), t, ref)
    decreases |steps|
  {
    if steps != [] {
      InvStays(s, steps[0]);
      EndingStays(s, steps[0], t, ref);
      EndingLasts(Take(s, steps[0]), steps[1..], t, ref);
    }
  }

  /** The section that passes the CSRF check commits its thread to ending the session. */
  lemma LeavingEnds(s: System, t: int, csrf: string)
    requires Inv(s) && Enabled(s, Leave(t, csrf))
    requires s.sessions[s.threads[t].ref].active && s.sessions[s.threads[t].ref].csrf == csrf
    ensures var left := Take(s, Leave(t, csrf));
            var ref := s.threads[t].ref;
            Inv(left) && Ending(left, t, ref) && left.sessions == s.sessions && s.sessions[ref].id == s.threads[t].id
  {
    InvStays(s, Leave(t, csrf));
    assert CarriesSession(s, t);
  }

  /** When a thread that was ending a session is free again, the session has ended for good. */
  lemma EndingIsFinal(left: System, t: int, ref: nat, steps: seq<Step>, back: System, more: seq<Step>, after: System)
    requires Inv(left) && Ending(left, t, ref)
    requires Possible(left, steps) && back == Execute(left, steps) && At(back, t, Idle)
    requires Possible(back, more) && after == Execute(back, more)
    ensures Inv(after) && ref < |after.sessions| && !after.sessions[ref].active
    ensures after.sessions[ref].id == left.sessions[ref].id
  {
    EndingLasts(left, steps, t, ref);
    AlwaysInv(left, steps);
    RunIsFinal(left, steps);
    AlwaysInv(back, more);
    RunIsFinal(back, more);
  }

  /** Once `Switch` or `Logout` has passed its CSRF check, then whatever all threads do until its
      thread is free again and ever after, the session has ended, and if the random identifiers
      were all different, no thread finds anything under its identifier. */
  lemma LeavingIsFinal(s: System, t: int, csrf: string, left: System, steps: seq<Step>, back: System,
                       more: seq<Step>, after: System)
    requires Inv(s) && Enabled(s, Leave(t, csrf)) && left == Take(s, Leave(t, csrf))
    requires s.sessions[s.threads[t].ref].active && s.sessions[s.threads[t].ref].csrf == csrf
    requires Possible(left, steps) && back == Execute(left, steps) && At(back, t, Idle)
    requires Possible(back, more) && after == Execute(back, more)
    ensures s.threads[t].ref < |after.sessions| && !after.sessions[s.threads[t].ref].active
    ensures IdsDiffer(after) ==> FindsNothing(after, s.threads[t].id)
  {
    LeavingEnds(s, t, csrf);
    EndingIsFinal(left, t, s.threads[t].ref, steps, back, more, after);
    if IdsDiffer(after) {
      EndedIsUnlisted(after, s.threads[t].ref);
    }
  }

  /** Looking the identifier up takes no thread anywhere. */
  ghost predicate FindsNothing(s: System, id: string) {
    forall u | Enabled(s, Find(u, id)) :: Take(s, Find(u, id)) == s
  }

  // ---------------------------------------------------------------- single-use logins

  /** Over any run at most one exchange is made for each `Begin`; it uses the verifier whose S256
      image that `Begin` sent, with the same nonce and tenant, and at most one session comes of it,
      bound to the same tenant. */
  lemma SingleUseLogin(limits: Limits, threads: set<int>, steps: seq<Step>)
    requires limits.maxPending >= 1 && limits.maxSessions >= 1
    requires Possible(Initial(limits, threads), steps)
    ensures var s := Execute(Initial(limits, threads), steps);
            && OncePerLogin(s)
            && (forall i | 0 <= i < |s.exchanges| :: Proper(s, s.exchanges[i]))
            && (forall ref | 0 <= ref < |s.sessions| :: FromLogin(s, ref))
  {
    InitialInv(limits, threads);
    AlwaysInv(Initial(limits, threads), steps);
  }

  /** Over any run the callback behind an exchange presented a code and the state, and in time, that the
      authorization request of its login announced; the exchange carries that request's nonce and a
      verifier whose image it sent. */
  lemma ExchangeIsAnswered(limits: Limits, threads: set<int>, steps: seq<Step>, i: nat)
    requires limits.maxPending >= 1 && limits.maxSessions >= 1
    requires Possible(Initial(limits, threads), steps)
    requires i < |Execute(Initial(limits, threads), steps).exchanges|
    ensures var s := Execute(Initial(limits, threads), steps);
            var exchange := s.exchanges[i];
            && exchange.serial < |s.logins|
            && var login := s.logins[exchange.serial];
            && exchange.code != "" && exchange.state == login.sent.state && exchange.nonce == login.sent.nonce
            && s.limits.s256(exchange.verifier) == login.sent.challenge
            && exchange.now < login.attempt.expires && exchange.tenantID == login.attempt.tenantID
  {
    SingleUseLogin(limits, threads, steps);
    assert Proper(Execute(Initial(limits, threads), steps), Execute(Initial(limits, threads), steps).exchanges[i]);
  }

  // ---------------------------------------------------------------- what one section decides

  /** A callback goes on to an exchange exactly when its attempt is there, in time and its own state was
      presented with a code. The attempt is gone either way, and a refused thread has nothing. */
  lemma ClaimExactly(s: System, step: Step)
    requires Enabled(s, step) && step.Claim?
    ensures var next := Take(s, step);
            && step.id !in next.pending && next.sessions == s.sessions && next.exchanges == s.exchanges
            && if step.id in s.pending && step.now < s.pending[step.id].attempt.expires
                  && step.state == s.pending[step.id].attempt.state && step.code != ""
               then next.threads[step.t] == Exchanging(s.pending[step.id], step.code, step.state, step.now)
               else next.threads[step.t] == Idle && next.logins == s.logins
  {
  }

  /** The identity of an exchange goes on exactly when it has the nonce of the attempt, a subject, a token and
      members within their bounds; otherwise the login is over. */
  lemma IdentityExactly(s: System, step: Step)
    requires Enabled(s, step) && step.MakeExchange?
    ensures var place, next := s.threads[step.t], Take(s, step);
            if step.outcome.Some?
               && var identity := step.outcome.value;
               && identity.nonce == place.ticket.attempt.nonce && identity.subject != ""
               && 1 <= |identity.token.accessToken| <= 16384 && |identity.token.refreshToken| <= 16384
               && |identity.subject| <= 1024 && |identity.displayName| <= 1024 && |identity.roles| <= 256
               && forall i | 0 <= i < |identity.roles| :: |identity.roles[i]| <= 128
            then next.threads[step.t] == Identified(place.ticket, step.outcome.value, place.now)
            else next.threads[step.t] == Idle && next.logins[place.ticket.serial].stage == Over
  {
  }

  /** The session's token ends within the skew. */
  predicate Ends(s: System, ref: nat, now: int)
    requires ref < |s.sessions|
  {
    match s.sessions[ref].token.expiry
    case None => false
    case Some(expiry) => expiry - s.limits.refreshSkew <= now
  }

  /** A session is served exactly while its own time runs and its token lasts beyond the skew or was
      renewed just now; otherwise the thread goes on to drop it. */
  lemma ServedExactly(s: System, step: Step)
    requires Enabled(s, step) && step.Inspect?
    ensures var next, place := Take(s, step), s.threads[step.t];
            var session := s.sessions[place.ref];
            && place.ref < |next.sessions|
            && (next.threads[step.t] == Idle || next.threads[step.t] == Dropping(place.ref, place.id))
            && (next.threads[step.t] == Idle ==>
                  && session.active && step.now < session.expires
                  && (next.sessions[place.ref] == session ==>
                        session.token.expiry == None || step.now + s.limits.refreshSkew < session.token.expiry.value)
                  && (next.sessions[place.ref] != session ==>
                        && session.token.expiry.Some?
                        && session.token.expiry.value <= step.now + s.limits.refreshSkew
                        && step.refreshed.Some? && step.refreshed.value.accessToken != ""
                        && next.sessions[place.ref].token
                           == Token(step.refreshed.value.accessToken,
                                    if step.refreshed.value.refreshToken == "" then session.token.refreshToken
                                    else step.refreshed.value.refreshToken, step.refreshed.value.expiry)
                        && next.sessions[place.ref].client == |s.clients| && next.clients[|s.clients|].open
                        && !next.clients[session.client].open))
            && (next.threads[step.t] != Idle ==>
                  && next.sessions == s.sessions && next.clients == s.clients
                  && (!session.active || session.expires <= step.now
                      || (Ends(s, place.ref, step.now)
                          && (session.token.refreshToken == "" || step.refreshed == None
                              || step.refreshed.value.accessToken == "" || !step.connects))))
  {
  }

  /** Nothing but a look at a session whose token ends within the skew gives it another client. */
  lemma SwapHasCause(s: System, step: Step, ref: nat)
    requires Enabled(s, step) && ClientsOk(s) && ref < |s.sessions|
    ensures ref < |Take(s, step).sessions|
    ensures Take(s, step).sessions[ref].client != s.sessions[ref].client ==>
              && step.Inspect? && s.threads[step.t].ref == ref
              && s.sessions[ref].active && step.now < s.sessions[ref].expires && Ends(s, ref, step.now)
  {
    StepIsFinal(s, step);
  }

  /** A thread comes to drop a session by its CSRF token, or because its time or its token is over. */
  lemma DropHasCause(s: System, step: Step, ref: nat, id: string)
    requires Enabled(s, step) && At(Take(s, step), step.t, Dropping(ref, id)) && !At(s, step.t, Dropping(ref, id))
    ensures At(s, step.t, Found(ref, id)) && ref < |s.sessions|
    ensures (step.Leave? && s.sessions[ref].active && step.csrf == s.sessions[ref].csrf)
            || (step.Inspect? && (!s.sessions[ref].active || s.sessions[ref].expires <= step.now
                                  || Ends(s, ref, step.now)))
  {
  }

  /** A new session is for the tenant, the login and the token of the thread that completes it, and lasts the
      session time from the moment of its callback. */
  lemma EstablishedExactly(s: System, step: Step)
    requires Enabled(s, step) && step.Establish?
    ensures var place, next := s.threads[step.t], Take(s, step);
            if step.sessionID.Some? && step.proof.Some? then
              && next.sessions == s.sessions
                 + [Session(step.sessionID.value, step.proof.value, place.ticket.attempt.tenantID,
                            place.identity.token, place.now, place.now + s.limits.sessionTTL, true, place.client,
                            map[], place.ticket.serial)]
              && next.threads[step.t] == Created(|s.sessions|, place.now) && next.clients == s.clients
            else next.sessions == s.sessions && !next.clients[place.client].open && next.threads[step.t] == Idle
  {
  }

  /** Deactivating leaves nothing of an active session: no token, no draft and no open client. */
  lemma RetiredExactly(s: System, step: Step)
    requires Enabled(s, step) && step.Retire?
    ensures var session, next := s.sessions[step.ref], Take(s, step);
            && !next.sessions[step.ref].active
            && (session.active ==>
                  && next.sessions[step.ref].token.accessToken == "" && next.sessions[step.ref].token.refreshToken == ""
                  && next.sessions[step.ref].drafts == map[] && !next.clients[session.client].open)
            && (!session.active ==> next.sessions == s.sessions && next.clients == s.clients)
  {
  }

  /** The client that is handed out is the current one of an active session. */
  lemma BorrowsCurrent(s: System, step: Step)
    requires Enabled(s, step) && step.Borrow?
    ensures var session, place := s.sessions[s.threads[step.t].ref], Take(s, step).threads[step.t];
            place == if session.active then Using(session.client) else Idle
  {
  }

  /** The sessions in the table whose time is not over. */
  function Unended(s: System, now: int): set<string>
    requires TableInRange(s)
  {
    set id | id in s.table && now < s.sessions[s.table[id]].expires
  }

  /** A session leaves the table only when its time is over, when a full table needs room and none of those
      that stay is older, or when a thread drops it. */
  lemma UnlistingHasCause(s: System, step: Step, id: string)
    requires Enabled(s, step) && id in s.table && (id !in Take(s, step).table || Take(s, step).table[id] != s.table[id])
    ensures (step.Drop? && s.threads[step.t] == Dropping(s.table[id], id))
            || (step.Insert?
                && var now := s.threads[step.t].now;
                || s.sessions[s.table[id]].expires <= now
                || (&& |Unended(s, now)| >= s.limits.maxSessions
                    && forall other | other in Unended(s, now) ::
                         s.sessions[s.table[id]].created <= s.sessions[s.table[other]].created))
  {
    if step.Insert? {
      InsertUnlists(s, step, id);
    }
  }

  lemma InsertUnlists(s: System, step: Step, id: string)
    requires Enabled(s, step) && step.Insert? && id in s.table
    requires var table := TakeInsert(s, step).table; id !in table || table[id] != s.table[id]
    ensures var now := s.threads[step.t].now;
            || s.sessions[s.table[id]].expires <= now
            || (&& |Unended(s, now)| >= s.limits.maxSessions
                && forall other | other in Unended(s, now) ::
                     s.sessions[s.table[id]].created <= s.sessions[s.table[other]].created)
  {
    var now := s.threads[step.t].now;
    var live := LiveTable(s, now);
    assert live.Keys == Unended(s, now);
    if id in live && |live| >= s.limits.maxSessions {
      forall other | other in Unended(s, now)
        ensures s.sessions[s.table[step.victim]].created <= s.sessions[s.table[other]].created
      {
        assert other in live && live[other] == s.table[other] && live[step.victim] == s.table[step.victim];
      }
    }
  }

  /** An attempt leaves the table only when it is claimed, when its time is over, or when a full table needs
      room and none of those that stay is older. */
  lemma ForgettingHasCause(s: System, step: Step, id: string)
    requires Enabled(s, step) && id in s.pending && id !in Take(s, step).pending
    ensures (step.Claim? && step.id == id)
            || (step.Begin?
                && (s.pending[id].attempt.expires <= step.now
                    || forall other | other in Take(s, step).pending && other != step.attempt.id ::
                         s.pending[id].attempt.created <= Take(s, step).pending[other].attempt.created))
  {
    if step.Begin? {
      var live, next := LivePending(s.pending, step.now), Take(s, step);
      if id in live {
        var before, after := Attempts(live), Attempts(Only(live, step.kept));
        assert KeepsNewest(before, after) && id in before && id !in after;
        forall other | other in next.pending && other != step.attempt.id
          ensures s.pending[id].attempt.created <= next.pending[other].attempt.created
        {
          assert other in after && before[id].created <= after[other].created;
        }
      }
    }
  }
}
