/** The values the authentication broker keeps: tenants, login attempts, identities, tokens and
    drafts, and what its table maintenance means. */
module AuthModel {
  import opened Text

  datatype Tenant = Tenant(name: string, baseURL: string)

  /** A token or identity expiry of Go's zero time is `None`. */
  datatype Token = Token(accessToken: string, refreshToken: string, expiry: Option<int>)

  datatype Identity = Identity(subject: string, displayName: string, roles: seq<string>,
                               token: Token, nonce: string)

  datatype Attempt = Attempt(id: string, state: string, tenantID: string, nonce: string,
                             verifier: string, created: int, expires: int)

  /** What `Begin` sends to the identity provider with the browser: no verifier, only its S256
      image. */
  datatype Authorization = Authorization(state: string, nonce: string, challenge: string)

  /** What `Complete` sends to the identity provider itself. */
  datatype ExchangeRequest = ExchangeRequest(code: string, verifier: string, nonce: string)

  /** A tenant registration; `usable` says that it has an identity provider. */
  datatype Registration = Registration(id: string, tenant: Tenant, usable: bool)

  /** Durations and limits; zero stands for the default. */
  datatype Config = Config(registrations: seq<Registration>, hasFactory: bool, pendingTTL: int,
                           sessionTTL: int, refreshSkew: int, maxPending: int, maxSessions: int)

  const SECOND: int := 1_000_000_000
  const MINUTE: int := 60 * SECOND

  function WithDefaults(config: Config): Config {
    config.(pendingTTL := if config.pendingTTL == 0 then 10 * MINUTE else config.pendingTTL,
            sessionTTL := if config.sessionTTL == 0 then 480 * MINUTE else config.sessionTTL,
            refreshSkew := if config.refreshSkew == 0 then MINUTE else config.refreshSkew,
            maxPending := if config.maxPending == 0 then 1024 else config.maxPending,
            maxSessions := if config.maxSessions == 0 then 4096 else config.maxSessions)
  }

  predicate Usable(registration: Registration) {
    registration.id != "" && registration.tenant.name != "" && registration.tenant.baseURL != ""
    && registration.usable
  }

  /** The configurations a broker is made from. */
  predicate Acceptable(config: Config) {
    && config.registrations != [] && config.hasFactory
    && config.pendingTTL >= 0 && config.sessionTTL >= 0 && config.refreshSkew >= 0
    && config.maxPending >= 0 && config.maxSessions >= 0
    && DistinctUsable(config.registrations)
  }

  predicate DistinctUsable(registrations: seq<Registration>) {
    && (forall i | 0 <= i < |registrations| :: Usable(registrations[i]))
    && (forall i, j | 0 <= i < j < |registrations| :: registrations[i].id != registrations[j].id)
  }

  datatype Error =
    | UnknownTenant | UnknownSession | InvalidState | InvalidCSRF
    | RandomFailed | UnsafeURL | Collision | ExchangeFailed | InvalidIdentity | ClientFailed

  datatype Result<+T> = Ok(value: T) | Err(error: Error)

  predicate BoundedIdentity(identity: Identity) {
    && |identity.subject| <= 1024 && |identity.displayName| <= 1024 && |identity.roles| <= 256
    && |identity.token.accessToken| <= 16384 && |identity.token.refreshToken| <= 16384
    && forall i | 0 <= i < |identity.roles| :: |identity.roles[i]| <= 128
  }

  /** The identity that an exchange returned may start a session. */
  predicate Admissible(identity: Identity, attempt: Attempt) {
    && identity.subject != "" && identity.token.accessToken != ""
    && BoundedIdentity(identity) && identity.nonce == attempt.nonce
  }

  // ---------------------------------------------------------------- table maintenance

  /** The login attempts that have not expired. */
  function Live(pending: map<string, Attempt>, now: int): map<string, Attempt> {
    map id | id in pending && now < pending[id].expires :: pending[id]
  }

  /** `after` keeps part of `before`, and nothing kept is older than anything removed. */
  predicate KeepsNewest(before: map<string, Attempt>, after: map<string, Attempt>) {
    && (forall id | id in after :: id in before && after[id] == before[id])
    && (forall gone, kept | gone in before && gone !in after && kept in after ::
          before[gone].created <= before[kept].created)
  }

  /** Eviction brings the table below `limit`, removing no more than needed. */
  predicate EvictedTo(before: map<string, Attempt>, after: map<string, Attempt>, limit: nat)
    requires limit >= 1
  {
    KeepsNewest(before, after) && |after| == if |before| < limit then |before| else limit - 1
  }
}
