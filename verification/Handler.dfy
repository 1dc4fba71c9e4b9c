/** The local provider's handler object: fields loaded from the durable row, rewritten in place
    by one request, and saved back. Every method is proved against `ProviderModel.Serve`. */
module Handler {
  import opened Text
  import opened Routing
  import opened ProviderModel
  import opened RoleList
  import opened Sorting
  import opened Structs

  /** What decoding the row gives: the Go struct whose maps may be nil. */
  datatype Persistent = Persistent(entities: Option<Entities>, idempotency: Option<Records>, audits: seq<Audit>,
                                   users: Option<Users>, roles: Option<map<string, Role>>, run: Run, task: Task,
                                   plan: QuotaPlan)

  /** Read in the arrays of `repr`, the struct is what this row decodes to. */
  ghost predicate Decodes(repr: set<object>, state: Persistent, row: Encoded)
    reads repr
  {
    && state.entities.Some? == row.entities.Some? && state.idempotency.Some? == row.idempotency.Some?
    && state.users.Some? == row.users.Some? && state.roles == row.roles
    && ShowEntities(repr, OrEmpty(state.entities), OrEmpty(row.entities))
    && ShowRecords(repr, OrEmpty(state.idempotency), OrEmpty(row.idempotency))
    && ShowUsers(repr, OrEmpty(state.users), OrEmpty(row.users))
    && state.audits == row.audits && state.run == row.run && state.task == row.task && state.plan == row.plan
  }

  /** `json.Unmarshal` of the row: every list lies in an array of its own. */
  method Unmarshal(row: Encoded) returns (state: Persistent, ghost repr: set<object>)
    ensures Decodes(repr, state, row) && fresh(repr)
    ensures Apart(OrEmpty(state.users), OrEmpty(state.idempotency))
  {
    var users, owned := DecodeUsers(OrEmpty(row.users));
    var records, recorded := DecodeRecords(OrEmpty(row.idempotency));
    var entities, fields := DecodeEntities(OrEmpty(row.entities));
    assert forall key | key in records :: Behind(records[key].value) <= recorded;
    repr := owned + recorded + fields;
    ShowMoreUsers(owned, repr, users, OrEmpty(row.users));
    ShowMoreRecords(recorded, repr, records, OrEmpty(row.idempotency));
    ShowMoreEntities(fields, repr, entities, OrEmpty(row.entities));
    state := Persistent(if row.entities.Some? then Some(entities) else None,
                        if row.idempotency.Some? then Some(records) else None, row.audits,
                        if row.users.Some? then Some(users) else None, row.roles, row.run, row.task, row.plan);
  }

  /** `json.Marshal` of the state. */
  method Marshal(state: Persistent, ghost repr: set<object>, ghost row: Encoded) returns (encoded: Encoded)
    requires Decodes(repr, state, row)
    ensures encoded == row
  {
    var entities, records, users := OrEmpty(state.entities), OrEmpty(state.idempotency), OrEmpty(state.users);
    var entityValues := map code | code in entities :: EntityOf(entities[code]);
    var recordValues := map key | key in records :: CachedOf(records[key]);
    var userValues := map id | id in users :: UserOf(users[id]);
    assert entityValues == OrEmpty(row.entities) && recordValues == OrEmpty(row.idempotency);
    assert userValues == OrEmpty(row.users);
    encoded := Encoded(if state.entities.Some? then Some(entityValues) else None,
                       if state.idempotency.Some? then Some(recordValues) else None, state.audits,
                       if state.users.Some? then Some(userValues) else None, state.roles, state.run, state.task,
                       state.plan);
  }

  /** What an accepted assignment or revocation does to the state. */
  lemma RolesSettle(s: State, assign: bool, id: string, key: string, body: Body, clock: Clock)
    requires id in s.users && key in s.roles && s.users[id].version == body.expectedVersion
    ensures var user := Rewritten(s.users[id], key, assign);
            var entry := Entry(if assign then RoleAssigned else RoleRevoked, id, RoleDetails(key, user.version));
            Settle(s, JudgeChangeUserRole(s, assign, id, key, body), body.idempotencyKey, clock)
            == (s.(users := s.users[id := user],
                   idempotency := s.idempotency[body.idempotencyKey := Cached(200, UserValue(user))],
                   audits := s.audits + [AuditOf(entry, clock)]),
                Reply(200, Stored(UserValue(user))))
  {
  }

  /** What an accepted user does to the state. */
  lemma NewUserSettles(s: State, body: Body, clock: Clock)
    requires body.id !in s.users
    ensures var user := User(body.id, body.displayName, body.email, ACTIVE, [], 1);
            Settle(s, JudgeCreateUser(s, body), body.idempotencyKey, clock)
            == (s.(users := s.users[body.id := user],
                   idempotency := s.idempotency[body.idempotencyKey := Cached(200, UserValue(user))],
                   audits := s.audits + [AuditOf(Entry(UserCreated, body.id, VersionDetails(1)), clock)]),
                Reply(200, Stored(UserValue(user))))
  {
  }

  /** What an accepted entity does to the state. */
  lemma EntitySettles(s: State, code: string, body: Body, clock: Clock)
    requires body.expectedVersion == if code in s.entities then s.entities[code].version else 0
    ensures var entity := body.entity.(version := body.expectedVersion + 1);
            var entry := Entry(if code in s.entities then EntityUpdated else EntityCreated, code,
                               VersionDetails(entity.version));
            Settle(s, JudgeUpdateEntity(s, code, body), body.idempotencyKey, clock)
            == (s.(entities := s.entities[code := entity],
                   idempotency := s.idempotency[body.idempotencyKey := Cached(200, EntityValue(entity))],
                   audits := s.audits + [AuditOf(entry, clock)]),
                Reply(200, Stored(EntityValue(entity))))
  {
  }

  class Handler {
    /** The mutex `mu`: true while held. */
    var held: bool
    var entities: Entities
    var idempotency: Records
    var audits: seq<Audit>
    var users: Users
    var roles: map<string, Role>
    var run: Run
    var task: Task
    var plan: QuotaPlan

    /** What the fields and the lists behind them say. */
    ghost var view: State
    /** The arrays behind them. */
    ghost var repr: set<object>

    constructor ()
      ensures !held && Valid()
    {
      held := false;
      entities, idempotency, audits, users, roles := map[], map[], [], map[], map[];
      run := Run("", "", "", 0, "", "", "", "", "");
      task := Task("", "", "", "", 0, 0, "", "", "", "", "");
      plan := QuotaPlan("", 0, "", 0, map[]);
      repr := {};
      view := State(map[], map[], [], map[], map[], Run("", "", "", 0, "", "", "", "", ""),
                    Task("", "", "", "", 0, 0, "", "", "", "", ""), QuotaPlan("", 0, "", 0, map[]));
    }

    ghost predicate Valid()
      reads this, repr
    {
      && this !in repr
      && Show(repr, entities, idempotency, users, view)
      && Rest()
    }

    ghost predicate Rest()
      reads this
    {
      view.audits == audits && view.roles == roles && view.run == run && view.task == task && view.plan == plan
    }

    /** Takes over a decoded state; a nil map becomes an empty one. */
    method LoadState(state: Persistent, ghost arrays: set<object>, ghost row: Encoded)
      requires Decodes(arrays, state, row) && this !in arrays
      modifies this
      ensures Valid() && view == StateIn(row) && repr == arrays && held == old(held)
      ensures users == OrEmpty(state.users) && idempotency == OrEmpty(state.idempotency)
    {
      assert Show(arrays, OrEmpty(state.entities), OrEmpty(state.idempotency), OrEmpty(state.users), StateIn(row));
      LoadFields(state);
      repr, view := arrays, StateIn(row);
    }

    method LoadFields(state: Persistent)
      modifies this`entities, this`idempotency, this`users, this`roles, this`audits, this`run, this`task, this`plan
      ensures entities == OrEmpty(state.entities) && idempotency == OrEmpty(state.idempotency)
      ensures users == OrEmpty(state.users) && roles == OrEmpty(state.roles)
      ensures audits == state.audits && run == state.run && task == state.task && plan == state.plan
    {
      entities := if state.entities.Some? then state.entities.value else map[];
      idempotency := if state.idempotency.Some? then state.idempotency.value else map[];
      audits := state.audits;
      users := if state.users.Some? then state.users.value else map[];
      roles := if state.roles.Some? then state.roles.value else map[];
      run := state.run;
      task := state.task;
      plan := state.plan;
    }

    method SnapshotState() returns (state: Persistent)
      requires Valid()
      ensures Decodes(repr, state, Encode(view))
    {
      state := Persistent(Some(entities), Some(idempotency), audits, Some(users), Some(roles), run, task, plan);
    }

    // -------------------------------------------------------------- shared steps

    method Lock()
      requires !held && Valid()
      modifies this`held
      ensures held && Valid()
    {
      held := true;
    }

    method Unlock()
      requires held && Valid()
      modifies this`held
      ensures !held && Valid()
    {
      held := false;
    }

    /** Releases the mutex and answers when the key has a recorded result. */
    method WriteCached(key: string) returns (hit: bool, reply: Reply)
      requires held && Valid()
      modifies this`held
      ensures hit == (key in view.idempotency) && held == !hit && Valid()
      ensures hit ==> reply == Reply(view.idempotency[key].status, Stored(view.idempotency[key].value))
    {
      hit := key in idempotency;
      reply := Reply(404, Problem(NotFoundCode));
      if hit {
        Unlock();
        reply := Reply(idempotency[key].status, Stored(ValueIn(idempotency[key].value)));
      }
    }

    method AppendAudit(entry: Entry, clock: Clock)
      requires held && Valid()
      modifies this`audits, this`view
      ensures Valid() && view == old(view).(audits := old(view.audits) + [AuditOf(entry, clock)])
    {
      audits := audits + [Audit("audit-local-" + clock.auditStamp, entry.action, "metadata_entity",
                                entry.target, clock.auditedAt, entry.details)];
      view := view.(audits := audits);
    }

    method AdoptRecord(key: string, value: Recorded, ghost cached: Cached)
      requires held && this !in repr + Behind(value) && Rest()
      requires Show(repr + Behind(value), entities, idempotency[key := CachedStruct(200, value)], users,
                    view.(idempotency := view.idempotency[key := cached]))
      modifies this`idempotency, this`view, this`repr
      ensures Valid() && repr == old(repr) + Behind(value)
      ensures idempotency == old(idempotency)[key := CachedStruct(200, value)]
      ensures view == old(view).(idempotency := old(view.idempotency)[key := cached])
    {
      idempotency := idempotency[key := CachedStruct(200, value)];
      repr := repr + Behind(value);
      view := view.(idempotency := view.idempotency[key := cached]);
    }

    method PutRecord(key: string, value: Recorded)
      requires held && Valid() && ValidRecord(value)
      modifies this`idempotency, this`view, this`repr
      ensures Valid() && repr == old(repr) + Behind(value)
      ensures idempotency == old(idempotency)[key := CachedStruct(200, value)]
      ensures view == old(view).(idempotency := old(view.idempotency)[key := Cached(200, ValueIn(value))])
    {
      ShowMoreEntities(repr, repr + Behind(value), entities, view.entities);
      ShowMoreUsers(repr, repr + Behind(value), users, view.users);
      PutShowsRecord(repr, idempotency, view.idempotency, key, CachedStruct(200, value));
      AdoptRecord(key, value, Cached(200, ValueIn(value)));
    }

    method CacheAndAudit(key: string, value: Recorded, entry: Entry, clock: Clock)
      requires held && Valid() && ValidRecord(value)
      modifies this`idempotency, this`audits, this`view, this`repr
      ensures Valid() && repr == old(repr) + Behind(value)
      ensures idempotency == old(idempotency)[key := CachedStruct(200, value)]
      ensures view == old(view).(idempotency := old(view.idempotency)[key := Cached(200, ValueIn(value))],
                                             audits := old(view.audits) + [AuditOf(entry, clock)])
    {
      PutRecord(key, value);
      AppendAudit(entry, clock);
    }

    method PutEntity(code: string, entity: EntityStruct)
      requires held && Valid() && InBounds(entity.fields)
      modifies this`entities, this`view, this`repr
      ensures Valid() && repr == old(repr) + {entity.fields.backing} && entities == old(entities)[code := entity]
      ensures view == old(view).(entities := old(view.entities)[code := EntityOf(entity)])
    {
      ShowMoreRecords(repr, repr + {entity.fields.backing}, idempotency, view.idempotency);
      ShowMoreUsers(repr, repr + {entity.fields.backing}, users, view.users);
      PutShowsEntity(repr, entities, view.entities, code, entity);
      entities := entities[code := entity];
      repr := repr + {entity.fields.backing};
      view := view.(entities := view.entities[code := EntityOf(entity)]);
    }

    method RemoveEntity(code: string)
      requires held && Valid()
      modifies this`entities, this`view
      ensures Valid() && view == old(view).(entities := old(view.entities) - {code})
    {
      entities := entities - {code};
      view := view.(entities := view.entities - {code});
    }

    method PutRole(key: string, role: Role)
      requires held && Valid()
      modifies this`roles, this`view
      ensures Valid() && view == old(view).(roles := old(view.roles)[key := role])
    {
      roles := roles[key := role];
      view := view.(roles := roles);
    }

    /** Puts one user in the map, whose list may just have been rewritten. */
    method AdoptUser(id: string, user: UserStruct, ghost values: map<string, User>)
      requires held && this !in repr && InBounds(user.roles)
      requires Rest()
      requires Show(repr + {user.roles.backing}, entities, idempotency, users[id := user],
                    view.(users := values[id := UserOf(user)]))
      modifies this`users, this`view, this`repr
      ensures Valid() && repr == old(repr) + {user.roles.backing} && users == old(users)[id := user]
      ensures view == old(view).(users := values[id := UserOf(user)])
    {
      users := users[id := user];
      repr := repr + {user.roles.backing};
      view := view.(users := values[id := UserOf(user)]);
    }

    method PutUser(id: string, user: UserStruct)
      requires held && Valid() && InBounds(user.roles)
      modifies this`users, this`view, this`repr
      ensures Valid() && repr == old(repr) + {user.roles.backing} && users == old(users)[id := user]
      ensures view == old(view).(users := old(view.users)[id := UserOf(user)])
    {
      ShowMoreEntities(repr, repr + {user.roles.backing}, entities, view.entities);
      ShowMoreRecords(repr, repr + {user.roles.backing}, idempotency, view.idempotency);
      PutShowsUser(repr, users, view.users, id, user);
      AdoptUser(id, user, view.users);
    }

    /** The reply and the new fields are those of one step of the sequential machine, and the
        mutex is free again. */
    twostate predicate Served(route: Route, request: Wire, reply: Reply)
      reads this, repr
    {
      && !held && Valid()
      && (view, reply) == Serve(old(view), At(route, request))
    }

    // -------------------------------------------------------------- metadata

    method ServeUpdateEntity(request: Wire) returns (reply: Reply)
      requires !held && Valid()
      modifies this
      ensures Served(UpdateEntity, request, reply)
    {
      if request.content.Malformed? || request.content.body.entity.code == ""
         || request.content.body.entity.name == "" || request.content.body.idempotencyKey == ""
      {
        return Reply(400, Problem(InvalidEntity));
      }
      var body := request.content.body;
      var code := TrimPrefix(request.path, ENTITY_PREFIX);
      if code != body.entity.code || '/' in code {
        return Reply(400, Problem(EntityCodeMismatch));
      }
      Lock();
      if body.idempotencyKey in idempotency {
        Unlock();
        var cached := idempotency[body.idempotencyKey];
        return Reply(cached.status, Stored(ValueIn(cached.value)));
      }
      reply := UpdateEntityLoaded(code, body, request.clock);
    }

    method UpdateEntityLoaded(code: string, body: Body, clock: Clock) returns (reply: Reply)
      requires held && Valid()
      modifies this
      ensures !held && Valid()
      ensures (view, reply) == Settle(old(view), JudgeUpdateEntity(old(view), code, body), body.idempotencyKey, clock)
    {
      var present := code in entities;
      if (present && entities[code].version != body.expectedVersion)
         || (!present && body.expectedVersion != 0)
      {
        Unlock();
        return Reply(409, Problem(VersionConflict));
      }
      reply := UpdateEntityAccepted(code, body, clock);
    }

    /** The entity of the body as it is decoded, with the version that follows the stored one. */
    method NextEntity(code: string, body: Body) returns (decoded: EntityStruct)
      requires if code in entities then entities[code].version == body.expectedVersion else body.expectedVersion == 0
      ensures InBounds(decoded.fields) && EntityOf(decoded) == body.entity.(version := body.expectedVersion + 1)
    {
      decoded := DecodeEntity(body.entity);
      if code in entities {
        decoded := decoded.(version := entities[code].version + 1);
      } else {
        decoded := decoded.(version := 1);
      }
    }

    method UpdateEntityAccepted(code: string, body: Body, clock: Clock) returns (reply: Reply)
      requires held && Valid()
      requires if code in entities then entities[code].version == body.expectedVersion else body.expectedVersion == 0
      modifies this
      ensures !held && Valid()
      ensures (view, reply) == Settle(old(view), JudgeUpdateEntity(old(view), code, body), body.idempotencyKey, clock)
    {
      var present := code in entities;
      var decoded := NextEntity(code, body);
      ghost var value := body.entity.(version := body.expectedVersion + 1);
      StoreClones(code, body.idempotencyKey, decoded, value);
      var action := EntityCreated;
      if present {
        action := EntityUpdated;
      }
      EntitySettles(old(view), code, body, clock);
      AppendAudit(Entry(action, code, VersionDetails(decoded.version)), clock);
      Unlock();
      reply := Reply(200, Stored(EntityValue(EntityOf(decoded))));
    }

    /** Stores one copy of the entity and records another, so that neither shares its list of fields. */
    method StoreClones(code: string, key: string, entity: EntityStruct, ghost value: Entity)
      requires held && Valid() && InBounds(entity.fields) && EntityOf(entity) == value
      modifies this`entities, this`idempotency, this`view, this`repr
      ensures Valid()
      ensures view == old(view).(entities := old(view.entities)[code := value],
                                 idempotency := old(view.idempotency)[key := Cached(200, EntityValue(value))])
      ensures code in entities && fresh(entities[code].fields.backing)
      ensures key in idempotency && fresh(Behind(idempotency[key].value))
      ensures entities[code].fields.backing !in Behind(idempotency[key].value)
    {
      var stored := CloneEntity(entity);
      PutEntity(code, stored);
      var updated := CloneEntity(entity);
      PutRecord(key, EntityRecord(updated));
    }

    method ServePlanDeletion(request: Wire) returns (reply: Reply)
      requires !held && Valid()
      modifies this
      ensures Served(PlanDeletion, request, reply)
    {
      var code := TrimSuffix(TrimPrefix(request.path, ENTITY_PREFIX), "/delete-plan");
      if request.content.Malformed? || request.content.body.expectedVersion < 0
         || request.content.body.idempotencyKey == ""
      {
        return Reply(400, Problem(InvalidMutation));
      }
      var body := request.content.body;
      Lock();
      if body.idempotencyKey in idempotency {
        Unlock();
        var cached := idempotency[body.idempotencyKey];
        return Reply(cached.status, Stored(ValueIn(cached.value)));
      }
      reply := PlanDeletionLoaded(code, body, request.clock);
    }

    method PlanDeletionLoaded(code: string, body: Body, clock: Clock) returns (reply: Reply)
      requires held && Valid()
      modifies this
      ensures !held && Valid()
      ensures (view, reply) == Settle(old(view), JudgePlanDeletion(old(view), code, body), body.idempotencyKey, clock)
    {
      if code !in entities {
        Unlock();
        return Reply(404, Problem(EntityNotFound));
      }
      if entities[code].version != body.expectedVersion {
        Unlock();
        return Reply(409, Problem(VersionConflict));
      }
      var preview := DeletionPlan(code, entities[code].version, true, [],
                                  IMPACT_SUMMARY);
      PutRecord(body.idempotencyKey, PlainRecord(PlanValue(preview)));
      Unlock();
      reply := Reply(200, Stored(PlanValue(preview)));
    }

    method ServeDeleteEntity(request: Wire) returns (reply: Reply)
      requires !held && Valid()
      modifies this
      ensures Served(DeleteEntity, request, reply)
    {
      var code := TrimPrefix(request.path, ENTITY_PREFIX);
      if request.content.Malformed? || request.content.body.expectedVersion < 0
         || request.content.body.idempotencyKey == ""
      {
        return Reply(400, Problem(InvalidMutation));
      }
      var body := request.content.body;
      if body.confirmation != DELETE_ENTITY {
        return Reply(400, Problem(ConfirmationRequired));
      }
      Lock();
      if body.idempotencyKey in idempotency {
        Unlock();
        var cached := idempotency[body.idempotencyKey];
        return Reply(cached.status, Stored(ValueIn(cached.value)));
      }
      reply := DeleteEntityLoaded(code, body, request.clock);
    }

    method DeleteEntityLoaded(code: string, body: Body, clock: Clock) returns (reply: Reply)
      requires held && Valid()
      modifies this
      ensures !held && Valid()
      ensures (view, reply)
           == Settle(old(view), JudgeDeleteEntity(old(view), code, body, clock), body.idempotencyKey, clock)
    {
      if code !in entities {
        Unlock();
        return Reply(404, Problem(EntityNotFound));
      }
      var entity := entities[code];
      if entity.version != body.expectedVersion {
        Unlock();
        return Reply(409, Problem(VersionConflict));
      }
      RemoveEntity(code);
      var receipt := Receipt(code, entity.version, clock.changedAt);
      PutRecord(body.idempotencyKey, PlainRecord(ReceiptValue(receipt)));
      AppendAudit(Entry(EntityDeleted, code, DeletedDetails(entity.version)),
                  clock);
      Unlock();
      reply := Reply(200, Stored(ReceiptValue(receipt)));
    }

    // -------------------------------------------------------------- identity

    method ServeCreateUser(request: Wire) returns (reply: Reply)
      requires !held && Valid()
      modifies this
      ensures Served(CreateUser, request, reply)
    {
      if request.content.Malformed? || request.content.body.id == ""
         || request.content.body.displayName == "" || request.content.body.idempotencyKey == ""
      {
        return Reply(400, Problem(InvalidUser));
      }
      var body := request.content.body;
      Lock();
      var hit, cached := WriteCached(body.idempotencyKey);
      if hit {
        return cached;
      }
      reply := CreateUserLoaded(body, request.clock);
    }

    method CreateUserLoaded(body: Body, clock: Clock) returns (reply: Reply)
      requires held && Valid()
      modifies this
      ensures !held && Valid()
      ensures (view, reply) == Settle(old(view), JudgeCreateUser(old(view), body), body.idempotencyKey, clock)
    {
      if body.id in users {
        Unlock();
        return Reply(409, Problem(UserExists));
      }
      var user := NewUser(body.id, body.displayName, body.email);
      NewUserSettles(view, body, clock);
      PutUser(user.id, user);
      CacheAndAudit(body.idempotencyKey, UserRecord(user),
                    Entry(UserCreated, user.id, VersionDetails(user.version)),
                    clock);
      Unlock();
      reply := Reply(200, Stored(UserValue(UserOf(user))));
    }

    method ServeSetUserStatus(request: Wire) returns (reply: Reply)
      requires !held && Valid()
      modifies this
      ensures Served(SetUserStatus, request, reply)
    {
      if request.content.Malformed? || request.content.body.idempotencyKey == ""
         || request.content.body.confirmation != DISABLE_USER
         || (request.content.body.status != ACTIVE && request.content.body.status != DISABLED)
      {
        return Reply(400, Problem(InvalidStatus));
      }
      var body := request.content.body;
      var parts := PathParts(request.path);
      if |parts| != 6 {
        return Reply(400, Problem(InvalidPath));
      }
      var id := parts[4];
      Lock();
      var hit, cached := WriteCached(body.idempotencyKey);
      if hit {
        return cached;
      }
      reply := SetStatusLoaded(id, body, request.clock);
    }

    method SetStatusLoaded(id: string, body: Body, clock: Clock) returns (reply: Reply)
      requires held && Valid()
      modifies this
      ensures !held && Valid()
      ensures (view, reply) == Settle(old(view), JudgeSetUserStatus(old(view), id, body), body.idempotencyKey, clock)
    {
      if id !in users || users[id].version != body.expectedVersion {
        Unlock();
        return Reply(409, Problem(VersionConflict));
      }
      var user := users[id].(status := body.status, version := users[id].version + 1);
      PutUser(id, user);
      CacheAndAudit(body.idempotencyKey, UserRecord(user),
                    Entry(UserStatusSet, id, StatusDetails(body.status, user.version)),
                    clock);
      Unlock();
      reply := Reply(200, Stored(UserValue(UserOf(user))));
    }

    method ServeCreateRole(request: Wire) returns (reply: Reply)
      requires !held && Valid()
      modifies this
      ensures Served(CreateRole, request, reply)
    {
      if request.content.Malformed? || request.content.body.key == ""
         || request.content.body.displayName == "" || request.content.body.idempotencyKey == ""
      {
        return Reply(400, Problem(InvalidRole));
      }
      var body := request.content.body;
      Lock();
      var hit, cached := WriteCached(body.idempotencyKey);
      if hit {
        return cached;
      }
      reply := CreateRoleLoaded(body, request.clock);
    }

    method CreateRoleLoaded(body: Body, clock: Clock) returns (reply: Reply)
      requires held && Valid()
      modifies this
      ensures !held && Valid()
      ensures (view, reply) == Settle(old(view), JudgeCreateRole(old(view), body), body.idempotencyKey, clock)
    {
      if body.key in roles {
        Unlock();
        return Reply(409, Problem(RoleExists));
      }
      var role := Role(body.key, body.displayName, false, 1);
      PutRole(role.key, role);
      CacheAndAudit(body.idempotencyKey, PlainRecord(RoleValue(role)),
                    Entry(RoleCreated, role.key, VersionDetails(role.version)),
                    clock);
      Unlock();
      reply := Reply(200, Stored(RoleValue(role)));
    }

    method ServeUpdateRole(request: Wire) returns (reply: Reply)
      requires !held && Valid()
      modifies this
      ensures Served(UpdateRole, request, reply)
    {
      if request.content.Malformed? || request.content.body.displayName == ""
         || request.content.body.idempotencyKey == ""
      {
        return Reply(400, Problem(InvalidRole));
      }
      var body := request.content.body;
      var key := TrimPrefix(request.path, ROLE_PREFIX);
      Lock();
      var hit, cached := WriteCached(body.idempotencyKey);
      if hit {
        return cached;
      }
      reply := UpdateRoleLoaded(key, body, request.clock);
    }

    method UpdateRoleLoaded(key: string, body: Body, clock: Clock) returns (reply: Reply)
      requires held && Valid()
      modifies this
      ensures !held && Valid()
      ensures (view, reply) == Settle(old(view), JudgeUpdateRole(old(view), key, body), body.idempotencyKey, clock)
    {
      if key !in roles || roles[key].version != body.expectedVersion {
        Unlock();
        return Reply(409, Problem(VersionConflict));
      }
      var role := roles[key];
      if role.system {
        Unlock();
        return Reply(400, Problem(SystemRole));
      }
      role := role.(displayName := body.displayName, version := role.version + 1);
      PutRole(key, role);
      CacheAndAudit(body.idempotencyKey, PlainRecord(RoleValue(role)),
                    Entry(RoleUpdated, key, VersionDetails(role.version)),
                    clock);
      Unlock();
      reply := Reply(200, Stored(RoleValue(role)));
    }

    method ServeChangeUserRole(request: Wire) returns (reply: Reply)
      requires !held && Valid() && (request.verb == PUT || request.verb == DELETE)
      requires Apart(users, idempotency)
      modifies this, repr
      ensures Served(ChangeUserRole, request, reply)
    {
      if request.content.Malformed? || request.content.body.idempotencyKey == "" {
        return Reply(400, Problem(InvalidAssignment));
      }
      var body := request.content.body;
      var parts := PathParts(request.path);
      if |parts| != 7 {
        return Reply(400, Problem(InvalidPath));
      }
      var userId, roleKey := parts[4], parts[6];
      Lock();
      var hit, cached := WriteCached(body.idempotencyKey);
      if hit {
        return cached;
      }
      reply := ChangeLoaded(userId, roleKey, request.verb, body, request.clock);
    }

    /** Rewrites one user's list in its own array, which nothing else shares. */
    method RewriteRoles(id: string, key: string, assign: bool) returns (user: UserStruct)
      requires held && Valid() && id in users && Apart(users, idempotency)
      modifies this`users, this`view, this`repr, users[id].roles.backing
      ensures Valid() && users == old(users)[id := user] && InBounds(user.roles)
      ensures UserOf(user) == Rewritten(old(view.users[id]), key, assign)
      ensures view == old(view).(users := old(view.users)[id := UserOf(user)])
    {
      user := RewriteUser(users, id, key, assign, repr, entities, idempotency, view);
      AdoptUser(id, user, view.users);
    }

    method ChangeLoaded(userId: string, roleKey: string, verb: Verb, body: Body, clock: Clock)
      returns (reply: Reply)
      requires held && Valid() && verb in {PUT, DELETE} && Apart(users, idempotency)
      modifies this, repr
      ensures !held && Valid()
      ensures (view, reply)
           == Settle(old(view), JudgeChangeUserRole(old(view), verb == PUT, userId, roleKey, body),
                     body.idempotencyKey, clock)
    {
      if userId !in users || roleKey !in roles || users[userId].version != body.expectedVersion {
        Unlock();
        return Reply(409, Problem(VersionConflict));
      }
      var user := RewriteRoles(userId, roleKey, verb == PUT);
      RolesSettle(old(view), verb == PUT, userId, roleKey, body, clock);
      var action := if verb == DELETE then RoleRevoked else RoleAssigned;
      CacheAndAudit(body.idempotencyKey, UserRecord(user),
                    Entry(action, userId, RoleDetails(roleKey, user.version)), clock);
      Unlock();
      reply := Reply(200, Stored(UserValue(UserOf(user))));
    }

    // -------------------------------------------------------------- workflow and quota

    method ServeWorkflow(request: Wire, confirmation: string, retry: bool) returns (reply: Reply)
      requires !held && Valid()
      requires confirmation == if retry then RETRY_TASK else CANCEL_RUN
      modifies this
      ensures Served(if retry then RetryTask else CancelRun, request, reply)
    {
      if request.content.Malformed? || request.content.body.confirmation != confirmation
         || request.content.body.idempotencyKey == ""
      {
        return Reply(400, Problem(InvalidWorkflowMutation));
      }
      var body := request.content.body;
      Lock();
      var hit, cached := WriteCached(body.idempotencyKey);
      if hit {
        return cached;
      }
      if retry {
        reply := RetryLoaded(body, request.clock);
      } else {
        reply := CancelLoaded(body, request.clock);
      }
    }

    method MarkRunning(clock: Clock)
      requires held && Valid()
      modifies this`run, this`task, this`view
      ensures Valid()
      ensures view == old(view).(run := old(view.run).(state := "running", version := old(view.run.version) + 1,
                                                       updatedAt := clock.changedAt),
                                 task := old(view.task).(state := "running", attempt := old(view.task.attempt) + 1,
                                                         version := old(view.task.version) + 1))
    {
      task := task.(state := "running", attempt := task.attempt + 1, version := task.version + 1);
      run := run.(state := "running", version := run.version + 1, updatedAt := clock.changedAt);
      view := view.(run := run, task := task);
    }

    method MarkCancelled(clock: Clock)
      requires held && Valid()
      modifies this`run, this`view
      ensures Valid()
      ensures view == old(view).(run := old(view.run).(state := "cancelled", version := old(view.run.version) + 1,
                                                       updatedAt := clock.changedAt, leaseState := "none",
                                                       leaseExpiresAt := ""))
    {
      run := run.(state := "cancelled", version := run.version + 1, updatedAt := clock.changedAt);
      run := run.(leaseState := "none", leaseExpiresAt := "");
      view := view.(run := run);
    }

    method ReplacePlan(published: QuotaPlan)
      requires held && Valid()
      modifies this`plan, this`view
      ensures Valid() && view == old(view).(plan := published.(version := old(view.plan.version) + 1))
    {
      plan := published.(version := plan.version + 1);
      view := view.(plan := plan);
    }

    method RetryLoaded(body: Body, clock: Clock) returns (reply: Reply)
      requires held && Valid()
      modifies this
      ensures !held && Valid()
      ensures (view, reply)
           == Settle(old(view), JudgeRetryTask(old(view), body, clock), body.idempotencyKey, clock)
    {
      if task.version != body.expectedVersion {
        Unlock();
        return Reply(409, Problem(VersionConflict));
      }
      MarkRunning(clock);
      CacheAndAudit(body.idempotencyKey, PlainRecord(RunValue(run)),
                    Entry(TaskRetried, task.id, VersionDetails(task.version)), clock);
      reply := Reply(200, Stored(RunValue(run)));
      Unlock();
    }

    method CancelLoaded(body: Body, clock: Clock) returns (reply: Reply)
      requires held && Valid()
      modifies this
      ensures !held && Valid()
      ensures (view, reply)
           == Settle(old(view), JudgeCancelRun(old(view), body, clock), body.idempotencyKey, clock)
    {
      if run.version != body.expectedVersion {
        Unlock();
        return Reply(409, Problem(VersionConflict));
      }
      MarkCancelled(clock);
      CacheAndAudit(body.idempotencyKey, PlainRecord(RunValue(run)),
                    Entry(RunCancelled, run.id, VersionDetails(run.version)), clock);
      reply := Reply(200, Stored(RunValue(run)));
      Unlock();
    }

    method ServePublishPlan(request: Wire) returns (reply: Reply)
      requires !held && Valid()
      modifies this
      ensures Served(PublishPlan, request, reply)
    {
      if request.content.Malformed? || request.content.body.confirmation != PUBLISH_QUOTA_PLAN
         || request.content.body.idempotencyKey == ""
      {
        return Reply(400, Problem(InvalidQuotaPlan));
      }
      var body := request.content.body;
      Lock();
      var hit, cached := WriteCached(body.idempotencyKey);
      if hit {
        return cached;
      }
      reply := PublishLoaded(body, request.clock);
    }

    method PublishLoaded(body: Body, clock: Clock) returns (reply: Reply)
      requires held && Valid()
      modifies this
      ensures !held && Valid()
      ensures (view, reply) == Settle(old(view), JudgePublishPlan(old(view), body), body.idempotencyKey, clock)
    {
      if plan.version != body.expectedVersion {
        Unlock();
        return Reply(409, Problem(VersionConflict));
      }
      ReplacePlan(body.plan);
      CacheAndAudit(body.idempotencyKey, PlainRecord(QuotaValue(plan)),
                    Entry(PlanPublished, plan.code, VersionDetails(plan.version)),
                    clock);
      Unlock();
      reply := Reply(200, Stored(QuotaValue(plan)));
    }

    // -------------------------------------------------------------- the switch

    method ListedEntities() returns (reply: Reply)
      requires held && Valid()
      ensures reply == Reply(200, EntityItems(Listing(view.entities)))
    {
      var codes := SortedKeys(entities.Keys);
      ghost var listing := Listing(view.entities);
      var items := [];
      for i := 0 to |codes|
        invariant items == listing[..i]
      {
        var entity := CloneEntity(entities[codes[i]]);
        items := items + [EntityOf(entity)];
      }
      assert items == listing;
      reply := Reply(200, EntityItems(items));
    }

    method ListedUsers() returns (reply: Reply)
      requires held && Valid()
      ensures reply == Reply(200, UserItems(Listing(view.users)))
    {
      var keys := SortedKeys(users.Keys);
      ghost var listing := Listing(view.users);
      var items := [];
      for i := 0 to |keys|
        invariant items == listing[..i]
      {
        var user := users[keys[i]];
        var copied := Copy(user.roles);
        items := items + [UserOf(user.(roles := copied))];
      }
      assert items == listing;
      reply := Reply(200, UserItems(items));
    }

    method ListedRoles() returns (reply: Reply)
      ensures reply == Reply(200, RoleItems(Listing(roles)))
    {
      var keys := SortedKeys(roles.Keys);
      ghost var listing := Listing(roles);
      var items := [];
      for i := 0 to |keys|
        invariant items == listing[..i]
      {
        items := items + [roles[keys[i]]];
      }
      assert items == listing;
      reply := Reply(200, RoleItems(items));
    }

    method ServeRead(route: Route, request: Wire) returns (reply: Reply)
      requires !held && Valid() && !IsMutation(route)
      modifies this`held
      ensures Served(route, request, reply)
    {
      Lock();
      match route {
      case ListEntities => reply := ListedEntities();
      case ListUsers => reply := ListedUsers();
      case ListRoles => reply := ListedRoles();
      case ListRuns => reply := Reply(200, RunItem(run));
      case ListTasks => reply := Reply(200, TaskItem(task));
      case ListPlans => reply := Reply(200, QuotaItem(plan));
      case ListUsage => reply := Reply(200, Sample("usage"));
      case ListDiscrepancies => reply := Reply(200, Sample("discrepancies"));
      case ListAudit => reply := Reply(200, AuditItems(audits));
      case MigrationPreview => reply := Reply(200, Preview(request.path == MIGRATION_APPLY));
      case _ => reply := Reply(404, Problem(NotFoundCode));
      }
      Unlock();
    }

    method ServeLoaded(request: Wire) returns (reply: Reply)
      requires !held && Valid() && Apart(users, idempotency)
      modifies this, repr
      ensures !held && Valid() && (view, reply) == Serve(old(view), Arrive(request))
    {
      var route := Dispatch(request.verb, request.path);
      match route
      case UpdateEntity => reply := ServeUpdateEntity(request);
      case PlanDeletion => reply := ServePlanDeletion(request);
      case DeleteEntity => reply := ServeDeleteEntity(request);
      case CreateUser => reply := ServeCreateUser(request);
      case SetUserStatus => reply := ServeSetUserStatus(request);
      case CreateRole => reply := ServeCreateRole(request);
      case UpdateRole => reply := ServeUpdateRole(request);
      case ChangeUserRole => reply := ServeChangeUserRole(request);
      case CancelRun => reply := ServeWorkflow(request, CANCEL_RUN, false);
      case RetryTask => reply := ServeWorkflow(request, RETRY_TASK, true);
      case PublishPlan => reply := ServePublishPlan(request);
      case _ => reply := ServeRead(route, request);
    }

    // -------------------------------------------------------------- one transaction

    /** Locks and loads the row, serves the request in memory, saves and commits, with every
        storage failure the database may report. A commit may fail after it took effect. */
    method ServePersisted(row: Row, request: Wire, fault: Fault) returns (reply: Reply)
      requires !held && RecordsSucceed(StateIn(row.payload))
      modifies this, row
      ensures !held && RecordsSucceed(StateIn(row.payload))
      ensures fault.NoFault? ==> reply == Serve(StateIn(old(row.payload)), Arrive(request)).1
      ensures fault != NoFault ==> reply == Reply(503, Problem(StorageUnavailable))
      ensures row.payload
           == if fault in {NoFault, CommitUnconfirmed}
              then Encode(Serve(StateIn(old(row.payload)), Arrive(request)).0)
              else old(row.payload)
      ensures row.revision
           == old(row.revision) + if fault in {NoFault, CommitUnconfirmed} then 1 else 0
    {
      var unavailable := Reply(503, Problem(StorageUnavailable));
      if fault == BeginFails || fault == LoadFails {
        return unavailable;
      }
      var state, arrays := Unmarshal(row.payload);
      LoadState(state, arrays, row.payload);
      var buffered := ServeLoaded(request);
      ServeStatus(StateIn(row.payload), Arrive(request));
      var payload, revision := row.payload, row.revision;
      if buffered.status < 500 {
        var snapshot := SnapshotState();
        payload := Marshal(snapshot, repr, Encode(view));
        revision := row.revision + 1;
        if fault == SaveFails {
          return unavailable;
        }
      }
      if fault == CommitFails {
        return unavailable;
      }
      row.payload, row.revision := payload, revision;
      if fault == CommitUnconfirmed {
        return unavailable;
      }
      reply := buffered;
    }
  }

  /** The durable row of the state table. */
  class Row {
    var payload: Encoded
    var revision: nat

    constructor ()
      ensures payload == Encode(InitialState()) && revision == 1
    {
      payload := Encode(InitialState());
      revision := 1;
    }
  }

  datatype Fault = NoFault | BeginFails | LoadFails | SaveFails | CommitFails | CommitUnconfirmed
}
