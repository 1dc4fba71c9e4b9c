/** The provider's entities, users and records as the Go structs they are. The lists in them are
    slices, so two structs that were copied from one another share a backing array. */
module Structs {
  import opened Text
  import opened ProviderModel
  import opened RoleList

  datatype EntityStruct = EntityStruct(code: string, name: string, kind: string, version: int, fields: Slice<Field>)
  datatype UserStruct = UserStruct(id: string, displayName: string, email: string, status: string,
                                   roles: Slice<string>, version: int)
  datatype Recorded = EntityRecord(entity: EntityStruct) | UserRecord(user: UserStruct) | PlainRecord(value: Value)
  datatype CachedStruct = CachedStruct(status: int, value: Recorded)

  type Entities = map<string, EntityStruct>
  type Users = map<string, UserStruct>
  type Records = map<string, CachedStruct>

  // ---------------------------------------------------------------- what the structs say

  ghost predicate ValidRecord(recorded: Recorded) {
    match recorded
    case EntityRecord(entity) => InBounds(entity.fields)
    case UserRecord(user) => InBounds(user.roles)
    case PlainRecord(_) => true
  }

  function EntityOf(entity: EntityStruct): Entity
    requires InBounds(entity.fields)
    reads entity.fields.backing
  {
    Entity(entity.code, entity.name, entity.kind, entity.version, Contents(entity.fields))
  }

  function UserOf(user: UserStruct): User
    requires InBounds(user.roles)
    reads user.roles.backing
  {
    User(user.id, user.displayName, user.email, user.status, Contents(user.roles), user.version)
  }

  /** The array behind the list of a record, if it has one. */
  function Behind(recorded: Recorded): set<object> {
    match recorded
    case EntityRecord(entity) => {entity.fields.backing}
    case UserRecord(user) => {user.roles.backing}
    case PlainRecord(_) => {}
  }

  function ValueIn(recorded: Recorded): Value
    requires ValidRecord(recorded)
    reads Behind(recorded)
  {
    match recorded
    case EntityRecord(entity) => EntityValue(EntityOf(entity))
    case UserRecord(user) => UserValue(UserOf(user))
    case PlainRecord(value) => value
  }

  function CachedOf(cached: CachedStruct): Cached
    requires ValidRecord(cached.value)
    reads Behind(cached.value)
  {
    Cached(cached.status, ValueIn(cached.value))
  }

  /** Read in the arrays of `repr`, the structs are these values. */
  ghost predicate ShowEntities(repr: set<object>, entities: Entities, values: map<string, Entity>)
    reads repr
  {
    && entities.Keys == values.Keys
    && forall code | code in entities ::
         entities[code].fields.backing in repr && InBounds(entities[code].fields)
         && EntityOf(entities[code]) == values[code]
  }

  ghost predicate ShowUsers(repr: set<object>, users: Users, values: map<string, User>)
    reads repr
  {
    && users.Keys == values.Keys
    && forall id | id in users ::
         users[id].roles.backing in repr && InBounds(users[id].roles) && UserOf(users[id]) == values[id]
  }

  ghost predicate ShowRecords(repr: set<object>, records: Records, values: map<string, Cached>)
    reads repr
  {
    && records.Keys == values.Keys
    && forall key | key in records ::
         Behind(records[key].value) <= repr && ValidRecord(records[key].value) && CachedOf(records[key]) == values[key]
  }

  lemma PutShowsEntity(repr: set<object>, entities: Entities, values: map<string, Entity>, code: string,
                       entity: EntityStruct)
    requires ShowEntities(repr, entities, values) && InBounds(entity.fields)
    ensures ShowEntities(repr + {entity.fields.backing}, entities[code := entity], values[code := EntityOf(entity)])
  {
  }

  lemma PutShowsUser(repr: set<object>, users: Users, values: map<string, User>, id: string, user: UserStruct)
    requires ShowUsers(repr, users, values) && InBounds(user.roles)
    ensures ShowUsers(repr + {user.roles.backing}, users[id := user], values[id := UserOf(user)])
  {
  }

  lemma PutShowsRecord(repr: set<object>, records: Records, values: map<string, Cached>, key: string,
                       cached: CachedStruct)
    requires ShowRecords(repr, records, values) && ValidRecord(cached.value)
    ensures ShowRecords(repr + Behind(cached.value), records[key := cached], values[key := CachedOf(cached)])
  {
  }

  // More arrays do not change what the structs say.

  lemma ShowMoreEntities(repr: set<object>, more: set<object>, entities: Entities, values: map<string, Entity>)
    requires ShowEntities(repr, entities, values) && repr <= more
    ensures ShowEntities(more, entities, values)
  {
  }

  lemma ShowMoreUsers(repr: set<object>, more: set<object>, users: Users, values: map<string, User>)
    requires ShowUsers(repr, users, values) && repr <= more
    ensures ShowUsers(more, users, values)
  {
  }

  lemma ShowMoreRecords(repr: set<object>, more: set<object>, records: Records, values: map<string, Cached>)
    requires ShowRecords(repr, records, values) && repr <= more
    ensures ShowRecords(more, records, values)
  {
  }

  // ---------------------------------------------------------------- who shares what

  /** No user's list lies in an array of another user or of a record. */
  ghost predicate Apart(users: Users, records: Records) {
    && (forall i, j | i in users && j in users && i != j :: users[i].roles.backing != users[j].roles.backing)
    && forall i | i in users :: forall key | key in records :: users[i].roles.backing !in Behind(records[key].value)
  }

  /** Read in the arrays of `repr`, the maps are those of a state. */
  ghost predicate Show(repr: set<object>, entities: Entities, records: Records, users: Users, s: State)
    reads repr
  {
    && ShowEntities(repr, entities, s.entities) && ShowRecords(repr, records, s.idempotency)
    && ShowUsers(repr, users, s.users)
  }

  /** Rewrites one user's list in its own array: no record and no other user's list changes. */
  method RewriteUser(users: Users, id: string, key: string, assign: bool, ghost repr: set<object>,
                     ghost entities: Entities, ghost records: Records, ghost s: State) returns (user: UserStruct)
    requires Show(repr, entities, records, users, s) && id in users && Apart(users, records)
    modifies users[id].roles.backing
    ensures InBounds(user.roles) && UserOf(user) == Rewritten(s.users[id], key, assign)
    ensures user.roles.backing == users[id].roles.backing || fresh(user.roles.backing)
    ensures Show(repr + {user.roles.backing}, entities, records, users[id := user],
                 s.(users := s.users[id := UserOf(user)]))
  {
    user := users[id];
    var changed := ChangeRoles(user.roles, key, assign);
    assert ShowEntities(repr, entities, s.entities) && ShowRecords(repr, records, s.idempotency);
    assert ShowUsers(repr, users - {id}, s.users - {id});
    user := user.(roles := changed, version := user.version + 1);
    PutOther(repr, entities, records, users, s, id, user);
  }

  lemma PutOther(repr: set<object>, entities: Entities, records: Records, users: Users, s: State, id: string,
                 user: UserStruct)
    requires ShowEntities(repr, entities, s.entities) && ShowRecords(repr, records, s.idempotency)
    requires ShowUsers(repr, users - {id}, s.users - {id}) && InBounds(user.roles)
    ensures Show(repr + {user.roles.backing}, entities, records, users[id := user],
                 s.(users := s.users[id := UserOf(user)]))
  {
    assert users[id := user] == (users - {id})[id := user];
    assert s.users[id := UserOf(user)] == (s.users - {id})[id := UserOf(user)];
    PutShowsUser(repr, users - {id}, s.users - {id}, id, user);
    ShowMoreEntities(repr, repr + {user.roles.backing}, entities, s.entities);
    ShowMoreRecords(repr, repr + {user.roles.backing}, records, s.idempotency);
  }

  // ---------------------------------------------------------------- copies

  /** Go's `append([]T(nil), s...)`: the same elements in an array of their own. */
  method Copy<T>(slice: Slice<T>) returns (copy: Slice<T>)
    requires InBounds(slice)
    ensures fresh(copy.backing) && InBounds(copy) && Contents(copy) == Contents(slice)
  {
    var elements := Contents(slice);
    var backing := new T[slice.length](i requires 0 <= i < |elements| => elements[i]);
    copy := Slice(backing, slice.length);
  }

  /** `cloneEntity`. */
  method CloneEntity(source: EntityStruct) returns (clone: EntityStruct)
    requires InBounds(source.fields)
    ensures fresh(clone.fields.backing) && InBounds(clone.fields) && EntityOf(clone) == EntityOf(source)
  {
    var fields := Copy(source.fields);
    clone := source.(fields := fields);
  }

  /** `cloneEntities`: the copies share no list of fields with the originals or with one another. */
  method CloneEntities(entities: seq<EntityStruct>) returns (cloned: seq<EntityStruct>)
    requires forall i | 0 <= i < |entities| :: InBounds(entities[i].fields)
    ensures |cloned| == |entities|
    ensures forall i | 0 <= i < |cloned| ::
              && fresh(cloned[i].fields.backing) && InBounds(cloned[i].fields)
              && EntityOf(cloned[i]) == EntityOf(entities[i])
    ensures forall i, j | 0 <= i < j < |cloned| :: cloned[i].fields.backing != cloned[j].fields.backing
  {
    var copies := new EntityStruct[|entities|](i requires 0 <= i < |entities| => entities[i]);
    for i := 0 to |entities|
      invariant forall k | i <= k < |entities| :: copies[k] == entities[k]
      invariant forall k | 0 <= k < i ::
                  && fresh(copies[k].fields.backing) && InBounds(copies[k].fields)
                  && EntityOf(copies[k]) == EntityOf(entities[k])
      invariant forall j, k | 0 <= j < k < i :: copies[j].fields.backing != copies[k].fields.backing
    {
      var fields := Copy(entities[i].fields);
      copies[i] := copies[i].(fields := fields);
    }
    cloned := copies[..];
  }

  /** An active user with an empty list of roles. */
  method NewUser(id: string, displayName: string, email: string) returns (user: UserStruct)
    ensures fresh(user.roles.backing) && InBounds(user.roles)
    ensures UserOf(user) == User(id, displayName, email, ACTIVE, [], 1)
  {
    var none := new string[0];
    user := UserStruct(id, displayName, email, ACTIVE, Slice(none, 0), 1);
  }

  // ---------------------------------------------------------------- decoding

  /** A list as decoding makes it: in an array of its own, with any room to spare. */
  method Decoded<T>(list: seq<T>, filler: T) returns (slice: Slice<T>)
    ensures fresh(slice.backing) && InBounds(slice) && Contents(slice) == list
  {
    var spare: nat :| true;
    var backing := new T[|list| + spare](i requires 0 <= i => if i < |list| then list[i] else filler);
    slice := Slice(backing, |list|);
    assert backing[..|list|] == list;
  }

  method DecodeEntity(entity: Entity) returns (decoded: EntityStruct)
    ensures fresh(decoded.fields.backing) && InBounds(decoded.fields) && EntityOf(decoded) == entity
  {
    var fields := Decoded(entity.fields, Field("", "", false, false));
    decoded := EntityStruct(entity.code, entity.name, entity.kind, entity.version, fields);
  }

  method DecodeUser(user: User) returns (decoded: UserStruct)
    ensures fresh(decoded.roles.backing) && InBounds(decoded.roles) && UserOf(decoded) == user
  {
    var roles := Decoded(user.roles, "");
    decoded := UserStruct(user.id, user.displayName, user.email, user.status, roles, user.version);
  }

  method DecodeValue(value: Value) returns (decoded: Recorded)
    ensures fresh(Behind(decoded)) && ValidRecord(decoded) && ValueIn(decoded) == value
  {
    match value
    case EntityValue(entity) =>
      var clone := DecodeEntity(entity);
      decoded := EntityRecord(clone);
    case UserValue(user) =>
      var clone := DecodeUser(user);
      decoded := UserRecord(clone);
    case _ => decoded := PlainRecord(value);
  }

  function Values(entities: seq<EntityStruct>): seq<Entity>
    requires forall i | 0 <= i < |entities| :: InBounds(entities[i].fields)
    reads set i | 0 <= i < |entities| :: entities[i].fields.backing
  {
    if entities == [] then [] else [EntityOf(entities[0])] + Values(entities[1..])
  }

  lemma {:induction false} ValuesAt(entities: seq<EntityStruct>, values: seq<Entity>)
    requires |entities| == |values|
    requires forall i | 0 <= i < |entities| :: InBounds(entities[i].fields) && EntityOf(entities[i]) == values[i]
    ensures Values(entities) == values
  {
    if entities != [] {
      ValuesAt(entities[1..], values[1..]);
      assert values == [values[0]] + values[1..];
    }
  }

  method DecodeList(entities: seq<Entity>) returns (decoded: seq<EntityStruct>)
    ensures |decoded| == |entities|
    ensures forall i | 0 <= i < |decoded| ::
              && InBounds(decoded[i].fields) && fresh(decoded[i].fields.backing)
              && EntityOf(decoded[i]) == entities[i]
  {
    decoded := [];
    for i := 0 to |entities|
      invariant |decoded| == i
      invariant forall k | 0 <= k < i ::
                  && InBounds(decoded[k].fields) && fresh(decoded[k].fields.backing)
                  && EntityOf(decoded[k]) == entities[k]
    {
      var entity := DecodeEntity(entities[i]);
      decoded := decoded + [entity];
    }
  }

  method DecodeEntities(entities: map<string, Entity>) returns (decoded: Entities, ghost repr: set<object>)
    ensures fresh(repr) && ShowEntities(repr, decoded, entities)
  {
    decoded, repr := map[], {};
    var rest := entities.Keys;
    while rest != {}
      invariant rest <= entities.Keys && fresh(repr)
      invariant ShowEntities(repr, decoded, entities - rest)
      decreases rest
    {
      var code :| code in rest;
      var entity := DecodeEntity(entities[code]);
      decoded, repr := decoded[code := entity], repr + {entity.fields.backing};
      rest := rest - {code};
    }
    assert entities - {} == entities;
  }

  method DecodeUsers(users: map<string, User>) returns (decoded: Users, ghost repr: set<object>)
    ensures fresh(repr) && ShowUsers(repr, decoded, users) && Apart(decoded, map[])
  {
    decoded, repr := map[], {};
    var rest := users.Keys;
    while rest != {}
      invariant rest <= users.Keys && fresh(repr)
      invariant ShowUsers(repr, decoded, users - rest) && Apart(decoded, map[])
      decreases rest
    {
      var id :| id in rest;
      var user := DecodeUser(users[id]);
      decoded, repr := decoded[id := user], repr + {user.roles.backing};
      rest := rest - {id};
    }
    assert users - {} == users;
  }

  method DecodeRecords(records: map<string, Cached>) returns (decoded: Records, ghost repr: set<object>)
    ensures fresh(repr) && ShowRecords(repr, decoded, records)
  {
    decoded, repr := map[], {};
    var rest := records.Keys;
    while rest != {}
      invariant rest <= records.Keys && fresh(repr)
      invariant ShowRecords(repr, decoded, records - rest)
      decreases rest
    {
      var key :| key in rest;
      var value := DecodeValue(records[key].value);
      decoded, repr := decoded[key := CachedStruct(records[key].status, value)], repr + Behind(value);
      rest := rest - {key};
    }
    assert records - {} == records;
  }
}
