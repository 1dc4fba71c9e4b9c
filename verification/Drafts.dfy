/** A session's draft map: operation snapshots and idempotency keys share one map, and yet each
    behaves like a dictionary of its own. */
module Drafts {
  import opened Counting
  import opened Text
  import opened ProviderModel

  const MAX_SESSION_DRAFTS: nat := 128

  /** What a session may hold under one key of its map. */
  datatype Draft =
    | Key(text: string)
    | Deletion(plan: DeletionPlan, planScope: string)
    | Migration(entities: seq<Entity>, plans: seq<string>, planScope: string)

  type Table = map<string, Draft>

  predicate SafeCategory(category: string) {
    && category != "" && |category| <= 64
    && forall i | 0 <= i < |category| :: 'a' <= category[i] <= 'z' || IsDigit(category[i]) || category[i] == '-'
  }

  const STATE: string := "state:"

  function StateKey(category: string, reference: string): string {
    STATE + category + ":" + reference
  }

  // ---------------------------------------------------------------- operations

  /** The operations on the draft map of an active session. A random draw may fail. */
  datatype Op =
    | Store(category: string, draft: Option<Draft>, draws: seq<Option<string>>)
    | Load(category: string, reference: string)
    | Delete(category: string, reference: string)
    | KeyFor(scope: string, draw: Option<string>)
    | Clear(scope: string)

  datatype Answer = Text(value: string) | Snapshot(found: Option<Draft>) | Done | Refused

  /** The first draw that names no stored snapshot, unless a draw fails before. */
  function FirstFree(table: Table, category: string, draws: seq<Option<string>>): Option<string> {
    if draws == [] || draws[0] == None then None
    else if StateKey(category, draws[0].value) in table then FirstFree(table, category, draws[1..])
    else draws[0]
  }

  function Perform(table: Table, op: Op): (Table, Answer) {
    match op
    case Store(category, draft, draws) =>
      if !SafeCategory(category) || draft == None || |table| >= MAX_SESSION_DRAFTS then (table, Refused)
      else (
        match FirstFree(table, category, draws)
        case None => (table, Refused)
        case Some(reference) => (table[StateKey(category, reference) := draft.value], Text(reference)))
    case Load(category, reference) =>
      var key := StateKey(category, reference);
      (table, Snapshot(if SafeCategory(category) && reference != "" && |reference| <= 256 && key in table
                       then Some(table[key]) else None))
    case Delete(category, reference) =>
      (if SafeCategory(category) && reference != "" then table - {StateKey(category, reference)} else table, Done)
    case KeyFor(scope, draw) =>
      if scope == "" || |scope| > 1024 then (table, Refused)
      else if scope in table && table[scope].Key? && table[scope].text != "" then (table, Text(table[scope].text))
      else if |table| >= MAX_SESSION_DRAFTS || draw == None then (table, Refused)
      else (table[scope := Key(draw.value)], Text(draw.value))
    case Clear(scope) => (table - {scope}, Done)
  }

  function PerformAll(table: Table, ops: seq<Op>): Table
    decreases |ops|
  {
    if ops == [] then table else PerformAll(Perform(table, ops[0]).0, ops[1..])
  }

  /** The map never holds more than its limit. */
  lemma {:induction false} AlwaysBounded(table: Table, ops: seq<Op>)
    requires |table| <= 128
    ensures |PerformAll(table, ops)| <= 128
    decreases |ops|
  {
    if ops != [] {
      var next := Perform(table, ops[0]).0;
      if ops[0].Delete? || ops[0].Clear? {
        SubmapSize(next, table);
      }
      AlwaysBounded(next, ops[1..]);
    }
  }

  /** A snapshot is stored exactly under the first of the draws whose name is free, with no failed draw
      before it, and replaces nothing. */
  lemma StoresUnderFirstFree(table: Table, category: string, draft: Draft, draws: seq<Option<string>>)
    requires SafeCategory(category) && |table| < 128
    ensures var (next, answer) := Perform(table, Store(category, Some(draft), draws));
            && (answer == Refused || answer.Text?)
            && (answer.Text? <==>
                  exists i | 0 <= i < |draws| ::
                    && draws[i].Some? && StateKey(category, draws[i].value) !in table
                    && forall j | 0 <= j < i :: draws[j].Some? && StateKey(category, draws[j].value) in table)
            && (answer.Text? ==>
                  && Some(answer.value) in draws && StateKey(category, answer.value) !in table
                  && next == table[StateKey(category, answer.value) := draft])
            && (answer == Refused ==> next == table)
  {
    FirstFreeExactly(table, category, draws);
  }

  lemma FirstFreeIsFree(table: Table, category: string, draws: seq<Option<string>>)
    ensures var free := FirstFree(table, category, draws);
            free.Some? ==> StateKey(category, free.value) !in table
  {
    FirstFreeExactly(table, category, draws);
  }

  lemma {:induction false} FirstFreeExactly(table: Table, category: string, draws: seq<Option<string>>)
    ensures var free := FirstFree(table, category, draws);
            && (free.Some? <==>
                  exists i | 0 <= i < |draws| ::
                    && draws[i].Some? && StateKey(category, draws[i].value) !in table
                    && forall j | 0 <= j < i :: draws[j].Some? && StateKey(category, draws[j].value) in table)
            && (free.Some? ==> free in draws && StateKey(category, free.value) !in table)
  {
    if draws != [] && draws[0].Some? && StateKey(category, draws[0].value) in table {
      var rest := draws[1..];
      FirstFreeExactly(table, category, rest);
      if i :| 0 <= i < |rest| && rest[i].Some? && StateKey(category, rest[i].value) !in table
              && forall j | 0 <= j < i :: rest[j].Some? && StateKey(category, rest[j].value) in table {
        assert draws[i + 1] == rest[i];
        assert forall j | 0 < j < i + 1 :: draws[j] == rest[j - 1];
      }
      if i :| 0 <= i < |draws| && draws[i].Some? && StateKey(category, draws[i].value) !in table
              && forall j | 0 <= j < i :: draws[j].Some? && StateKey(category, draws[j].value) in table {
        assert rest[i - 1] == draws[i];
        assert forall j | 0 <= j < i - 1 :: rest[j] == draws[j + 1];
      }
    }
  }

  // ---------------------------------------------------------------- names in the map

  /** The last colon splits a text in one way only. */
  lemma SameTail(a: string, x: string, b: string, y: string)
    requires ':' !in x && ':' !in y && a + ":" + x == b + ":" + y
    ensures a == b && x == y
  {
    var s := a + ":" + x;
    var t := b + ":" + y;
    assert s[|a|] == ':' && t[|b|] == ':';
    assert forall i | |a| < i < |s| :: s[i] == x[i - |a| - 1];
    assert forall i | |b| < i < |t| :: t[i] == y[i - |b| - 1];
    assert |a| == |b|;
    assert a == s[..|a|] && b == t[..|b|] && x == s[|a| + 1..] && y == t[|b| + 1..];
  }

  /** So does the first. */
  lemma SameHead(a: string, x: string, b: string, y: string)
    requires ':' !in a && ':' !in b && a + ":" + x == b + ":" + y
    ensures a == b && x == y
  {
    var s := a + ":" + x;
    var t := b + ":" + y;
    assert s[|a|] == ':' && t[|b|] == ':';
    assert forall i | 0 <= i < |a| :: s[i] == a[i];
    assert forall i | 0 <= i < |b| :: t[i] == b[i];
    assert |a| == |b|;
    assert a == s[..|a|] && b == t[..|b|] && x == s[|a| + 1..] && y == t[|b| + 1..];
  }

  /** Different snapshots have different names, whatever bytes their references hold. */
  lemma StateKeyInjective(category: string, reference: string, category': string, reference': string)
    requires SafeCategory(category) && SafeCategory(category')
    requires StateKey(category, reference) == StateKey(category', reference')
    ensures category == category' && reference == reference'
  {
    assert STATE + category + ":" + reference == STATE + (category + ":" + reference);
    assert STATE + category' + ":" + reference' == STATE + (category' + ":" + reference');
    assert (STATE + (category + ":" + reference))[|STATE|..] == category + ":" + reference;
    assert (STATE + (category' + ":" + reference'))[|STATE|..] == category' + ":" + reference';
    SameHead(category, reference, category', reference');
  }

  lemma StateKeyMarked(category: string, reference: string)
    ensures HasPrefix(StateKey(category, reference), STATE)
  {
    assert StateKey(category, reference) == STATE + (category + ":" + reference);
  }

  // ---------------------------------------------------------------- two dictionaries

  /** Snapshots by category and reference, and drafts by scope. */
  datatype Books = Books(snapshots: map<(string, string), Draft>, keys: Table)

  function StateKeys(names: set<(string, string)>): set<string> {
    set name | name in names :: StateKey(name.0, name.1)
  }

  /** The map is the merge of the two dictionaries. */
  predicate Merges(table: Table, books: Books) {
    && (forall name | name in books.snapshots :: SafeCategory(name.0))
    && (forall scope | scope in books.keys :: !HasPrefix(scope, STATE))
    && table.Keys == StateKeys(books.snapshots.Keys) + books.keys.Keys
    && (forall name | name in books.snapshots ::
          StateKey(name.0, name.1) in table && table[StateKey(name.0, name.1)] == books.snapshots[name])
    && (forall scope | scope in books.keys :: table[scope] == books.keys[scope])
  }

  function Size(books: Books): nat {
    |books.snapshots| + |books.keys|
  }

  function FirstFreeApart(books: Books, category: string, draws: seq<Option<string>>): Option<string> {
    if draws == [] || draws[0] == None then None
    else if (category, draws[0].value) in books.snapshots then FirstFreeApart(books, category, draws[1..])
    else draws[0]
  }

  /** The operations on two dictionaries that know nothing of each other but the common limit. */
  function PerformApart(books: Books, op: Op): (Books, Answer) {
    match op
    case Store(category, draft, draws) =>
      if !SafeCategory(category) || draft == None || Size(books) >= MAX_SESSION_DRAFTS then (books, Refused)
      else (
        match FirstFreeApart(books, category, draws)
        case None => (books, Refused)
        case Some(reference) =>
          (books.(snapshots := books.snapshots[(category, reference) := draft.value]), Text(reference)))
    case Load(category, reference) =>
      var name := (category, reference);
      (books, Snapshot(if SafeCategory(category) && reference != "" && |reference| <= 256 && name in books.snapshots
                       then Some(books.snapshots[name]) else None))
    case Delete(category, reference) =>
      (if SafeCategory(category) && reference != ""
       then books.(snapshots := books.snapshots - {(category, reference)}) else books, Done)
    case KeyFor(scope, draw) =>
      var keys := books.keys;
      if scope == "" || |scope| > 1024 then (books, Refused)
      else if scope in keys && keys[scope].Key? && keys[scope].text != "" then (books, Text(keys[scope].text))
      else if Size(books) >= MAX_SESSION_DRAFTS || draw == None then (books, Refused)
      else (books.(keys := keys[scope := Key(draw.value)]), Text(draw.value))
    case Clear(scope) => (books.(keys := books.keys - {scope}), Done)
  }

  /** Callers keep scopes away from the names of snapshots. */
  predicate Marked(op: Op) {
    (op.KeyFor? || op.Clear?) && HasPrefix(op.scope, STATE)
  }

  lemma {:induction false} StateKeysSize(names: set<(string, string)>)
    requires forall name | name in names :: SafeCategory(name.0)
    ensures |StateKeys(names)| == |names|
    decreases |names|
  {
    if names != {} {
      var name :| name in names;
      var rest := names - {name};
      StateKeysSize(rest);
      assert StateKeys(names) == StateKeys(rest) + {StateKey(name.0, name.1)};
      if StateKey(name.0, name.1) in StateKeys(rest) {
        var other :| other in rest && StateKey(other.0, other.1) == StateKey(name.0, name.1);
        StateKeyInjective(name.0, name.1, other.0, other.1);
      }
    }
  }

  lemma MergeSize(table: Table, books: Books)
    requires Merges(table, books)
    ensures |table| == Size(books)
  {
    StateKeysSize(books.snapshots.Keys);
    forall name | name in books.snapshots ensures StateKey(name.0, name.1) !in books.keys {
      StateKeyMarked(name.0, name.1);
    }
    assert StateKeys(books.snapshots.Keys) !! books.keys.Keys;
    assert |table.Keys| == |table|;
  }

  lemma MergedSnapshot(table: Table, books: Books, category: string, reference: string)
    requires Merges(table, books) && SafeCategory(category)
    ensures StateKey(category, reference) in table <==> (category, reference) in books.snapshots
  {
    var key := StateKey(category, reference);
    StateKeyMarked(category, reference);
    if key in table {
      var name :| name in books.snapshots && StateKey(name.0, name.1) == key;
      StateKeyInjective(category, reference, name.0, name.1);
    }
  }

  lemma MergedScope(table: Table, books: Books, scope: string)
    requires Merges(table, books) && !HasPrefix(scope, STATE)
    ensures scope in table <==> scope in books.keys
    ensures forall name | name in books.snapshots :: StateKey(name.0, name.1) != scope
  {
    forall name | name in books.snapshots ensures StateKey(name.0, name.1) != scope {
      StateKeyMarked(name.0, name.1);
    }
  }

  lemma {:induction false} SameFirstFree(table: Table, books: Books, category: string, draws: seq<Option<string>>)
    requires Merges(table, books) && SafeCategory(category)
    ensures FirstFree(table, category, draws) == FirstFreeApart(books, category, draws)
  {
    if draws != [] && draws[0].Some? {
      MergedSnapshot(table, books, category, draws[0].value);
      SameFirstFree(table, books, category, draws[1..]);
    }
  }

  predicate Unchanged(table: Table, books: Books, op: Op) {
    Perform(table, op).0 == table && PerformApart(books, op).0 == books
  }

  /** Both sides store under the same reference, or neither stores anything. */
  lemma StoreAgrees(table: Table, books: Books, op: Op)
    requires Merges(table, books) && op.Store?
    ensures Perform(table, op).1 == PerformApart(books, op).1
    ensures Unchanged(table, books, op)
            || (&& SafeCategory(op.category) && op.draft.Some? && Perform(table, op).1.Text?
                && var reference := Perform(table, op).1.value;
                && Perform(table, op).0 == table[StateKey(op.category, reference) := op.draft.value]
                && PerformApart(books, op).0
                   == books.(snapshots := books.snapshots[(op.category, reference) := op.draft.value]))
  {
    MergeSize(table, books);
    if SafeCategory(op.category) {
      SameFirstFree(table, books, op.category, op.draws);
    }
  }

  lemma StoreApart(table: Table, books: Books, op: Op)
    requires Merges(table, books) && op.Store?
    ensures Perform(table, op).1 == PerformApart(books, op).1
    ensures Merges(Perform(table, op).0, PerformApart(books, op).0)
  {
    StoreAgrees(table, books, op);
    if !Unchanged(table, books, op) {
      SnapshotAdded(table, books, op.category, Perform(table, op).1.value, op.draft.value);
    }
  }

  lemma SnapshotAdded(table: Table, books: Books, category: string, reference: string, draft: Draft)
    requires Merges(table, books) && SafeCategory(category)
    ensures Merges(table[StateKey(category, reference) := draft],
                   books.(snapshots := books.snapshots[(category, reference) := draft]))
  {
    var key := StateKey(category, reference);
    var after := books.snapshots[(category, reference) := draft];
    StateKeyMarked(category, reference);
    forall name | name in books.snapshots && StateKey(name.0, name.1) == key ensures name == (category, reference) {
      StateKeyInjective(category, reference, name.0, name.1);
    }
    assert after.Keys == books.snapshots.Keys + {(category, reference)};
    OneStateKeyMore(books.snapshots.Keys, category, reference);
  }

  lemma OneStateKeyMore(names: set<(string, string)>, category: string, reference: string)
    ensures StateKeys(names + {(category, reference)}) == StateKeys(names) + {StateKey(category, reference)}
  {
    var more := names + {(category, reference)};
    assert (category, reference) in more;
    forall key | key in StateKeys(names) + {StateKey(category, reference)} ensures key in StateKeys(more) {
      if key in StateKeys(names) {
        var name :| name in names && StateKey(name.0, name.1) == key;
        assert name in more;
      }
    }
  }

  lemma SnapshotRemoved(table: Table, books: Books, category: string, reference: string)
    requires Merges(table, books) && SafeCategory(category)
    ensures Merges(table - {StateKey(category, reference)},
                   books.(snapshots := books.snapshots - {(category, reference)}))
  {
    var key := StateKey(category, reference);
    var after := books.snapshots - {(category, reference)};
    StateKeyMarked(category, reference);
    forall name | name in books.snapshots && StateKey(name.0, name.1) == key ensures name == (category, reference) {
      StateKeyInjective(category, reference, name.0, name.1);
    }
    assert after.Keys == books.snapshots.Keys - {(category, reference)};
    assert StateKeys(after.Keys) == StateKeys(books.snapshots.Keys) - {key};
  }

  /** One operation on the map is the same operation on two separate dictionaries. */
  lemma PerformsApart(table: Table, books: Books, op: Op)
    requires Merges(table, books) && !Marked(op)
    ensures Perform(table, op).1 == PerformApart(books, op).1
    ensures Merges(Perform(table, op).0, PerformApart(books, op).0)
  {
    match op
    case Store(_, _, _) => StoreApart(table, books, op);
    case Load(category, reference) =>
      if SafeCategory(category) {
        MergedSnapshot(table, books, category, reference);
      }
    case Delete(category, reference) =>
      if SafeCategory(category) && reference != "" {
        SnapshotRemoved(table, books, category, reference);
      }
    case KeyFor(scope, _) => KeyApart(table, books, op);
    case Clear(scope) => ClearApart(table, books, op);
  }

  lemma KeyAdded(table: Table, books: Books, scope: string, draft: Draft)
    requires Merges(table, books) && !HasPrefix(scope, STATE)
    ensures Merges(table[scope := draft], books.(keys := books.keys[scope := draft]))
  {
    MergedScope(table, books, scope);
  }

  lemma KeyAgrees(table: Table, books: Books, op: Op)
    requires Merges(table, books) && op.KeyFor? && !Marked(op)
    ensures Perform(table, op).1 == PerformApart(books, op).1
    ensures Unchanged(table, books, op)
            || (&& op.draw.Some?
                && Perform(table, op).0 == table[op.scope := Key(op.draw.value)]
                && PerformApart(books, op).0 == books.(keys := books.keys[op.scope := Key(op.draw.value)]))
  {
    MergeSize(table, books);
    MergedScope(table, books, op.scope);
    SameKey(table, books, op);
  }

  lemma SameKey(table: Table, books: Books, op: Op)
    requires |table| == Size(books) && op.KeyFor?
    requires op.scope in table <==> op.scope in books.keys
    requires op.scope in books.keys ==> table[op.scope] == books.keys[op.scope]
    ensures Perform(table, op).1 == PerformApart(books, op).1
    ensures Unchanged(table, books, op)
            || (&& op.draw.Some?
                && Perform(table, op).0 == table[op.scope := Key(op.draw.value)]
                && PerformApart(books, op).0 == books.(keys := books.keys[op.scope := Key(op.draw.value)]))
  {
  }

  lemma KeyApart(table: Table, books: Books, op: Op)
    requires Merges(table, books) && op.KeyFor? && !Marked(op)
    ensures Perform(table, op).1 == PerformApart(books, op).1
    ensures Merges(Perform(table, op).0, PerformApart(books, op).0)
  {
    KeyAgrees(table, books, op);
    if !Unchanged(table, books, op) {
      KeyAdded(table, books, op.scope, Key(op.draw.value));
    }
  }

  lemma ClearApart(table: Table, books: Books, op: Op)
    requires Merges(table, books) && op.Clear? && !Marked(op)
    ensures Merges(Perform(table, op).0, PerformApart(books, op).0)
  {
    MergedScope(table, books, op.scope);
    var after := Perform(table, op).0;
    assert after.Keys == table.Keys - {op.scope};
  }

  function PerformAllApart(books: Books, ops: seq<Op>): Books
    decreases |ops|
  {
    if ops == [] then books else PerformAllApart(PerformApart(books, ops[0]).0, ops[1..])
  }

  /** After any operations on an empty map, every answer is the one that the two separate
      dictionaries give. */
  lemma {:induction false} AlwaysApart(table: Table, books: Books, ops: seq<Op>, op: Op)
    requires Merges(table, books) && !Marked(op)
    requires forall i | 0 <= i < |ops| :: !Marked(ops[i])
    ensures Merges(PerformAll(table, ops), PerformAllApart(books, ops))
    ensures Perform(PerformAll(table, ops), op).1 == PerformApart(PerformAllApart(books, ops), op).1
    decreases |ops|
  {
    if ops == [] {
      PerformsApart(table, books, op);
    } else {
      PerformsApart(table, books, ops[0]);
      AlwaysApart(Perform(table, ops[0]).0, PerformApart(books, ops[0]).0, ops[1..], op);
    }
  }

  // ---------------------------------------------------------------- stable keys

  /** A key stays what it is until its own scope is cleared: every later request for the scope
      gets it back, whatever happens to snapshots and other scopes in between. */
  lemma {:induction false} KeyIsStable(table: Table, ops: seq<Op>, scope: string, draw: Option<string>)
    requires !HasPrefix(scope, STATE) && 1 <= |scope| <= 1024
    requires scope in table && table[scope].Key? && table[scope].text != ""
    requires forall i | 0 <= i < |ops| :: ops[i] != Clear(scope)
    ensures Perform(PerformAll(table, ops), KeyFor(scope, draw)).1 == Text(table[scope].text)
    decreases |ops|
  {
    if ops != [] {
      var next := Perform(table, ops[0]).0;
      assert scope in next && next[scope] == table[scope] by {
        KeyUntouched(table, ops[0], scope);
      }
      KeyIsStable(next, ops[1..], scope, draw);
    }
  }

  lemma KeyUntouched(table: Table, op: Op, scope: string)
    requires !HasPrefix(scope, STATE) && op != Clear(scope)
    requires scope in table && table[scope].Key? && table[scope].text != ""
    ensures scope in Perform(table, op).0 && Perform(table, op).0[scope] == table[scope]
  {
    if op.Store? || op.Delete? {
      forall reference ensures StateKey(op.category, reference) != scope {
        StateKeyMarked(op.category, reference);
      }
    }
  }

  // ---------------------------------------------------------------- the server's scopes

  /** The scopes for which the server asks for keys. A basis is the hexadecimal hash of a form. */
  datatype Scope =
    | Mutating(create: bool, code: string, version: nat)
    | PlanningDeletion(code: string, version: nat)
    | ApplyingDeletion(reference: string)
    | PlanningMigration(code: string, version: nat)
    | ApplyingMigration(reference: string)
    | Identifying(action: string, basis: string)
    | Operating(action: string, basis: string)
    | Publishing(basis: string)

  function Word(scope: Scope): string {
    match scope
    case Mutating(_, _, _) => "metadata"
    case PlanningDeletion(_, _) => "metadata-delete-plan"
    case ApplyingDeletion(_) => "metadata-delete-apply"
    case PlanningMigration(_, _) => "migration-plan"
    case ApplyingMigration(_) => "migration-apply"
    case Identifying(_, _) => "identity"
    case Operating(_, _) => "workflow"
    case Publishing(_) => "quota"
  }

  function Rest(scope: Scope): string {
    match scope
    case Mutating(create, code, version) =>
      (if create then "create" else "update") + ":" + (code + ":" + Decimal(version))
    case PlanningDeletion(code, version) => code + ":" + Decimal(version)
    case ApplyingDeletion(reference) => reference
    case PlanningMigration(code, version) => code + ":" + Decimal(version)
    case ApplyingMigration(reference) => reference
    case Identifying(action, basis) => action + ":" + basis
    case Operating(action, basis) => action + ":" + basis
    case Publishing(basis) => "publish" + ":" + basis
  }

  function Printed(scope: Scope): string {
    Word(scope) + ":" + Rest(scope)
  }

  predicate HexBasis(scope: Scope) {
    scope.Identifying? || scope.Operating? || scope.Publishing? ==> ':' !in scope.basis
  }

  lemma WordsAreSimple(scope: Scope)
    ensures ':' !in Word(scope) && |Word(scope)| > 0
  {
  }

  lemma WordsDiffer(scope: Scope, other: Scope)
    requires Word(scope) == Word(other)
    ensures match scope
            case Mutating(_, _, _) => other.Mutating?
            case PlanningDeletion(_, _) => other.PlanningDeletion?
            case ApplyingDeletion(_) => other.ApplyingDeletion?
            case PlanningMigration(_, _) => other.PlanningMigration?
            case ApplyingMigration(_) => other.ApplyingMigration?
            case Identifying(_, _) => other.Identifying?
            case Operating(_, _) => other.Operating?
            case Publishing(_) => other.Publishing?
  {
    assert |Word(scope)| == |Word(other)| && Word(scope)[0] == Word(other)[0];
  }

  lemma VersionedInjective(code: string, version: nat, code': string, version': nat)
    requires code + ":" + Decimal(version) == code' + ":" + Decimal(version')
    ensures code == code' && version == version'
  {
    SameTail(code, Decimal(version), code', Decimal(version'));
    DecimalInjective(version, version');
  }

  /** Two different mutation bases never share a key, even when an entity code holds a colon. */
  lemma ScopesDiffer(scope: Scope, other: Scope)
    requires HexBasis(scope) && HexBasis(other) && Printed(scope) == Printed(other)
    ensures scope == other
  {
    WordsAreSimple(scope);
    WordsAreSimple(other);
    SameHead(Word(scope), Rest(scope), Word(other), Rest(other));
    WordsDiffer(scope, other);
    match scope
    case Mutating(create, code, version) =>
      SameHead(if create then "create" else "update", code + ":" + Decimal(version),
               if other.create then "create" else "update", other.code + ":" + Decimal(other.version));
      assert (if create then "create" else "update")[0] == (if other.create then "create" else "update")[0];
      VersionedInjective(code, version, other.code, other.version);
    case PlanningDeletion(code, version) => VersionedInjective(code, version, other.code, other.version);
    case PlanningMigration(code, version) => VersionedInjective(code, version, other.code, other.version);
    case Identifying(action, basis) => SameTail(action, basis, other.action, other.basis);
    case Operating(action, basis) => SameTail(action, basis, other.action, other.basis);
    case Publishing(basis) => SameTail("publish", basis, "publish", other.basis);
    case _ =>
  }

  /** No scope of the server can name a snapshot. */
  lemma ScopesAreUnmarked(scope: Scope)
    ensures !HasPrefix(Printed(scope), STATE)
  {
    WordsAreSimple(scope);
    var printed := Printed(scope);
    assert forall i | 0 <= i < |Word(scope)| :: printed[i] == Word(scope)[i];
    assert printed[|Word(scope)|] == ':';
    assert |STATE| == 6 && STATE[0] == 's' && STATE[5] == ':';
    assert printed[0] == Word(scope)[0] != 's';
  }
}
