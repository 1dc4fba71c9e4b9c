/** The lock statements of the broker's methods, in program order, run by any number of threads
    over the broker's readers/writer lock and the mutex of each session. That a thread holds at most
    one lock, and the right one for what it touches, follows from the text of the methods. */
module Locks {
  import opened Text

  /** The broker's `sync.RWMutex`, or the `sync.Mutex` of one session. */
  datatype Lock = OfBroker | OfSession(ref: nat)

  /** A read lock, or a write lock or mutex. */
  datatype Mode = Shared | Exclusive

  /** What a method still has to do, as far as locks are concerned. `Touch` reads or writes what the
      lock protects: the broker's maps, or the mutable fields of a session. `Outside` is a call or a
      computation that touches neither. */
  datatype Code =
    | Return
    | Acquire(lock: Lock, mode: Mode, next: Code)
    | Release(lock: Lock, mode: Mode, next: Code)
    | Touch(lock: Lock, mode: Mode, next: Code)
    | Outside(next: Code)
    | Choose(left: Code, right: Code)

  // ---------------------------------------------------------------- the methods

  /** A call, with the sessions that its look-ups happen to find. `Fields` stands for the methods
      that look a session up and then read or change its fields: `ValidateCSRF`, `DraftKey`,
      `ClearDraft`, `StoreDraft`, `LoadDraft` and `DeleteDraft`. */
  datatype Method =
    | Begin
    | Complete(expired: seq<nat>, own: nat, evicted: Option<nat>)
    | View(found: Option<nat>)
    | Switch(found: Option<nat>)
    | Logout(found: Option<nat>)
    | WithClient(found: Option<nat>, again: Option<nat>)
    | Fields(found: Option<nat>, mode: Mode)

  /** `RLock`, a read of the session map, `RUnlock`. */
  function LookUp(found: Option<nat>, next: Code): Code {
    Acquire(OfBroker, Shared, Touch(OfBroker, Shared, Release(OfBroker, Shared,
      if found.None? then Return else next)))
  }

  /** `deactivate`: an ended session is left alone. */
  function Deactivate(ref: nat, next: Code): Code {
    var lock := OfSession(ref);
    Acquire(lock, Exclusive, Touch(lock, Shared, Choose(
      Release(lock, Exclusive, next),
      Touch(lock, Exclusive, Release(lock, Exclusive, next)))))
  }

  function DeactivateAll(refs: seq<nat>, next: Code): Code {
    if refs == [] then next else Deactivate(refs[0], DeactivateAll(refs[1..], next))
  }

  function Invalidate(ref: nat, next: Code): Code {
    Acquire(OfBroker, Exclusive, Touch(OfBroker, Exclusive, Release(OfBroker, Exclusive, Deactivate(ref, next))))
  }

  /** `Begin`: failures before the lock, then one section with two ways out. */
  function BeginCode(): Code {
    Outside(Choose(Return,
      Acquire(OfBroker, Exclusive, Touch(OfBroker, Exclusive, Choose(
        Release(OfBroker, Exclusive, Return),
        Touch(OfBroker, Exclusive, Release(OfBroker, Exclusive, Return)))))))
  }

  /** `Session`: the refresh calls outside while the session lock is held. */
  function ViewCode(found: Option<nat>, failed: Code, next: Code): Code {
    var ref := if found.Some? then found.value else 0;
    var lock := OfSession(ref);
    var fails := Release(lock, Exclusive, Invalidate(ref, failed));
    LookUp(found,
      Acquire(lock, Exclusive, Touch(lock, Shared, Choose(
        fails,
        Choose(
          Touch(lock, Shared, Release(lock, Exclusive, next)),
          Outside(Choose(
            fails,
            Touch(lock, Exclusive, Outside(Touch(lock, Shared, Release(lock, Exclusive, next)))))))))))
  }

  function CompleteCode(expired: seq<nat>, own: nat, evicted: Option<nat>): Code {
    var others := if evicted.Some? then expired + [evicted.value] else expired;
    Acquire(OfBroker, Exclusive, Touch(OfBroker, Exclusive, Release(OfBroker, Exclusive,
      Choose(Return, Outside(Choose(Return,
        Acquire(OfBroker, Exclusive, Touch(OfBroker, Exclusive, Choose(
          Release(OfBroker, Exclusive, DeactivateAll(expired + [own], Return)),
          Touch(OfBroker, Exclusive, Release(OfBroker, Exclusive, DeactivateAll(others, Return))))))))))))
  }

  function Program(call: Method): Code {
    match call
    case Begin => BeginCode()
    case Complete(expired, own, evicted) => CompleteCode(expired, own, evicted)
    case View(found) => ViewCode(found, Return, Return)
    case Switch(found) =>
      var ref := if found.Some? then found.value else 0;
      var lock := OfSession(ref);
      LookUp(found, Acquire(lock, Exclusive, Touch(lock, Shared, Choose(
        Release(lock, Exclusive, Return),
        Release(lock, Exclusive, Invalidate(ref, BeginCode()))))))
    case Logout(found) =>
      var ref := if found.Some? then found.value else 0;
      var lock := OfSession(ref);
      LookUp(found, Acquire(lock, Exclusive, Touch(lock, Shared, Release(lock, Exclusive,
        Choose(Return, Invalidate(ref, Return))))))
    case WithClient(found, again) =>
      var lock := OfSession(if again.Some? then again.value else 0);
      ViewCode(found, Return, LookUp(again, Acquire(lock, Exclusive, Touch(lock, Shared,
        Release(lock, Exclusive, Choose(Return, Outside(Return)))))))
    case Fields(found, mode) =>
      var lock := OfSession(if found.Some? then found.value else 0);
      LookUp(found, Acquire(lock, Exclusive, Touch(lock, Shared, Choose(
        Release(lock, Exclusive, Return),
        Outside(Touch(lock, mode, Release(lock, Exclusive, Return)))))))
  }

  // ---------------------------------------------------------------- the discipline of the text

  /** From here on the code takes a lock only while it holds none, gives back exactly what it holds,
      touches nothing without the lock for it, and returns with none. */
  predicate Fits(code: Code, held: set<(Lock, Mode)>) {
    match code
    case Return => held == {}
    case Acquire(lock, mode, next) =>
      held == {} && (mode == Shared ==> lock == OfBroker) && Fits(next, {(lock, mode)})
    case Release(lock, mode, next) =>
      held == {(lock, mode)} && (mode == Shared ==> lock == OfBroker) && Fits(next, {})
    case Touch(lock, mode, next) =>
      ((lock, Exclusive) in held || (mode == Shared && (lock, Shared) in held)) && Fits(next, held)
    case Outside(next) => Fits(next, held)
    case Choose(left, right) => Fits(left, held) && Fits(right, held)
  }

  lemma DeactivateFits(ref: nat, next: Code)
    requires Fits(next, {})
    ensures Fits(Deactivate(ref, next), {})
  {
    var held := {(OfSession(ref), Exclusive)};
    assert Fits(Release(OfSession(ref), Exclusive, next), held);
    assert Fits(Touch(OfSession(ref), Exclusive, Release(OfSession(ref), Exclusive, next)), held);
  }

  lemma {:induction false} DeactivateAllFits(refs: seq<nat>)
    ensures Fits(DeactivateAll(refs, Return), {})
  {
    if refs != [] {
      DeactivateAllFits(refs[1..]);
      DeactivateFits(refs[0], DeactivateAll(refs[1..], Return));
    }
  }

  /** One section under the broker's write lock. */
  lemma SectionFits(next: Code)
    requires Fits(next, {})
    ensures Fits(Release(OfBroker, Exclusive, next), {(OfBroker, Exclusive)})
    ensures Fits(Touch(OfBroker, Exclusive, Release(OfBroker, Exclusive, next)), {(OfBroker, Exclusive)})
    ensures Fits(Acquire(OfBroker, Exclusive, Touch(OfBroker, Exclusive, Release(OfBroker, Exclusive, next))), {})
  {
  }

  lemma InvalidateFits(ref: nat, next: Code)
    requires Fits(next, {})
    ensures Fits(Invalidate(ref, next), {})
  {
    DeactivateFits(ref, next);
    SectionFits(Deactivate(ref, next));
  }

  lemma LookUpFits(found: Option<nat>, next: Code)
    requires Fits(next, {})
    ensures Fits(LookUp(found, next), {})
  {
    var held := {(OfBroker, Shared)};
    var rest := if found.None? then Return else next;
    assert Fits(Release(OfBroker, Shared, rest), held);
    assert Fits(Touch(OfBroker, Shared, Release(OfBroker, Shared, rest)), held);
  }

  lemma BeginFits()
    ensures Fits(BeginCode(), {})
  {
    SectionFits(Return);
  }

  /** Two ways out of a section of a session's mutex. */
  lemma WaysOutFit(ref: nat, next: Code)
    requires Fits(next, {})
    ensures Fits(Release(OfSession(ref), Exclusive, next), {(OfSession(ref), Exclusive)})
    ensures forall mode ::
              Fits(Touch(OfSession(ref), mode, Release(OfSession(ref), Exclusive, next)), {(OfSession(ref), Exclusive)})
  {
  }

  lemma ViewFits(found: Option<nat>, failed: Code, next: Code)
    requires Fits(failed, {}) && Fits(next, {})
    ensures Fits(ViewCode(found, failed, next), {})
  {
    var ref := if found.Some? then found.value else 0;
    var lock := OfSession(ref);
    var held := {(lock, Exclusive)};
    var fails := Release(lock, Exclusive, Invalidate(ref, failed));
    InvalidateFits(ref, failed);
    WaysOutFit(ref, Invalidate(ref, failed));
    WaysOutFit(ref, next);
    var ends := Touch(lock, Shared, Release(lock, Exclusive, next));
    var swap := Touch(lock, Exclusive, Outside(ends));
    assert Fits(Outside(ends), held) && Fits(swap, held);
    assert Fits(Choose(fails, swap), held) && Fits(Outside(Choose(fails, swap)), held);
    assert Fits(Choose(fails, Choose(ends, Outside(Choose(fails, swap)))), held);
    LookUpFits(found,
               Acquire(lock, Exclusive,
                       Touch(lock, Shared, Choose(fails, Choose(ends, Outside(Choose(fails, swap)))))));
  }

  lemma CompleteFits(expired: seq<nat>, own: nat, evicted: Option<nat>)
    ensures Fits(CompleteCode(expired, own, evicted), {})
  {
    var others := if evicted.Some? then expired + [evicted.value] else expired;
    var collided := DeactivateAll(expired + [own], Return);
    var placed := DeactivateAll(others, Return);
    DeactivateAllFits(expired + [own]);
    DeactivateAllFits(others);
    SectionFits(collided);
    SectionFits(placed);
    var held := {(OfBroker, Exclusive)};
    var ways := Choose(Release(OfBroker, Exclusive, collided),
                       Touch(OfBroker, Exclusive, Release(OfBroker, Exclusive, placed)));
    assert Fits(ways, held) && Fits(Touch(OfBroker, Exclusive, ways), held);
    var second := Acquire(OfBroker, Exclusive, Touch(OfBroker, Exclusive, ways));
    assert Fits(second, {});
    assert Fits(Choose(Return, second), {});
    assert Fits(Choose(Return, Outside(Choose(Return, second))), {});
    SectionFits(Choose(Return, Outside(Choose(Return, second))));
  }

  /** The text of every method keeps the discipline. */
  lemma ProgramsFit(call: Method)
    ensures Fits(Program(call), {})
  {
    match call
    case Begin => BeginFits();
    case Complete(expired, own, evicted) => CompleteFits(expired, own, evicted);
    case View(found) => ViewFits(found, Return, Return);
    case Switch(found) => SwitchFits(found);
    case Logout(found) => LogoutFits(found);
    case WithClient(found, again) => WithClientFits(found, again);
    case Fields(found, mode) => FieldsFit(found, mode);
  }

  lemma SwitchFits(found: Option<nat>)
    ensures Fits(Program(Switch(found)), {})
  {
    var ref := if found.Some? then found.value else 0;
    var lock := OfSession(ref);
    BeginFits();
    InvalidateFits(ref, BeginCode());
    WaysOutFit(ref, Return);
    WaysOutFit(ref, Invalidate(ref, BeginCode()));
    var ways := Choose(Release(lock, Exclusive, Return), Release(lock, Exclusive, Invalidate(ref, BeginCode())));
    assert Fits(Touch(lock, Shared, ways), {(lock, Exclusive)});
    LookUpFits(found, Acquire(lock, Exclusive, Touch(lock, Shared, ways)));
  }

  lemma LogoutFits(found: Option<nat>)
    ensures Fits(Program(Logout(found)), {})
  {
    var ref := if found.Some? then found.value else 0;
    var lock := OfSession(ref);
    InvalidateFits(ref, Return);
    var rest := Choose(Return, Invalidate(ref, Return));
    WaysOutFit(ref, rest);
    LookUpFits(found, Acquire(lock, Exclusive, Touch(lock, Shared, Release(lock, Exclusive, rest))));
  }

  lemma WithClientFits(found: Option<nat>, again: Option<nat>)
    ensures Fits(Program(WithClient(found, again)), {})
  {
    var ref := if again.Some? then again.value else 0;
    var lock := OfSession(ref);
    var rest := Choose(Return, Outside(Return));
    assert Fits(rest, {});
    WaysOutFit(ref, rest);
    var section := Acquire(lock, Exclusive, Touch(lock, Shared, Release(lock, Exclusive, rest)));
    LookUpFits(again, section);
    ViewFits(found, Return, LookUp(again, section));
  }

  lemma FieldsFit(found: Option<nat>, mode: Mode)
    ensures Fits(Program(Fields(found, mode)), {})
  {
    var ref := if found.Some? then found.value else 0;
    var lock := OfSession(ref);
    var held := {(lock, Exclusive)};
    WaysOutFit(ref, Return);
    var refused := Release(lock, Exclusive, Return);
    var done := Outside(Touch(lock, mode, Release(lock, Exclusive, Return)));
    assert Fits(done, held) && Fits(Choose(refused, done), held);
    LookUpFits(found, Acquire(lock, Exclusive, Touch(lock, Shared, Choose(refused, done))));
  }

  // ---------------------------------------------------------------- threads

  /** `waiting` says that the thread has announced itself as a writer of the broker's lock. */
  datatype Thread = Thread(code: Code, held: set<(Lock, Mode)>, waiting: bool)

  type Threads = seq<Thread>

  datatype Move = Start(t: nat, call: Method) | Announce(t: nat) | Go(t: nat, left: bool)

  /** A write lock needs that nobody holds the lock, the thread itself included; a read lock that
      nobody holds it for writing. */
  predicate Free(f: Threads, lock: Lock, mode: Mode) {
    forall t | 0 <= t < |f| ::
      (lock, Exclusive) !in f[t].held && (mode == Exclusive ==> (lock, Shared) !in f[t].held)
  }

  predicate WritesBroker(code: Code) {
    code.Acquire? && code.lock == OfBroker && code.mode == Exclusive
  }

  /** What may happen: a reader may get in past waiting writers. */
  predicate May(f: Threads, move: Move) {
    && move.t < |f|
    && var thread := f[move.t];
    match move
    case Start(_, _) => thread.code == Return
    case Announce(_) => WritesBroker(thread.code) && !thread.waiting
    case Go(_, _) =>
      && thread.code != Return
      && (thread.code.Acquire? ==> Free(f, thread.code.lock, thread.code.mode))
      && (WritesBroker(thread.code) ==> thread.waiting)
  }

  /** What is sure to be possible: waiting writers keep new readers out. */
  predicate Must(f: Threads, move: Move) {
    && May(f, move) && !move.Start?
    && (move.Go? && f[move.t].code.Acquire? && f[move.t].code.mode == Shared ==>
          forall t | 0 <= t < |f| :: !f[t].waiting)
  }

  function Moved(thread: Thread, left: bool): Thread
    requires thread.code != Return
  {
    match thread.code
    case Acquire(lock, mode, next) => Thread(next, thread.held + {(lock, mode)}, false)
    case Release(lock, mode, next) => Thread(next, thread.held - {(lock, mode)}, thread.waiting)
    case Touch(_, _, next) => thread.(code := next)
    case Outside(next) => thread.(code := next)
    case Choose(first, second) => thread.(code := if left then first else second)
  }

  function Make(f: Threads, move: Move): Threads
    requires May(f, move)
  {
    match move
    case Start(t, call) => f[t := f[t].(code := Program(call))]
    case Announce(t) => f[t := f[t].(waiting := true)]
    case Go(t, left) => f[t := Moved(f[t], left)]
  }

  // ---------------------------------------------------------------- what every run keeps

  /** A thread follows the discipline, and a writer's announcement belongs to its next step. */
  predicate Disciplined(thread: Thread) {
    Fits(thread.code, thread.held) && (thread.waiting ==> WritesBroker(thread.code))
  }


  ghost predicate Inv(f: Threads) {
    (forall t | 0 <= t < |f| :: Disciplined(f[t])) && Excluding(f)
  }

  /** Who holds a lock for writing holds it alone. */
  ghost predicate Excluding(f: Threads) {
    forall t, u | 0 <= t < |f| && 0 <= u < |f| && t != u :: Apart(f[t], f[u])
  }

  ghost predicate Apart(one: Thread, other: Thread) {
    forall lock | (lock, Exclusive) in one.held :: (lock, Shared) !in other.held && (lock, Exclusive) !in other.held
  }

  lemma MovedKeepsDiscipline(thread: Thread, left: bool)
    requires Disciplined(thread) && thread.code != Return
    ensures Disciplined(Moved(thread, left))
  {
    match thread.code
    case Acquire(lock, mode, _) => assert thread.held + {(lock, mode)} == {(lock, mode)};
    case Release(lock, mode, _) => assert thread.held - {(lock, mode)} == {};
    case _ =>
  }

  lemma AcquireKeepsApart(f: Threads, t: nat, u: nat, left: bool)
    requires Inv(f) && t < |f| && u < |f| && t != u && May(f, Go(t, left)) && f[t].code.Acquire?
    ensures Apart(Moved(f[t], left), f[u]) && Apart(f[u], Moved(f[t], left))
  {
    assert Apart(f[t], f[u]) && Apart(f[u], f[t]);
    assert (f[t].code.lock, Exclusive) !in f[u].held;
  }

  lemma GoKeepsExcluding(f: Threads, t: nat, left: bool)
    requires Inv(f) && May(f, Go(t, left))
    ensures Excluding(f[t := Moved(f[t], left)])
  {
    var next := f[t := Moved(f[t], left)];
    forall a, b | 0 <= a < |next| && 0 <= b < |next| && a != b ensures Apart(next[a], next[b]) {
      assert Apart(f[a], f[b]);
      if f[t].code.Acquire? {
        if a == t {
          AcquireKeepsApart(f, t, b, left);
        } else if b == t {
          AcquireKeepsApart(f, t, a, left);
        }
      }
    }
  }

  lemma MoveKeepsInv(f: Threads, move: Move)
    requires Inv(f) && May(f, move)
    ensures Inv(Make(f, move))
  {
    match move
    case Start(t, call) =>
      ProgramsFit(call);
      SameLocks(f, t, f[t].(code := Program(call)));
    case Announce(t) => SameLocks(f, t, f[t].(waiting := true));
    case Go(t, left) =>
      MovedKeepsDiscipline(f[t], left);
      GoKeepsExcluding(f, t, left);
  }

  lemma SameLocks(f: Threads, t: nat, thread: Thread)
    requires Excluding(f) && t < |f| && thread.held == f[t].held
    ensures Excluding(f[t := thread])
  {
    var next := f[t := thread];
    forall a, b | 0 <= a < |next| && 0 <= b < |next| && a != b ensures Apart(next[a], next[b]) {
      assert Apart(f[a], f[b]);
    }
  }

  predicate Feasible(f: Threads, moves: seq<Move>)
    decreases |moves|
  {
    moves == [] || (May(f, moves[0]) && Feasible(Make(f, moves[0]), moves[1..]))
  }

  function MakeAll(f: Threads, moves: seq<Move>): Threads
    requires Feasible(f, moves)
    decreases |moves|
  {
    if moves == [] then f else MakeAll(Make(f, moves[0]), moves[1..])
  }

  function Idle(n: nat): Threads {
    seq(n, _ => Thread(Return, {}, false))
  }

  lemma {:induction false} AlwaysDisciplined(f: Threads, moves: seq<Move>)
    requires Inv(f) && Feasible(f, moves)
    ensures Inv(MakeAll(f, moves)) && |MakeAll(f, moves)| == |f|
    decreases |moves|
  {
    if moves != [] {
      MoveKeepsInv(f, moves[0]);
      AlwaysDisciplined(Make(f, moves[0]), moves[1..]);
    }
  }

  /** Whatever calls any number of threads make, in any interleaving: no thread ever holds two
      locks, in particular not the broker's and a session's. */
  lemma OneLockEach(n: nat, moves: seq<Move>, t: nat)
    requires Feasible(Idle(n), moves) && t < n
    ensures var f := MakeAll(Idle(n), moves);
            |f| == n && |f[t].held| <= 1
  {
    AlwaysDisciplined(Idle(n), moves);
    FitsHoldsOne(MakeAll(Idle(n), moves)[t].code, MakeAll(Idle(n), moves)[t].held);
  }

  lemma {:induction false} FitsHoldsOne(code: Code, held: set<(Lock, Mode)>)
    requires Fits(code, held)
    ensures |held| <= 1
    decreases code
  {
    match code
    case Touch(_, _, next) => FitsHoldsOne(next, held);
    case Outside(next) => FitsHoldsOne(next, held);
    case Choose(left, _) => FitsHoldsOne(left, held);
    case _ =>
  }

  /** No two threads are ever about to touch the same maps or the same session unless both only
      read, so what lies between taking a lock and giving it back is one atomic step. */
  lemma NoRaces(n: nat, moves: seq<Move>, t: nat, u: nat)
    requires Feasible(Idle(n), moves) && t < n && u < n && t != u
    requires |MakeAll(Idle(n), moves)| == n
    requires var f := MakeAll(Idle(n), moves);
             f[t].code.Touch? && f[u].code.Touch? && f[t].code.lock == f[u].code.lock
    ensures var f := MakeAll(Idle(n), moves);
            f[t].code.mode == Shared && f[u].code.mode == Shared
    ensures var f := MakeAll(Idle(n), moves);
            f[t].code.lock == OfBroker
  {
    var f := MakeAll(Idle(n), moves);
    AlwaysDisciplined(Idle(n), moves);
    assert Apart(f[t], f[u]) && Apart(f[u], f[t]);
    SharedIsOfBroker(f[t].code, f[t].held);
  }

  /** Only the broker's lock is ever held for reading. */
  lemma {:induction false} SharedIsOfBroker(code: Code, held: set<(Lock, Mode)>)
    requires Fits(code, held)
    ensures forall lock | (lock, Shared) in held :: lock == OfBroker
    decreases code
  {
    match code
    case Touch(_, _, next) => SharedIsOfBroker(next, held);
    case Outside(next) => SharedIsOfBroker(next, held);
    case Choose(left, _) => SharedIsOfBroker(left, held);
    case _ =>
  }

  // ---------------------------------------------------------------- progress

  /** A thread that holds a lock is at none of the places where it could have to wait. */
  lemma HolderGoes(f: Threads, t: nat)
    requires Inv(f) && t < |f| && f[t].held != {}
    ensures Must(f, Go(t, true))
  {
    assert Disciplined(f[t]);
  }

  /** Who waits for a lock can have it, or someone else can go on. */
  lemma WriterGoes(f: Threads, t: nat, lock: Lock) returns (move: Move)
    requires Inv(f) && t < |f| && f[t].code.Acquire? && f[t].code.lock == lock && f[t].code.mode == Exclusive
    requires lock == OfBroker ==> f[t].waiting
    ensures Must(f, move)
  {
    if Free(f, lock, Exclusive) {
      move := Go(t, true);
    } else {
      var u: nat :| u < |f| && f[u].held != {};
      HolderGoes(f, u);
      move := Go(u, true);
    }
  }

  lemma ReaderGoes(f: Threads, t: nat) returns (move: Move)
    requires Inv(f) && t < |f| && f[t].code.Acquire? && f[t].code.mode == Shared
    ensures Must(f, move)
  {
    assert Disciplined(f[t]);
    if exists u: nat | u < |f| :: f[u].waiting {
      var u: nat :| u < |f| && f[u].waiting;
      assert Disciplined(f[u]);
      move := WriterGoes(f, u, OfBroker);
    } else if Free(f, OfBroker, Shared) {
      move := Go(t, true);
    } else {
      var u: nat :| u < |f| && f[u].held != {};
      HolderGoes(f, u);
      move := Go(u, true);
    }
  }

  /** As long as any call has not returned, some call can go on, even when every waiting writer
      keeps new readers out. */
  lemma NeverDeadlocked(n: nat, moves: seq<Move>, t: nat) returns (move: Move)
    requires Feasible(Idle(n), moves) && t < |MakeAll(Idle(n), moves)|
    requires MakeAll(Idle(n), moves)[t].code != Return
    ensures Must(MakeAll(Idle(n), moves), move)
  {
    var f := MakeAll(Idle(n), moves);
    AlwaysDisciplined(Idle(n), moves);
    if f[t].code.Acquire? {
      if f[t].code.mode == Shared {
        move := ReaderGoes(f, t);
      } else if f[t].code.lock == OfBroker && !f[t].waiting {
        move := Announce(t);
      } else {
        move := WriterGoes(f, t, f[t].code.lock);
      }
    } else {
      move := Go(t, true);
    }
  }

  // ---------------------------------------------------------------- calls return

  /** The longest way through the code. */
  function Length(code: Code): nat {
    match code
    case Return => 0
    case Acquire(_, _, next) => 2 + Length(next)
    case Release(_, _, next) => 1 + Length(next)
    case Touch(_, _, next) => 1 + Length(next)
    case Outside(next) => 1 + Length(next)
    case Choose(left, right) => 1 + if Length(left) < Length(right) then Length(right) else Length(left)
  }

  /** A writer's announcement counts as one of its two steps. */
  function Left(thread: Thread): int {
    Length(thread.code) - if thread.waiting then 1 else 0
  }

  function TotalLeft(f: Threads): int {
    if f == [] then 0 else TotalLeft(f[..|f| - 1]) + Left(f[|f| - 1])
  }

  lemma {:induction false} TotalMoves(f: Threads, t: nat, thread: Thread)
    requires t < |f|
    ensures TotalLeft(f[t := thread]) == TotalLeft(f) - Left(f[t]) + Left(thread)
  {
    var last := |f| - 1;
    var next := f[t := thread];
    if t == last {
      assert next[..last] == f[..last];
    } else {
      TotalMoves(f[..last], t, thread);
      assert next[..last] == f[..last][t := thread];
    }
  }

  lemma {:induction false} TotalIsNat(f: Threads)
    requires forall t | 0 <= t < |f| :: Disciplined(f[t])
    ensures TotalLeft(f) >= 0
  {
    if f != [] {
      assert Disciplined(f[|f| - 1]);
      TotalIsNat(f[..|f| - 1]);
    }
  }

  predicate NoStart(moves: seq<Move>) {
    forall i | 0 <= i < |moves| :: !moves[i].Start?
  }

  /** Without new calls every run is over after a bounded number of steps, whatever the scheduler
      does; so with `NeverDeadlocked`, running calls return. */
  lemma {:induction false} CallsReturn(f: Threads, moves: seq<Move>)
    requires Inv(f) && Feasible(f, moves) && NoStart(moves)
    ensures |moves| <= TotalLeft(f)
    decreases |moves|
  {
    if moves == [] {
      TotalIsNat(f);
    } else {
      var next := Make(f, moves[0]);
      MoveKeepsInv(f, moves[0]);
      assert Disciplined(f[moves[0].t]);
      TotalMoves(f, moves[0].t, next[moves[0].t]);
      CallsReturn(next, moves[1..]);
    }
  }
}
