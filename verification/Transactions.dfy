/** Any number of provider processes over one durable row: lock, load, serve, save, commit, with
    crashes, aborted commits, commits that took effect but were reported as failed, and commits that the
    database decides only after their process has gone on. The protocol refines the sequential machine
    of `ProviderModel`. */
module Transactions {
  import opened Text
  import opened ProviderModel
  import opened Runs

  /** How far a process is with the request it is serving. */
  datatype Phase =
    | Idle
    | Loaded(request: Request)
    | Buffered(request: Request, reply: Reply)
    | Saved(request: Request, reply: Reply, draft: State)

  /** `memory` is the handler's fields; nothing resets them when a request is abandoned. */
  datatype Process = Process(phase: Phase, memory: State)

  /** What a client was told. `position` is the place of the request among the applied ones. */
  datatype Answer = Answered(request: Request, reply: Reply, position: nat) | Unavailable(request: Request)

  /** `applied` records, for the statements below, the requests whose transactions committed. `late` is
      a transaction that its process has left while it was committing; until the database lands or
      drops it, it keeps the row locked. */
  datatype System = System(row: State, revision: nat, holder: Option<int>, late: Option<Phase>,
                           processes: map<int, Process>, applied: History, answers: seq<Answer>)

  datatype Step =
    | Reject(p: int, request: Request)
    | Lock(p: int, request: Request)
    | ServeMemory(p: int)
    | Save(p: int)
    | SaveFails(p: int)
    | CommitConfirmed(p: int)
    | CommitUnconfirmed(p: int)
    | CommitAborts(p: int)
    | Crash(p: int, restarted: State)
    | CrashAfterCommit(p: int, restarted: State)
    | CommitLeft(p: int)
    | CrashCommitting(p: int, restarted: State)
    | Land
    | Drop

  function Initial(processes: map<int, State>): System {
    System(InitialState(), 1, None, None, map p | p in processes :: Process(Idle, processes[p]),
           Trace([InitialState()], []), [])
  }


  predicate Enabled(s: System, step: Step) {
    match step
    case Reject(p, _) => p in s.processes && s.processes[p].phase.Idle?
    case Lock(p, _) => p in s.processes && s.processes[p].phase.Idle? && s.holder == None && s.late == None
    case ServeMemory(p) => p in s.processes && s.processes[p].phase.Loaded?
    case Save(p) =>
      p in s.processes && s.processes[p].phase.Buffered? && s.processes[p].phase.reply.status < 500
    case SaveFails(p) =>
      p in s.processes && s.processes[p].phase.Buffered? && s.processes[p].phase.reply.status < 500
    case CommitConfirmed(p) => p in s.processes && s.processes[p].phase.Saved?
    case CommitUnconfirmed(p) => p in s.processes && s.processes[p].phase.Saved?
    case CommitAborts(p) => p in s.processes && s.processes[p].phase.Saved?
    case Crash(p, _) => p in s.processes
    case CrashAfterCommit(p, _) => p in s.processes && s.processes[p].phase.Saved?
    case CommitLeft(p) => p in s.processes && s.processes[p].phase.Saved?
    case CrashCommitting(p, _) => p in s.processes && s.processes[p].phase.Saved?
    case Land => s.late.Some? && s.late.value.Saved?
    case Drop => s.late.Some?
  }

  function Put(s: System, p: int, phase: Phase, memory: State): System {
    s.(processes := s.processes[p := Process(phase, memory)])
  }

  /** The transaction of `p` ends and the row lock is free. */
  function Release(s: System, p: int, memory: State): System {
    Put(s, p, Idle, memory).(holder := None)
  }

  /** The saved payload becomes the durable row. */
  ghost function Write(s: System, saved: Phase): System
    requires saved.Saved?
  {
    s.(row := saved.draft, revision := s.revision + 1, applied := Extend(s.applied, saved.request))
  }

  ghost function Take(s: System, step: Step): System
    requires Enabled(s, step)
  {
    if step.Land? then Write(s, s.late.value).(late := None)
    else if step.Drop? then s.(late := None)
    else TakeOwn(s, step)
  }

  /** A step of one process. */
  ghost function TakeOwn(s: System, step: Step): System
    requires Enabled(s, step) && !step.Land? && !step.Drop?
  {
    var me := s.processes[step.p];
    match step
    case Reject(p, request) => s.(answers := s.answers + [Unavailable(request)])
    case Lock(p, request) => Put(s, p, Loaded(request), s.row).(holder := Some(p))
    case ServeMemory(p) =>
      var (memory, reply) := Serve(me.memory, me.phase.request);
      Put(s, p, Buffered(me.phase.request, reply), memory)
    case Save(p) => Put(s, p, Saved(me.phase.request, me.phase.reply, me.memory), me.memory)
    case SaveFails(p) =>
      Release(s, p, me.memory).(answers := s.answers + [Unavailable(me.phase.request)])
    case CommitConfirmed(p) =>
      Write(Release(s, p, me.memory), me.phase).(
        answers := s.answers + [Answered(me.phase.request, me.phase.reply, |s.applied.requests|)])
    case CommitUnconfirmed(p) =>
      Write(Release(s, p, me.memory), me.phase).(answers := s.answers + [Unavailable(me.phase.request)])
    case CommitAborts(p) =>
      Release(s, p, me.memory).(answers := s.answers + [Unavailable(me.phase.request)])
    case Crash(p, restarted) =>
      if me.phase.Idle? then Put(s, p, Idle, restarted) else Release(s, p, restarted)
    case CrashAfterCommit(p, restarted) => Write(Release(s, p, restarted), me.phase)
    case CommitLeft(p) =>
      Release(s, p, me.memory).(late := Some(me.phase), answers := s.answers + [Unavailable(me.phase.request)])
    case CrashCommitting(p, restarted) => Release(s, p, restarted).(late := Some(me.phase))
  }

  // ---------------------------------------------------------------- the invariant

  ghost function Latest(run: History): State {
    run.states[|run.requests|]
  }

  /** What the process holding the row lock has computed so far is what the sequential machine
      computes from the durable row. */
  ghost predicate PhaseAgrees(row: State, me: Process) {
    match me.phase
    case Idle => true
    case Loaded(_) => me.memory == row
    case Buffered(request, reply) => (me.memory, reply) == Serve(row, request)
    case Saved(request, reply, draft) => (draft, reply) == Serve(row, request)
  }

  ghost predicate AnswerAgrees(run: History, answer: Answer) {
    match answer
    case Unavailable(_) => true
    case Answered(request, reply, position) =>
      && position < |run.requests| && run.requests[position] == request
      && reply == Serve(run.states[position], request).1
  }

  predicate Ordered(answers: seq<Answer>) {
    forall i, j | 0 <= i < j < |answers| && answers[i].Answered? && answers[j].Answered? ::
      answers[i].position < answers[j].position
  }

  ghost predicate LateAgrees(row: State, late: Phase) {
    late.Saved? && (late.draft, late.reply) == Serve(row, late.request)
  }

  ghost predicate Inv(s: System) {
    && (s.late.Some? ==> s.holder == None && LateAgrees(s.row, s.late.value))
    && s.row == Latest(s.applied)
    && s.revision == 1 + |s.applied.requests|
    && (forall p | p in s.processes :: s.processes[p].phase.Idle? || s.holder == Some(p))
    && (s.holder.Some? ==> s.holder.value in s.processes && !s.processes[s.holder.value].phase.Idle?)
    && (forall p | p in s.processes :: PhaseAgrees(s.row, s.processes[p]))
    && (forall i | 0 <= i < |s.answers| :: AnswerAgrees(s.applied, s.answers[i]))
    && Ordered(s.answers)
  }

  lemma InitialInv(processes: map<int, State>)
    ensures Inv(Initial(processes))
  {
  }

  lemma ExtendKeepsAnswers(run: History, request: Request, answer: Answer)
    requires AnswerAgrees(run, answer)
    ensures AnswerAgrees(Extend(run, request), answer)
  {
  }

  lemma WriteKeepsInv(s: System, p: int, memory: State)
    requires Inv(s) && p in s.processes && s.processes[p].phase.Saved?
    ensures Inv(Write(Release(s, p, memory), s.processes[p].phase))
  {
    var t := Write(Release(s, p, memory), s.processes[p].phase);
    forall q | q in t.processes ensures t.processes[q].phase.Idle? {
      assert q != p ==> s.processes[q].phase.Idle?;
    }
    forall i | 0 <= i < |t.answers| ensures AnswerAgrees(t.applied, t.answers[i]) {
      ExtendKeepsAnswers(s.applied, s.processes[p].phase.request, s.answers[i]);
    }
  }

  lemma TakeKeepsInv(s: System, step: Step)
    requires Inv(s) && Enabled(s, step)
    ensures Inv(Take(s, step))
  {
    match step
    case CommitConfirmed(p) => ConfirmKeepsInv(s, p);
    case CommitUnconfirmed(p) => UnconfirmedKeepsInv(s, p);
    case CrashAfterCommit(p, restarted) => WriteKeepsInv(s, p, restarted);
    case Land => LandKeepsInv(s);
    case Lock(_, _) | ServeMemory(_) | Save(_) => HolderKeepsInv(s, step);
    case Reject(_, _) | SaveFails(_) | CommitAborts(_) => EndKeepsInv(s, step);
    case _ => LeaveKeepsInv(s, step);
  }

  lemma ConfirmKeepsInv(s: System, p: int)
    requires Inv(s) && Enabled(s, CommitConfirmed(p))
    ensures Inv(Take(s, CommitConfirmed(p)))
  {
    WriteKeepsInv(s, p, s.processes[p].memory);
  }

  lemma UnconfirmedKeepsInv(s: System, p: int)
    requires Inv(s) && Enabled(s, CommitUnconfirmed(p))
    ensures Inv(Take(s, CommitUnconfirmed(p)))
  {
    WriteKeepsInv(s, p, s.processes[p].memory);
  }

  lemma LandKeepsInv(s: System)
    requires Inv(s) && Enabled(s, Land)
    ensures Inv(Take(s, Land))
  {
    var t := Take(s, Land);
    forall i | 0 <= i < |t.answers| ensures AnswerAgrees(t.applied, t.answers[i]) {
      ExtendKeepsAnswers(s.applied, s.late.value.request, s.answers[i]);
    }
  }

  lemma HolderKeepsInv(s: System, step: Step)
    requires Inv(s) && Enabled(s, step) && (step.Lock? || step.ServeMemory? || step.Save?)
    ensures Inv(Take(s, step))
  {
  }

  lemma EndKeepsInv(s: System, step: Step)
    requires Inv(s) && Enabled(s, step)
    requires step.Reject? || step.SaveFails? || step.CommitAborts?
    ensures Inv(Take(s, step))
  {
  }

  lemma LeaveKeepsInv(s: System, step: Step)
    requires Inv(s) && Enabled(s, step)
    requires step.Crash? || step.CommitLeft? || step.CrashCommitting? || step.Drop?
    ensures Inv(Take(s, step))
  {
  }

  // ---------------------------------------------------------------- behaviours

  ghost predicate Possible(s: System, steps: seq<Step>)
    decreases |steps|
  {
    steps == [] || (Enabled(s, steps[0]) && Possible(Take(s, steps[0]), steps[1..]))
  }

  ghost function Execute(s: System, steps: seq<Step>): System
    requires Possible(s, steps)
    decreases |steps|
  {
    if steps == [] then s else Execute(Take(s, steps[0]), steps[1..])
  }

  lemma {:induction false} AlwaysInv(s: System, steps: seq<Step>)
    requires Inv(s) && Possible(s, steps)
    ensures Inv(Execute(s, steps))
    decreases |steps|
  {
    if steps != [] {
      TakeKeepsInv(s, steps[0]);
      AlwaysInv(Take(s, steps[0]), steps[1..]);
    }
  }

  // ---------------------------------------------------------------- refinement

  predicate Commits(step: Step) {
    step.CommitConfirmed? || step.CommitUnconfirmed? || step.CrashAfterCommit? || step.Land?
  }

  /** The transaction that commits. */
  function Committing(s: System, step: Step): Phase
    requires Enabled(s, step) && Commits(step)
  {
    if step.Land? then s.late.value else s.processes[step.p].phase
  }

  /** Seen from the durable row, a step is either nothing or one request of the sequential machine
      served from start to end. */
  lemma StepRefines(s: System, step: Step)
    requires Inv(s) && Enabled(s, step)
    ensures if Commits(step)
            then var request := Committing(s, step).request;
                 Take(s, step).row == Serve(s.row, request).0
                 && Take(s, step).applied == Extend(s.applied, request)
            else Take(s, step).row == s.row && Take(s, step).applied == s.applied
  {
  }

  /** Only a successful mutation changes the row: rejected requests, reads, replays and everything
      that did not commit leave resources, records and audit log as they were. */
  lemma OnlySuccessChangesRow(s: System, step: Step)
    requires Inv(s) && Enabled(s, step) && Take(s, step).row != s.row
    ensures Commits(step)
    ensures Fresh(s.row, Committing(s, step).request) && Committing(s, step).reply.status == 200
  {
    StepCases(s.row, Committing(s, step).request);
  }

  /** A served request can always be saved, so no process gets stuck holding the row. */
  lemma BufferedCanSave(s: System, p: int)
    requires Inv(s) && p in s.processes && s.processes[p].phase.Buffered?
    ensures Enabled(s, Save(p))
  {
    RecordsSucceedAlways(s.applied, |s.applied.requests|);
    ServeStatus(s.row, s.processes[p].phase.request);
    assert PhaseAgrees(s.row, s.processes[p]);
  }

  lemma {:induction false} AppliedGrows(s: System, steps: seq<Step>)
    requires Possible(s, steps)
    ensures s.applied.requests <= Execute(s, steps).applied.requests
    ensures s.answers <= Execute(s, steps).answers
    decreases |steps|
  {
    if steps != [] {
      AppliedGrows(Take(s, steps[0]), steps[1..]);
    }
  }

  lemma ExtendExtendsRecords(s: System, step: Step)
    requires Inv(s) && Enabled(s, step)
    ensures Extends(s.row, Take(s, step).row)
  {
    StepRefines(s, step);
    if Commits(step) {
      StepCases(s.row, Committing(s, step).request);
    }
  }

  /** Whatever the processes do, a record once durable is never overwritten or removed. */
  lemma {:induction false} RecordsAreForever(s: System, steps: seq<Step>)
    requires Inv(s) && Possible(s, steps)
    ensures Extends(s.row, Execute(s, steps).row)
    decreases |steps|
  {
    if steps != [] {
      ExtendExtendsRecords(s, steps[0]);
      TakeKeepsInv(s, steps[0]);
      RecordsAreForever(Take(s, steps[0]), steps[1..]);
    }
  }

  /** Exactly one of the applied requests took effect under this key. */
  ghost predicate OneEffect(run: History, key: string) {
    exists k | 0 <= k < |run.requests| :: OnlyEffectAt(run, k, key)
  }

  predicate OnlyEffectAt(run: History, k: nat, key: string)
    requires k < |run.requests|
  {
    FreshAt(run, k, key) && forall j | 0 <= j < |run.requests| && FreshAt(run, j, key) :: j == k
  }

  /** A success that some client saw: its key took effect exactly once and its reply carries the value
      in the durable record. */
  lemma SuccessIsOnce(s: System, i: nat)
    requires Inv(s) && i < |s.answers| && s.answers[i].Answered?
    requires IsMutation(s.answers[i].request.route) && s.answers[i].reply.status == 200
    ensures var key := KeyOf(s.answers[i].request);
            && OneEffect(s.applied, key)
            && key in s.row.idempotency
            && s.answers[i].reply == Reply(200, Stored(s.row.idempotency[key].value))
  {
    var answer := s.answers[i];
    assert AnswerAgrees(s.applied, answer);
    SuccessIsTheRecord(s.applied, answer.position, |s.applied.requests|);
    RecordedOnce(s, KeyOf(answer.request));
  }

  lemma RecordedOnce(s: System, key: string)
    requires Inv(s) && key in s.row.idempotency
    ensures OneEffect(s.applied, key)
  {
    var k := RecordOrigin(s.applied, |s.applied.requests|, key);
    forall j | 0 <= j < |s.applied.requests| && FreshAt(s.applied, j, key) ensures j == k {
      EffectAtMostOnce(s.applied, j, k, key);
    }
    assert OnlyEffectAt(s.applied, k, key);
  }

  /** Exactly-once under retry: in every behaviour of any number of processes, a key for which
      some client saw success took effect exactly once, and every successful reply to the key
      carries the value in the durable record. */
  lemma ExactlyOnce(processes: map<int, State>, steps: seq<Step>, i: nat)
    requires Possible(Initial(processes), steps)
    requires var s := Execute(Initial(processes), steps);
             && i < |s.answers| && s.answers[i].Answered?
             && IsMutation(s.answers[i].request.route) && s.answers[i].reply.status == 200
    ensures var s := Execute(Initial(processes), steps);
            var key := KeyOf(s.answers[i].request);
            && OneEffect(s.applied, key)
            && key in s.row.idempotency
            && s.answers[i].reply == Reply(200, Stored(s.row.idempotency[key].value))
  {
    InitialInv(processes);
    AlwaysInv(Initial(processes), steps);
    SuccessIsOnce(Execute(Initial(processes), steps), i);
  }

  /** Even for a key whose client only ever saw failures, at most one applied request took
      effect. */
  lemma AtMostOnce(processes: map<int, State>, steps: seq<Step>, i: nat, j: nat, key: string)
    requires Possible(Initial(processes), steps)
    requires var run := Execute(Initial(processes), steps).applied;
             && i < |run.requests| && j < |run.requests|
             && FreshAt(run, i, key) && FreshAt(run, j, key)
    ensures i == j
  {
    EffectAtMostOnce(Execute(Initial(processes), steps).applied, i, j, key);
  }

  // ---------------------------------------------------------------- dirty memory

  /** The systems differ at most in what idle processes have left in memory. */
  predicate SameButDirt(s: System, t: System) {
    && s.row == t.row && s.revision == t.revision && s.holder == t.holder && s.late == t.late
    && s.applied == t.applied && s.answers == t.answers
    && s.processes.Keys == t.processes.Keys
    && forall p | p in s.processes ::
         && s.processes[p].phase == t.processes[p].phase
         && (s.processes[p].phase.Idle? || s.processes[p].memory == t.processes[p].memory)
  }

  lemma StepIgnoresDirt(s: System, t: System, step: Step)
    requires SameButDirt(s, t) && Enabled(s, step)
    ensures Enabled(t, step) && SameButDirt(Take(s, step), Take(t, step))
  {
    match step
    case Land | Drop =>
    case Lock(_, _) | ServeMemory(_) | Save(_) => HolderIgnoresDirt(s, t, step);
    case CommitConfirmed(_) | CommitUnconfirmed(_) => CommitIgnoresDirt(s, t, step);
    case Crash(_, _) | CrashAfterCommit(_, _) => CrashIgnoresDirt(s, t, step);
    case Reject(_, _) | SaveFails(_) | CommitAborts(_) => EndIgnoresDirt(s, t, step);
    case _ => LeaveIgnoresDirt(s, t, step);
  }

  lemma HolderIgnoresDirt(s: System, t: System, step: Step)
    requires SameButDirt(s, t) && Enabled(s, step) && (step.Lock? || step.ServeMemory? || step.Save?)
    ensures Enabled(t, step) && SameButDirt(Take(s, step), Take(t, step))
  {
  }

  lemma CommitIgnoresDirt(s: System, t: System, step: Step)
    requires SameButDirt(s, t) && Enabled(s, step)
    requires step.CommitConfirmed? || step.CommitUnconfirmed?
    ensures Enabled(t, step) && SameButDirt(Take(s, step), Take(t, step))
  {
  }

  lemma CrashIgnoresDirt(s: System, t: System, step: Step)
    requires SameButDirt(s, t) && Enabled(s, step)
    requires step.Crash? || step.CrashAfterCommit?
    ensures Enabled(t, step) && SameButDirt(Take(s, step), Take(t, step))
  {
  }

  lemma EndIgnoresDirt(s: System, t: System, step: Step)
    requires SameButDirt(s, t) && Enabled(s, step)
    requires step.Reject? || step.SaveFails? || step.CommitAborts?
    ensures Enabled(t, step) && SameButDirt(Take(s, step), Take(t, step))
  {
  }

  lemma LeaveIgnoresDirt(s: System, t: System, step: Step)
    requires SameButDirt(s, t) && Enabled(s, step)
    requires step.CommitLeft? || step.CrashCommitting?
    ensures Enabled(t, step) && SameButDirt(Take(s, step), Take(t, step))
  {
  }

  /** What an abandoned request left in a process's memory never shows: the same steps give the
      same row, records and answers from any leftover memory. */
  lemma {:induction false} DirtNeverShows(s: System, t: System, steps: seq<Step>)
    requires SameButDirt(s, t) && Possible(s, steps)
    ensures Possible(t, steps) && SameButDirt(Execute(s, steps), Execute(t, steps))
    decreases |steps|
  {
    if steps != [] {
      StepIgnoresDirt(s, t, steps[0]);
      DirtNeverShows(Take(s, steps[0]), Take(t, steps[0]), steps[1..]);
    }
  }
}
