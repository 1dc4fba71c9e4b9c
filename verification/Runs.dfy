/** Whole runs of the sequential provider: every state is reached from the initial one by a
    sequence of requests. */
module Runs {
  import opened Text
  import opened ProviderModel

  function KeyOf(request: Request): string {
    if request.content.Decoded? then request.content.body.idempotencyKey else ""
  }

  /** Requests served one at a time from the initial state, with the state before the first one
      and after each. */
  datatype Trace = Trace(states: seq<State>, requests: seq<Request>) {
    ghost predicate StepAt(i: nat)
      requires i < |requests| && |states| == |requests| + 1
    {
      states[i + 1] == Serve(states[i], requests[i]).0
    }

    ghost predicate Valid() {
      && |states| == |requests| + 1
      && states[0] == InitialState()
      && forall i: nat | i < |requests| :: StepAt(i)
    }
  }

  type History = t: Trace | t.Valid() ghost witness Trace([InitialState()], [])

  lemma StepHolds(run: History, i: nat)
    requires i < |run.requests|
    ensures run.states[0] == InitialState()
    ensures run.states[i + 1] == Serve(run.states[i], run.requests[i]).0
  {
    assert run.StepAt(i);
  }

  /** One more request. */
  ghost function Extend(run: History, request: Request): (longer: History)
    ensures longer.requests == run.requests + [request]
    ensures longer.states == run.states + [Serve(run.states[|run.requests|], request).0]
  {
    var longer := Trace(run.states + [Serve(run.states[|run.requests|], request).0],
                        run.requests + [request]);
    assert forall i: nat | i < |longer.requests| :: longer.StepAt(i) by {
      forall i: nat | i < |longer.requests| ensures longer.StepAt(i) {
        assert i < |run.requests| ==> run.StepAt(i);
      }
    }
    longer
  }

  /** Every sequence of requests has its run. */
  ghost function RunOf(requests: seq<Request>): (run: History)
    ensures run.requests == requests
  {
    if requests == [] then Trace([InitialState()], [])
    else Extend(RunOf(requests[..|requests| - 1]), requests[|requests| - 1])
  }

  /** A request changes the state exactly when it is fresh, and then by one commit. */
  lemma StepCases(s: State, request: Request)
    ensures !Fresh(s, request) ==> Serve(s, request).0 == s
    ensures Fresh(s, request) ==>
              && request.content.Decoded? && KeyOf(request) != "" && KeyOf(request) !in s.idempotency
              && Serve(s, request) == (Commit(s, KeyOf(request), ChangeMade(s, request), request.clock),
                                       Reply(200, Stored(ValueOf(ChangeMade(s, request)))))
  {
  }

  // ---------------------------------------------------------------- exactly once

  /** The request at `i` takes effect under `key`. */
  predicate FreshAt(run: History, i: nat, key: string)
    requires i < |run.requests|
  {
    Fresh(run.states[i], run.requests[i]) && KeyOf(run.requests[i]) == key
  }

  /** Records are only added: none is overwritten or removed. */
  predicate Extends(s: State, t: State) {
    forall key | key in s.idempotency :: key in t.idempotency && t.idempotency[key] == s.idempotency[key]
  }

  lemma {:induction false} RecordsLast(run: History, i: nat, j: nat)
    requires i <= j <= |run.requests|
    ensures Extends(run.states[i], run.states[j])
    decreases j
  {
    if i < j {
      RecordsLast(run, i, j - 1);
      StepHolds(run, j - 1);
      StepCases(run.states[j - 1], run.requests[j - 1]);
    }
  }

  lemma FreshRecords(run: History, i: nat)
    requires i < |run.requests| && Fresh(run.states[i], run.requests[i])
    ensures var s := run.states[i + 1];
            KeyOf(run.requests[i]) in s.idempotency
            && s.idempotency[KeyOf(run.requests[i])] == Cached(200, ValueOf(ChangeMade(run.states[i], run.requests[i])))
  {
    StepHolds(run, i);
    StepCases(run.states[i], run.requests[i]);
  }

  /** However often a key is sent, at most one request with it takes effect. */
  lemma EffectAtMostOnce(run: History, i: nat, j: nat, key: string)
    requires i < |run.requests| && j < |run.requests|
    requires FreshAt(run, i, key) && FreshAt(run, j, key)
    ensures i == j
  {
    if i != j {
      var first, second := if i < j then i else j, if i < j then j else i;
      FreshRecords(run, first);
      RecordsLast(run, first + 1, second);
      StepCases(run.states[second], run.requests[second]);
    }
  }

  /** A record after a request was there before it, or the request made it. */
  lemma RecordStep(s: State, request: Request, key: string)
    requires key in Serve(s, request).0.idempotency
    ensures var record := Serve(s, request).0.idempotency[key];
            if Fresh(s, request) && KeyOf(request) == key
            then record == Cached(200, ValueOf(ChangeMade(s, request)))
            else key in s.idempotency && s.idempotency[key] == record
  {
    StepCases(s, request);
  }

  /** Every record was made by a fresh request with that key and holds the value of its change. */
  lemma {:induction false} RecordOrigin(run: History, n: nat, key: string) returns (i: nat)
    requires n <= |run.requests| && key in run.states[n].idempotency
    ensures i < n && FreshAt(run, i, key)
    ensures run.states[n].idempotency[key] == Cached(200, ValueOf(ChangeMade(run.states[i], run.requests[i])))
    decreases n
  {
    assert n > 0;
    i := n - 1;
    StepHolds(run, i);
    RecordStep(run.states[i], run.requests[i], key);
    if !FreshAt(run, i, key) {
      i := RecordOrigin(run, n - 1, key);
    }
  }

  /** The request at `i` is a mutation and was answered with success. */
  ghost predicate Succeeds(run: History, i: nat)
    requires i < |run.requests|
  {
    IsMutation(run.requests[i].route) && Serve(run.states[i], run.requests[i]).1.status == 200
  }

  lemma {:induction false} RecordsSucceedAlways(run: History, n: nat)
    requires n <= |run.requests|
    ensures RecordsSucceed(run.states[n])
    decreases n
  {
    if n > 0 {
      StepHolds(run, n - 1);
      RecordsSucceedAlways(run, n - 1);
      ServeStatus(run.states[n - 1], run.requests[n - 1]);
    }
  }

  /** A successful reply is exactly the record under its key, now and in every later state. */
  lemma SuccessIsTheRecord(run: History, i: nat, n: nat)
    requires i < n <= |run.requests| && Succeeds(run, i)
    ensures KeyOf(run.requests[i]) in run.states[n].idempotency
    ensures Serve(run.states[i], run.requests[i]).1
         == Reply(200, Stored(run.states[n].idempotency[KeyOf(run.requests[i])].value))
  {
    var s, request := run.states[i], run.requests[i];
    StepHolds(run, i);
    StepCases(s, request);
    RecordsSucceedAlways(run, i);
    if Decide(s, request).Refuse? {
      RefusalStatus(s, request);
      assert false;
    }
    RecordsLast(run, i + 1, n);
  }

  /** All successful replies to one key carry the same value: that of the one fresh effect. */
  lemma RepliesAgree(run: History, i: nat, j: nat)
    requires i < |run.requests| && j < |run.requests| && Succeeds(run, i) && Succeeds(run, j)
    requires KeyOf(run.requests[i]) == KeyOf(run.requests[j])
    ensures Serve(run.states[i], run.requests[i]).1 == Serve(run.states[j], run.requests[j]).1
    ensures exists k | 0 <= k < |run.requests| ::
              && FreshAt(run, k, KeyOf(run.requests[i]))
              && Serve(run.states[i], run.requests[i]).1
                 == Reply(200, Stored(ValueOf(ChangeMade(run.states[k], run.requests[k]))))
  {
    SuccessIsTheRecord(run, i, |run.requests|);
    SuccessIsTheRecord(run, j, |run.requests|);
    var k := RecordOrigin(run, |run.requests|, KeyOf(run.requests[i]));
  }

  /** Repeating an accepted request later, whatever happened in between, changes nothing and
      gives the recorded value. */
  lemma RetryReplays(run: History, i: nat, n: nat, again: Request)
    requires i < n <= |run.requests| && Fresh(run.states[i], run.requests[i])
    requires IsMutation(again.route) && KeyOf(again) == KeyOf(run.requests[i])
    requires CheckForm(again) == WellFormed
    ensures Serve(run.states[n], again)
         == (run.states[n], Reply(200, Stored(ValueOf(ChangeMade(run.states[i], run.requests[i])))))
  {
    FreshRecords(run, i);
    RecordsLast(run, i + 1, n);
  }
}
