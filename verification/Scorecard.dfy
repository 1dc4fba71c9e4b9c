/** The scorecard verifier: one pass over the scored operations against the operations of the
    contract. Its acceptance implies a coverage that no line of it checks directly. */
module Scorecard {
  import opened Counting
  import opened Text

  datatype Scores = Scores(contractFidelity: int, authorizationTenantSecurity: int, operationSafety: int,
                           accessibleUX: int, evidenceOperability: int)

  datatype Controls = Controls(contractMatch: bool, roleEnforced: bool, tenantServerDerived: bool,
                               mutationGuardedOrReadOnly: bool, auditRecordedOrReadOnly: bool)

  /** An operation, with its method in upper case: `get` and `GET` of the contract are both GET. */
  datatype Operation = Operation(id: string, verb: string, path: string, roles: seq<string>)

  datatype Scored = Scored(operation: Operation, scores: Scores, total: int, evidence: seq<string>,
                           controls: Controls)

  datatype Record = Record(schemaVersion: int, status: string, studioVersion: string, contractVersion: string,
                           providerCommit: string, threshold: int, weights: Scores, operations: seq<Scored>)

  /** The pinned contract; `operations` lists the two levels of its paths in the order in which
      they are visited. */
  datatype Contract = Contract(version: string, operations: seq<Operation>)

  function Total(scores: Scores): int {
    scores.contractFidelity + scores.authorizationTenantSecurity + scores.operationSafety + scores.accessibleUX
    + scores.evidenceOperability
  }

  predicate Within(scores: Scores, weights: Scores) {
    && 0 <= scores.contractFidelity <= weights.contractFidelity
    && 0 <= scores.authorizationTenantSecurity <= weights.authorizationTenantSecurity
    && 0 <= scores.operationSafety <= weights.operationSafety
    && 0 <= scores.accessibleUX <= weights.accessibleUX
    && 0 <= scores.evidenceOperability <= weights.evidenceOperability
  }

  predicate AllControls(controls: Controls) {
    controls.contractMatch && controls.roleEnforced && controls.tenantServerDerived
    && controls.mutationGuardedOrReadOnly && controls.auditRecordedOrReadOnly
  }

  /** The contract's operations by identifier; a later one replaces an earlier one. */
  function Expected(operations: seq<Operation>): map<string, Operation> {
    if operations == [] then map[]
    else
      var last := operations[|operations| - 1];
      Expected(operations[..|operations| - 1])[last.id := last]
  }

  predicate Identified(record: Record, contract: Contract) {
    && record.schemaVersion == 1 && (record.status == "candidate" || record.status == "accepted")
    && record.studioVersion == "1.1.0" && record.contractVersion == contract.version
    && FullCommit(record.providerCommit) && record.threshold == 90 && Total(record.weights) == 100
  }

  /** One scored operation on its own. */
  predicate Qualifies(scored: Scored, record: Record, expected: map<string, Operation>, files: set<string>) {
    && scored.operation.id in expected && scored.operation == expected[scored.operation.id]
    && Within(scored.scores, record.weights) && Total(scored.scores) == scored.total
    && scored.total >= record.threshold
    && AllControls(scored.controls) && |scored.evidence| >= 2
    && forall i | 0 <= i < |scored.evidence| :: scored.evidence[i] in files
  }

  predicate IdsDiffer(operations: seq<Scored>) {
    forall i, j | 0 <= i < j < |operations| :: operations[i].operation.id != operations[j].operation.id
  }

  predicate Accepts(record: Record, contract: Contract, files: set<string>) {
    var expected := Expected(contract.operations);
    && Identified(record, contract) && |record.operations| == |expected| && IdsDiffer(record.operations)
    && forall i | 0 <= i < |record.operations| :: Qualifies(record.operations[i], record, expected, files)
  }

  /** Every file of the evidence exists. */
  method AllAvailable(evidence: seq<string>, files: set<string>) returns (available: bool)
    ensures available <==> forall i | 0 <= i < |evidence| :: evidence[i] in files
  {
    for i := 0 to |evidence|
      invariant forall j | 0 <= j < i :: evidence[j] in files
    {
      if evidence[i] !in files {
        return false;
      }
    }
    return true;
  }

  method CollectExpected(operations: seq<Operation>) returns (expected: map<string, Operation>)
    ensures expected == Expected(operations)
  {
    expected := map[];
    for i := 0 to |operations|
      invariant expected == Expected(operations[..i])
    {
      expected := expected[operations[i].id := operations[i]];
      assert operations[..i + 1][..i] == operations[..i];
    }
    assert operations[..|operations|] == operations;
  }

  /** `Verify`: collects the expected operations, then goes through the scored ones once and
      remembers which identifiers it has seen. */
  method Verify(record: Record, contract: Contract, files: set<string>) returns (accepted: bool)
    ensures accepted <==> Accepts(record, contract, files)
  {
    if !Identified(record, contract) {
      return false;
    }
    var expected := CollectExpected(contract.operations);
    if |expected| != |record.operations| {
      return false;
    }
    var seen: set<string> := {};
    for i := 0 to |record.operations|
      invariant seen == set j | 0 <= j < i :: record.operations[j].operation.id
      invariant IdsDiffer(record.operations[..i])
      invariant forall j | 0 <= j < i :: Qualifies(record.operations[j], record, expected, files)
    {
      var scored := record.operations[i];
      if scored.operation.id !in expected || scored.operation.id in seen {
        return false;
      }
      seen := seen + {scored.operation.id};
      if scored.operation != expected[scored.operation.id] {
        return false;
      }
      if !Within(scored.scores, record.weights) || Total(scored.scores) != scored.total
         || scored.total < record.threshold
      {
        return false;
      }
      if !AllControls(scored.controls) || |scored.evidence| < 2 {
        return false;
      }
      var available := AllAvailable(scored.evidence, files);
      if !available {
        return false;
      }
    }
    assert record.operations[..|record.operations|] == record.operations;
    return true;
  }

  /** What acceptance comes to: a record of version 1.1.0 for this contract with a full commit, a threshold
      of 90 and weights that sum to 100, and as many different operations as the contract has, each as
      the contract has it, with five scores within the weights that sum to a total of at least 90, all
      five controls, and two or more pieces of evidence that are all there. */
  lemma AcceptsExactly(record: Record, contract: Contract, files: set<string>)
    ensures Accepts(record, contract, files) <==>
              var w, expected := record.weights, Expected(contract.operations);
              && record.schemaVersion == 1 && record.status in {"candidate", "accepted"}
              && record.studioVersion == "1.1.0" && record.contractVersion == contract.version
              && |record.providerCommit| == 40 && record.threshold == 90
              && (forall i | 0 <= i < 40 ::
                    '0' <= record.providerCommit[i] <= '9' || 'a' <= record.providerCommit[i] <= 'f')
              && w.contractFidelity + w.authorizationTenantSecurity + w.operationSafety + w.accessibleUX
                 + w.evidenceOperability == 100
              && |record.operations| == |expected|
              && (forall i, j | 0 <= i < j < |record.operations| ::
                    record.operations[i].operation.id != record.operations[j].operation.id)
              && forall i | 0 <= i < |record.operations| ::
                   var scored, c, s := record.operations[i], record.operations[i].controls, record.operations[i].scores;
                   && scored.operation.id in expected && scored.operation == expected[scored.operation.id]
                   && 0 <= s.contractFidelity <= w.contractFidelity
                   && 0 <= s.authorizationTenantSecurity <= w.authorizationTenantSecurity
                   && 0 <= s.operationSafety <= w.operationSafety && 0 <= s.accessibleUX <= w.accessibleUX
                   && 0 <= s.evidenceOperability <= w.evidenceOperability
                   && s.contractFidelity + s.authorizationTenantSecurity + s.operationSafety + s.accessibleUX
                      + s.evidenceOperability == scored.total >= 90
                   && c.contractMatch && c.roleEnforced && c.tenantServerDerived && c.mutationGuardedOrReadOnly
                   && c.auditRecordedOrReadOnly
                   && |scored.evidence| >= 2 && forall file | file in scored.evidence :: file in files
  {
  }

  // ---------------------------------------------------------------- coverage by counting

  function ScoredIds(operations: seq<Scored>): set<string> {
    set i | 0 <= i < |operations| :: operations[i].operation.id
  }

  function ContractIds(operations: seq<Operation>): set<string> {
    set i | 0 <= i < |operations| :: operations[i].id
  }

  lemma {:induction false} ExpectedKeys(operations: seq<Operation>)
    ensures Expected(operations).Keys == ContractIds(operations)
    ensures forall id | id in Expected(operations) ::
              Expected(operations)[id] in operations && Expected(operations)[id].id == id
  {
    if operations != [] {
      var rest := operations[..|operations| - 1];
      ExpectedKeys(rest);
      assert operations == rest + [operations[|operations| - 1]];
      assert ContractIds(operations) == ContractIds(rest) + {operations[|operations| - 1].id};
    }
  }

  lemma {:induction false} DistinctCount(operations: seq<Scored>)
    requires IdsDiffer(operations)
    ensures |ScoredIds(operations)| == |operations|
  {
    if operations != [] {
      var last := |operations| - 1;
      DistinctCount(operations[..last]);
      assert ScoredIds(operations) == ScoredIds(operations[..last]) + {operations[last].operation.id};
    }
  }

  /** Acceptance makes the scored identifiers exactly the contract's, each scored once, and no
      score falls more than ten points below its weight. */
  lemma AcceptedCovers(record: Record, contract: Contract, files: set<string>)
    requires Accepts(record, contract, files)
    ensures ScoredIds(record.operations) == ContractIds(contract.operations) && IdsDiffer(record.operations)
    ensures forall i | 0 <= i < |record.operations| ::
              record.operations[i].operation in contract.operations
              && NearWeights(record.operations[i].scores, record.weights)
  {
    var expected := Expected(contract.operations);
    ExpectedKeys(contract.operations);
    DistinctCount(record.operations);
    forall id | id in ScoredIds(record.operations) ensures id in expected.Keys {
      var i :| 0 <= i < |record.operations| && record.operations[i].operation.id == id;
      assert Qualifies(record.operations[i], record, expected, files);
    }
    FullSubset(ScoredIds(record.operations), expected.Keys);
    forall i | 0 <= i < |record.operations|
      ensures record.operations[i].operation in contract.operations
              && NearWeights(record.operations[i].scores, record.weights)
    {
      assert Qualifies(record.operations[i], record, expected, files);
    }
  }

  predicate NearWeights(scores: Scores, weights: Scores) {
    && weights.contractFidelity - 10 <= scores.contractFidelity
    && weights.authorizationTenantSecurity - 10 <= scores.authorizationTenantSecurity
    && weights.operationSafety - 10 <= scores.operationSafety
    && weights.accessibleUX - 10 <= scores.accessibleUX
    && weights.evidenceOperability - 10 <= scores.evidenceOperability
  }

  // ---------------------------------------------------------------- shared identifiers

  /** Operations that share an identifier are one and the same, upper-cased method included. */
  predicate SharedIdsAgree(operations: seq<Operation>) {
    forall i, j | 0 <= i < |operations| && 0 <= j < |operations| && operations[i].id == operations[j].id ::
      operations[i] == operations[j]
  }

  predicate IsScored(operation: Operation, scored: seq<Scored>) {
    exists i | 0 <= i < |scored| :: scored[i].operation == operation
  }

  lemma ScoredOnce(record: Record, contract: Contract, files: set<string>, a: nat, b: nat)
    requires Accepts(record, contract, files)
    requires a < |contract.operations| && b < |contract.operations|
    requires contract.operations[a].id == contract.operations[b].id && contract.operations[a] != contract.operations[b]
    ensures !IsScored(contract.operations[a], record.operations) || !IsScored(contract.operations[b], record.operations)
  {
    assert forall i, j | 0 <= i < |record.operations| && 0 <= j < |record.operations|
                         && record.operations[i].operation.id == record.operations[j].operation.id :: i == j;
  }

  lemma LastIsExpected(operations: seq<Operation>, i: nat)
    requires SharedIdsAgree(operations) && i < |operations|
    ensures operations[i].id in Expected(operations) && Expected(operations)[operations[i].id] == operations[i]
  {
    ExpectedKeys(operations);
    assert operations[i].id in ContractIds(operations);
    var found := Expected(operations)[operations[i].id];
    var j :| 0 <= j < |operations| && operations[j] == found;
  }

  /** An accepted scorecard scores every operation of the contract exactly when operations with a
      common identifier are the same; the verifier itself does not look for others. */
  lemma EveryOperationIsScored(record: Record, contract: Contract, files: set<string>)
    requires Accepts(record, contract, files)
    ensures (forall k | 0 <= k < |contract.operations| :: IsScored(contract.operations[k], record.operations))
            <==> SharedIdsAgree(contract.operations)
  {
    AcceptedCovers(record, contract, files);
    if SharedIdsAgree(contract.operations) {
      forall k | 0 <= k < |contract.operations| ensures IsScored(contract.operations[k], record.operations) {
        var operation := contract.operations[k];
        assert operation.id in ScoredIds(record.operations);
        var i :| 0 <= i < |record.operations| && record.operations[i].operation.id == operation.id;
        assert Qualifies(record.operations[i], record, Expected(contract.operations), files);
        LastIsExpected(contract.operations, k);
        assert record.operations[i].operation == operation;
      }
    } else {
      var a, b :| 0 <= a < |contract.operations| && 0 <= b < |contract.operations|
                  && contract.operations[a].id == contract.operations[b].id
                  && contract.operations[a] != contract.operations[b];
      ScoredOnce(record, contract, files, a, b);
    }
  }

  // ---------------------------------------------------------------- every contract can be scored

  const FULL_SCORES := Scores(20, 20, 20, 20, 20)
  const ALL_CONTROLS := Controls(true, true, true, true, true)

  function FullyScored(operation: Operation, file: string): Scored {
    Scored(operation, FULL_SCORES, 100, [file, file], ALL_CONTROLS)
  }

  lemma OneMoreScored(scored: seq<Scored>, one: Scored)
    ensures ScoredIds(scored + [one]) == ScoredIds(scored) + {one.operation.id}
  {
    var more := scored + [one];
    assert more[|scored|] == one;
    forall i | 0 <= i < |scored| ensures more[i] == scored[i] {
    }
  }

  /** The list scores just these identifiers, each once and fully. */
  predicate ScoresAll(scored: seq<Scored>, ids: set<string>, expected: map<string, Operation>, file: string) {
    && |scored| == |ids| && ScoredIds(scored) == ids && IdsDiffer(scored)
    && forall i | 0 <= i < |scored| ::
         scored[i].operation.id in expected && scored[i] == FullyScored(expected[scored[i].operation.id], file)
  }

  lemma ScoreOneMore(scored: seq<Scored>, ids: set<string>, expected: map<string, Operation>, file: string, id: string)
    requires ScoresAll(scored, ids, expected, file) && id in expected && id !in ids && expected[id].id == id
    ensures ScoresAll(scored + [FullyScored(expected[id], file)], ids + {id}, expected, file)
  {
    var one := FullyScored(expected[id], file);
    OneMoreScored(scored, one);
    forall i | 0 <= i < |scored| ensures scored[i].operation.id != id {
      assert scored[i].operation.id in ScoredIds(scored);
    }
  }

  lemma {:induction false} ScoreAll(expected: map<string, Operation>, ids: set<string>, file: string)
    returns (scored: seq<Scored>)
    requires ids <= expected.Keys && forall id | id in expected :: expected[id].id == id
    ensures ScoresAll(scored, ids, expected, file)
    decreases |ids|
  {
    if ids == {} {
      scored := [];
    } else {
      var id :| id in ids;
      var rest := ScoreAll(expected, ids - {id}, file);
      ScoreOneMore(rest, ids - {id}, expected, file, id);
      scored := rest + [FullyScored(expected[id], file)];
      assert ids - {id} + {id} == ids;
    }
  }

  /** Every contract has an accepted scorecard. */
  lemma SomeScorecard(contract: Contract, file: string) returns (record: Record)
    ensures Accepts(record, contract, {file})
  {
    var expected := Expected(contract.operations);
    ExpectedKeys(contract.operations);
    var scored := ScoreAll(expected, expected.Keys, file);
    record := Record(1, "candidate", "1.1.0", contract.version, seq(40, _ => '0'), 90, FULL_SCORES, scored);
    assert Identified(record, contract);
  }

  /** Whenever two different operations share an identifier, some scorecard is accepted that leaves
      one of them out. */
  lemma SharedIdentifierHides(contract: Contract, a: nat, b: nat) returns (record: Record)
    requires a < |contract.operations| && b < |contract.operations|
    requires contract.operations[a].id == contract.operations[b].id && contract.operations[a] != contract.operations[b]
    ensures Accepts(record, contract, {"evidence"})
    ensures !IsScored(contract.operations[a], record.operations) || !IsScored(contract.operations[b], record.operations)
  {
    record := SomeScorecard(contract, "evidence");
    ScoredOnce(record, contract, {"evidence"}, a, b);
  }
}
