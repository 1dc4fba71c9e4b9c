/** The release-record verifier: eight gates, each exactly once, and the map comparison of the
    contract digests. */
module Release {
  import opened Counting
  import opened Text

  datatype Gate = Gate(name: string, runID: int, conclusion: string)

  datatype ReleaseRecord = ReleaseRecord(status: string, sourceCommit: string, url: string, publishedAt: string,
                                         evidence: seq<Gate>)

  const REQUIRED_GATES: seq<string> := [
    "contract", "format", "vet", "unit-race-build", "browser-e2e", "dependency-review", "vulnerability", "codeql"]

  // ---------------------------------------------------------------- the gates

  predicate NamesDiffer(evidence: seq<Gate>) {
    forall i, j | 0 <= i < j < |evidence| :: evidence[i].name != evidence[j].name
  }

  /** The gate loop of `verifyStatic`. */
  method VerifyGates(evidence: seq<Gate>, required: seq<string>) returns (valid: bool)
    ensures valid <==>
              && |evidence| == |required| && NamesDiffer(evidence)
              && forall i | 0 <= i < |evidence| :: evidence[i].name in required
  {
    if |evidence| != |required| {
      return false;
    }
    var seen: set<string> := {};
    for i := 0 to |evidence|
      invariant seen == set j | 0 <= j < i :: evidence[j].name
      invariant NamesDiffer(evidence[..i])
      invariant forall j | 0 <= j < i :: evidence[j].name in required
    {
      if evidence[i].name !in required || evidence[i].name in seen {
        return false;
      }
      seen := seen + {evidence[i].name};
    }
    assert evidence[..|evidence|] == evidence;
    return true;
  }

  predicate Succeeded(gate: Gate) {
    gate.runID > 0 && gate.conclusion == "success"
  }

  predicate Pending(gate: Gate) {
    gate.runID == 0 && gate.conclusion == "pending"
  }

  method AllSucceeded(evidence: seq<Gate>) returns (all: bool)
    ensures all <==> forall i | 0 <= i < |evidence| :: Succeeded(evidence[i])
  {
    for i := 0 to |evidence|
      invariant forall j | 0 <= j < i :: Succeeded(evidence[j])
    {
      if evidence[i].runID <= 0 || evidence[i].conclusion != "success" {
        return false;
      }
    }
    return true;
  }

  method AllPending(evidence: seq<Gate>) returns (all: bool)
    ensures all <==> forall i | 0 <= i < |evidence| :: Pending(evidence[i])
  {
    for i := 0 to |evidence|
      invariant forall j | 0 <= j < i :: Pending(evidence[j])
    {
      if evidence[i].runID != 0 || evidence[i].conclusion != "pending" {
        return false;
      }
    }
    return true;
  }

  /** `verifyState`; `dated` says whether a text is a publication time. */
  method VerifyState(record: ReleaseRecord, dated: bool) returns (valid: bool)
    ensures valid <==> StateOk(record, dated)
  {
    if record.status == "candidate" {
      if record.sourceCommit != "" || record.url != "" || record.publishedAt != "" {
        return false;
      }
      valid := AllPending(record.evidence);
    } else if record.status == "accepted" {
      if !FullCommit(record.sourceCommit) || record.url != "" || record.publishedAt != "" {
        return false;
      }
      valid := AllSucceeded(record.evidence);
    } else if record.status == "released" {
      if !FullCommit(record.sourceCommit) || record.url == "" || !dated {
        return false;
      }
      valid := AllSucceeded(record.evidence);
    } else {
      return false;
    }
  }

  predicate StateOk(record: ReleaseRecord, dated: bool) {
    || (&& record.status == "candidate"
        && record.sourceCommit == "" && record.url == "" && record.publishedAt == ""
        && forall i | 0 <= i < |record.evidence| :: Pending(record.evidence[i]))
    || (&& (record.status == "accepted" || record.status == "released") && FullCommit(record.sourceCommit)
        && (if record.status == "accepted" then record.url == "" && record.publishedAt == ""
            else record.url != "" && dated)
        && forall i | 0 <= i < |record.evidence| :: Succeeded(record.evidence[i]))
  }

  /** What the state check accepts, status by status: a candidate claims no commit, no URL, no time and no
      run; an accepted record has a full commit and nothing published; a released one has a full commit, a
      URL and a publication time; and both have successful runs only. */
  lemma StateExactly(record: ReleaseRecord, dated: bool)
    ensures StateOk(record, dated) <==>
              && record.status in {"candidate", "accepted", "released"}
              && (record.status == "candidate" ==>
                    && record.sourceCommit == record.url == record.publishedAt == ""
                    && forall gate | gate in record.evidence :: gate.runID == 0 && gate.conclusion == "pending")
              && (record.status != "candidate" ==>
                    && |record.sourceCommit| == 40
                    && (forall i | 0 <= i < 40 ::
                          '0' <= record.sourceCommit[i] <= '9' || 'a' <= record.sourceCommit[i] <= 'f')
                    && forall gate | gate in record.evidence :: gate.runID > 0 && gate.conclusion == "success")
              && (record.status == "accepted" ==> record.url == record.publishedAt == "")
              && (record.status == "released" ==> record.url != "" && dated)
  {
    assert record.status == "candidate" ==> record.status[0] == 'c';
  }

  function Names(evidence: seq<Gate>): set<string> {
    set i | 0 <= i < |evidence| :: evidence[i].name
  }

  lemma {:induction false} DistinctNames(evidence: seq<Gate>)
    requires NamesDiffer(evidence)
    ensures |Names(evidence)| == |evidence|
  {
    if evidence != [] {
      var last := |evidence| - 1;
      DistinctNames(evidence[..last]);
      assert Names(evidence) == Names(evidence[..last]) + {evidence[last].name};
    }
  }

  lemma {:induction false} AtMostLength(names: seq<string>)
    ensures |set name | name in names| <= |names|
  {
    if names != [] {
      var last := |names| - 1;
      AtMostLength(names[..last]);
      assert names == names[..last] + [names[last]];
      assert (set name | name in names) == (set name | name in names[..last]) + {names[last]};
    }
  }

  /** What the gate loop accepts has every required gate exactly once: as many different required
      names as are required leave none out. */
  lemma EveryGateOnce(evidence: seq<Gate>, required: seq<string>, name: string)
    requires |evidence| == |required| && NamesDiffer(evidence)
    requires forall i | 0 <= i < |evidence| :: evidence[i].name in required
    requires name in required
    ensures exists i | 0 <= i < |evidence| ::
              evidence[i].name == name && forall j | 0 <= j < |evidence| && evidence[j].name == name :: j == i
  {
    var whole := set n | n in required;
    DistinctNames(evidence);
    AtMostLength(required);
    SubsetSize(Names(evidence), whole);
    FullSubset(Names(evidence), whole);
    assert name in Names(evidence);
    var i :| 0 <= i < |evidence| && evidence[i].name == name;
  }

  /** An accepted or released record has each of the eight gates exactly once, succeeded in a run
      with a positive number; a candidate record claims none of them. */
  lemma StateOfGates(record: ReleaseRecord, dated: bool, name: string)
    requires |record.evidence| == |REQUIRED_GATES| && NamesDiffer(record.evidence)
    requires forall i | 0 <= i < |record.evidence| :: record.evidence[i].name in REQUIRED_GATES
    requires StateOk(record, dated) && name in REQUIRED_GATES
    ensures exists i | 0 <= i < |record.evidence| ::
              && record.evidence[i].name == name
              && (forall j | 0 <= j < |record.evidence| && record.evidence[j].name == name :: j == i)
              && (if record.status == "candidate" then Pending(record.evidence[i]) else Succeeded(record.evidence[i]))
  {
    EveryGateOnce(record.evidence, REQUIRED_GATES, name);
    var i :| 0 <= i < |record.evidence|
             && record.evidence[i].name == name
             && forall j | 0 <= j < |record.evidence| && record.evidence[j].name == name :: j == i;
    assert if record.status == "candidate" then Pending(record.evidence[i]) else Succeeded(record.evidence[i]);
  }

  // ---------------------------------------------------------------- comparing digests

  /** Reading a Go map: a missing key reads as the empty string. */
  function Read(m: map<string, string>, key: string): string {
    if key in m then m[key] else ""
  }

  predicate LooksEqual(left: map<string, string>, right: map<string, string>) {
    |left| == |right| && forall key | key in left :: Read(right, key) == left[key]
  }

  /** `equalMap`. */
  method EqualMap(left: map<string, string>, right: map<string, string>) returns (equal: bool)
    ensures equal <==> LooksEqual(left, right)
  {
    if |left| != |right| {
      return false;
    }
    var rest := left.Keys;
    while rest != {}
      invariant rest <= left.Keys
      invariant forall key | key in left.Keys - rest :: Read(right, key) == left[key]
      decreases rest
    {
      var key :| key in rest;
      if Read(right, key) != left[key] {
        return false;
      }
      rest := rest - {key};
    }
    return true;
  }

  /** Without empty digests on the left the comparison means equality. */
  lemma LooksEqualIsEqual(left: map<string, string>, right: map<string, string>)
    requires LooksEqual(left, right) && forall key | key in left :: left[key] != ""
    ensures left == right
  {
    FullSubset(left.Keys, right.Keys);
  }

  lemma {:induction false} FreshKey(keys: set<string>) returns (key: string)
    ensures key !in keys && forall other | other in keys :: |other| < |key|
    decreases |keys|
  {
    if keys == {} {
      key := "";
    } else {
      var one :| one in keys;
      var longer := FreshKey(keys - {one});
      key := if |longer| > |one| then longer else one + "x";
    }
  }

  /** A left map with an empty digest is taken for a different map. */
  lemma EmptyDigestMisleads(left: map<string, string>, key: string) returns (right: map<string, string>)
    requires key in left && left[key] == ""
    ensures LooksEqual(left, right) && left != right
  {
    var other := FreshKey(left.Keys);
    right := (left - {key})[other := "x"];
    assert right.Keys == left.Keys - {key} + {other};
    assert other in right && other !in left;
  }

  /** The comparison can be trusted for a left map exactly when none of its digests is empty. */
  lemma TrustedExactly(left: map<string, string>)
    ensures (forall right :: LooksEqual(left, right) ==> left == right)
            <==> (forall key | key in left :: left[key] != "")
  {
    if forall key | key in left :: left[key] != "" {
      forall right | LooksEqual(left, right) ensures left == right {
        LooksEqualIsEqual(left, right);
      }
    } else {
      var key :| key in left && left[key] == "";
      var right := EmptyDigestMisleads(left, key);
    }
  }
}
