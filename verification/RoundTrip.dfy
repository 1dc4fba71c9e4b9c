/** The round-trip theorem: exactly when a printed request reaches the intended handler with the
    intended identifiers. */
module RoundTrip {
  import opened Text
  import opened Escaping
  import opened Routing
  import opened ProviderModel
  import opened ClientPaths

  // ---------------------------------------------------------------- splitting paths

  predicate SplitsInto(s: string, parts: seq<string>) {
    Split(s, '/') == parts
  }

  lemma SplitStep(c: char, s: string, parts: seq<string>)
    requires SplitsInto(s, parts)
    ensures |parts| >= 1
    ensures SplitsInto([c] + s, if c == '/' then [""] + parts else [[c] + parts[0]] + parts[1..])
  {
    assert ([c] + s)[1..] == s;
  }

  lemma {:induction false} SplitBoth(a: string, rest: string)
    ensures SplitsInto(a + ("/" + rest), Split(a, '/') + Split(rest, '/'))
  {
    var more := Split(rest, '/');
    if a == [] {
      SplitStep('/', rest, more);
      assert a + ("/" + rest) == ['/'] + rest;
    } else {
      SplitBoth(a[1..], rest);
      var tail := Split(a[1..], '/');
      SplitStep(a[0], a[1..] + ("/" + rest), tail + more);
      assert a + ("/" + rest) == [a[0]] + (a[1..] + ("/" + rest));
      assert (tail + more)[1..] == tail[1..] + more;
    }
  }

  lemma SplitConcat(a: string, rest: string)
    ensures Split(a + "/" + rest, '/') == Split(a, '/') + Split(rest, '/')
  {
    SplitBoth(a, rest);
    assert a + "/" + rest == a + ("/" + rest);
  }

  lemma {:induction false} JoinAppend(parts: seq<string>, last: string)
    requires |parts| >= 1
    ensures Join(parts + [last], '/') == Join(parts, '/') + "/" + last
  {
    var whole := parts + [last];
    if |parts| > 1 {
      JoinAppend(parts[1..], last);
      assert whole[1..] == parts[1..] + [last];
      assert parts[0] + ['/'] + (Join(parts[1..], '/') + "/" + last)
          == (parts[0] + ['/'] + Join(parts[1..], '/')) + "/" + last;
    } else {
      assert whole[1..] == [last];
      assert whole[0] == parts[0];
    }
  }

  lemma {:induction false} JoinEnds(parts: seq<string>)
    requires |parts| >= 1 && forall i | 0 <= i < |parts| :: parts[i] != "" && '/' !in parts[i]
    ensures var joined := Join(parts, '/');
            joined != "" && joined[0] != '/' && joined[|joined| - 1] != '/'
  {
    assert parts[0][0] in parts[0];
    if |parts| > 1 {
      JoinEnds(parts[1..]);
    } else {
      assert parts[0][|parts[0]| - 1] in parts[0];
    }
  }

  /** The parts a handler splits the spelled path into are the spelled segments. */
  lemma PartsOfSpelled(parts: seq<string>)
    requires |parts| >= 1 && forall i | 0 <= i < |parts| :: parts[i] != "" && '/' !in parts[i]
    ensures PathParts("/" + Join(parts, '/')) == parts
  {
    var joined := Join(parts, '/');
    JoinEnds(parts);
    assert ("/" + joined)[1..] == joined;
    assert TrimLeft("/" + joined, '/') == TrimLeft(joined, '/') == joined;
    SplitJoin(parts, '/');
  }

  /** Trimming slashes only removes empty parts. */
  lemma {:induction false} TrimLeftParts(s: string)
    ensures forall part | part in Split(TrimLeft(s, '/'), '/') :: part in Split(s, '/')
  {
    if s != [] && s[0] == '/' {
      TrimLeftParts(s[1..]);
    }
  }

  lemma {:induction false} TrimRightParts(s: string)
    ensures forall part | part in Split(TrimRight(s, '/'), '/') :: part in Split(s, '/')
  {
    if s != [] && s[|s| - 1] == '/' {
      var front := s[..|s| - 1];
      TrimRightParts(front);
      SplitConcat(front, "");
      assert front + "/" + "" == s;
    }
  }

  lemma PartsAreSplit(path: string)
    ensures forall part | part in PathParts(path) :: part in Split(path, '/')
  {
    TrimLeftParts(path);
    TrimRightParts(TrimLeft(path, '/'));
  }

  // ---------------------------------------------------------------- the spelled paths

  lemma WordBases()
    ensures Spell(METADATA) == ["studio", "v1", "metadata", "entities"]
    ensures Spell(IDENTITY) == ["studio", "v1", "identity"]
    ensures Spell(WORKFLOWS) == ["studio", "v1", "workflows"]
  {
  }

  lemma JoinThree(a: string, b: string, c: string)
    ensures Join([a, b, c], '/') == a + "/" + b + "/" + c
  {
    JoinAppend([a], b);
    JoinAppend([a, b], c);
    assert [a] + [b] == [a, b] && [a, b] + [c] == [a, b, c];
  }

  lemma JoinFour(a: string, b: string, c: string, d: string)
    ensures Join([a, b, c, d], '/') == a + "/" + b + "/" + c + "/" + d
  {
    JoinThree(a, b, c);
    JoinAppend([a, b, c], d);
    assert [a, b, c] + [d] == [a, b, c, d];
  }

  lemma RootedFour(a: string, b: string, c: string, d: string)
    ensures "/" + Join([a, b, c, d], '/') == "/" + a + "/" + b + "/" + c + "/" + d
  {
    JoinFour(a, b, c, d);
    assert "/" + (a + "/" + b + "/" + c + "/" + d) == "/" + a + "/" + b + "/" + c + "/" + d;
  }

  lemma RootedAppend(parts: seq<string>, last: string)
    requires |parts| >= 1
    ensures "/" + Join(parts + [last], '/') == "/" + Join(parts, '/') + "/" + last
  {
    JoinAppend(parts, last);
    Reassociate("/", Join(parts, '/'), "/", last);
  }

  lemma Reassociate(a: string, b: string, c: string, d: string)
    ensures a + (b + c + d) == a + b + c + d
  {
  }

  lemma SpelledEntityPath(id: string)
    ensures "/" + Join(Spell(METADATA + [Id(id)]), '/') == ENTITY_PREFIX + id
  {
    var base := ["studio", "v1", "metadata", "entities"];
    RootedFour("studio", "v1", "metadata", "entities");
    RootedAppend(base, id);
    assert Spell(METADATA + [Id(id)]) == base + [id];
  }

  lemma SpelledDeletionPlanPath(id: string)
    ensures "/" + Join(Spell(METADATA + [Id(id), Fixed(WDeletePlan)]), '/') == ENTITY_PREFIX + id + "/" + "delete-plan"
  {
    SpelledEntityPath(id);
    var front := Spell(METADATA + [Id(id)]);
    RootedAppend(front, "delete-plan");
    assert Spell(METADATA + [Id(id), Fixed(WDeletePlan)]) == front + ["delete-plan"];
  }

  lemma SpelledRolePath(id: string)
    ensures "/" + Join(Spell(IDENTITY + [Fixed(WRoles), Id(id)]), '/') == ROLE_PREFIX + id
  {
    var base := ["studio", "v1", "identity", "roles"];
    RootedFour("studio", "v1", "identity", "roles");
    RootedAppend(base, id);
    assert Spell(IDENTITY + [Fixed(WRoles), Id(id)]) == base + [id];
  }

  lemma SpelledUsersPath()
    ensures "/" + Join(Spell(IDENTITY + [Fixed(WUsers)]), '/') == USERS
  {
    RootedFour("studio", "v1", "identity", "users");
    assert Spell(IDENTITY + [Fixed(WUsers)]) == ["studio", "v1", "identity", "users"];
  }

  lemma SpelledRolesPath()
    ensures "/" + Join(Spell(IDENTITY + [Fixed(WRoles)]), '/') == ROLES
  {
    RootedFour("studio", "v1", "identity", "roles");
    assert Spell(IDENTITY + [Fixed(WRoles)]) == ["studio", "v1", "identity", "roles"];
  }

  lemma SpelledPlansPath()
    ensures "/" + Join(Spell([Fixed(WStudio), Fixed(WV1), Fixed(WQuota), Fixed(WPlans)]), '/') == PLANS
  {
    RootedFour("studio", "v1", "quota", "plans");
    assert Spell([Fixed(WStudio), Fixed(WV1), Fixed(WQuota), Fixed(WPlans)]) == ["studio", "v1", "quota", "plans"];
  }

  /** A path that ends in a slash and a word has that suffix. */
  lemma EndsWith(parts: seq<string>, last: string)
    ensures HasSuffix("/" + Join(parts + [last], '/'), "/" + last)
  {
    if parts == [] {
      assert parts + [last] == [last];
      assert ("/" + last)[0..] == "/" + last;
    } else {
      JoinAppend(parts, last);
      var front := "/" + Join(parts, '/');
      assert "/" + (Join(parts, '/') + "/" + last) == front + ("/" + last);
      AffixesOfConcat("", front, "/" + last);
    }
  }

  lemma KeepLast(kept: seq<string>, segments: seq<string>, last: string)
    requires !IsDotSegment(last)
    ensures Keep(kept, segments + [last]) == Keep(kept, segments) + [last]
    decreases |segments|
  {
    var whole := segments + [last];
    if segments == [] {
      assert whole[1..] == [];
    } else {
      assert whole[1..] == segments[1..] + [last];
      if segments[0] == "." {
        KeepLast(kept, segments[1..], last);
      } else if segments[0] == ".." {
        KeepLast(if kept == [] then [] else kept[..|kept| - 1], segments[1..], last);
      } else {
        KeepLast(kept + [segments[0]], segments[1..], last);
      }
    }
  }

  lemma KeptEndsWith(segments: seq<string>, last: string)
    requires segments != [] && segments[|segments| - 1] == last && !IsDotSegment(last)
    ensures Keep([], segments) != [] && Keep([], segments)[|Keep([], segments)| - 1] == last && Tail(segments) == ""
  {
    var front := segments[..|segments| - 1];
    KeepLast([], front, last);
    assert segments == front + [last];
  }

  /** Whatever comes before it, a final plain word arrives as the last segment. */
  lemma ResolvedEndsWith(segments: seq<string>, last: string)
    requires segments != [] && segments[|segments| - 1] == last && GoodWord(last)
    requires forall i | 0 <= i < |segments| :: Clean(segments[i])
    ensures Unescape(Resolve(segments)).Some? && HasSuffix(Unescape(Resolve(segments)).value, "/" + last)
  {
    var raws, tail := ResolvedIsKept(segments);
    PlainIsClean(last);
    KeptEndsWith(segments, last);
    var front := raws[..|raws| - 1];
    EndsWith(front, last);
    assert raws == front + [last];
    NothingAdded(raws);
  }

  lemma SeenEndsWithWord(call: Call, word: Word)
    requires SafeIds(call) && Template(call)[|Template(call)| - 1] == Fixed(word)
    ensures PathSeen(call).Some? && HasSuffix(PathSeen(call).value, "/" + TextOf(word))
  {
    PrintedIsClean(call);
    WordIsGood(word);
    PrintedEndsWith(call, word);
    ResolvedEndsWith(Printed(call), TextOf(word));
  }

  lemma PrintedEndsWith(call: Call, word: Word)
    requires SafeIds(call) && Template(call)[|Template(call)| - 1] == Fixed(word)
    ensures Printed(call) != [] && Printed(call)[|Printed(call)| - 1] == TextOf(word)
  {
  }

  lemma NothingAdded(parts: seq<string>)
    ensures Join(parts, '/') + "" == Join(parts, '/')
  {
  }

  // ---------------------------------------------------------------- the theorem, call by call

  predicate RoundTrips(call: Call)
    requires SafeIds(call)
  {
    Delivered(call) == Intended(call)
  }

  /** The handler that a path reaches is the one the call means, with the call's identifiers. */
  predicate Meets(call: Call, path: string) {
    var route := Dispatch(VerbOf(call), path);
    Delivery(route, TargetOf(route, path)) == Intended(call)
  }

  lemma Seen(call: Call, path: string)
    requires SafeIds(call) && PathSeen(call) == Some(path)
    ensures RoundTrips(call) <==> Meets(call, path)
  {
  }

  lemma NoDots(call: Call)
    requires SafeIds(call) && !HasDotId(call)
    ensures PathSeen(call) == Some("/" + Join(Spelled(call), '/'))
    ensures PathParts("/" + Join(Spelled(call), '/')) == Spelled(call)
  {
    SeenIsSpelled(call);
    PrintedIsClean(call);
    PartsOfSpelled(Spelled(call));
  }

  lemma DotIdAt(call: Call, i: nat)
    requires i < |Template(call)| && Template(call)[i].Id?
    requires forall j | 0 <= j < |Template(call)| && Template(call)[j].Id? :: j == i
    ensures HasDotId(call) <==> IsDotSegment(Template(call)[i].id)
  {
  }

  lemma PlainSeen(call: Call) returns (path: string)
    requires SafeIds(call) && !HasDotId(call)
    ensures PathSeen(call) == Some(path) && path == "/" + Join(Spelled(call), '/')
    ensures PathParts(path) == Spelled(call)
  {
    NoDots(call);
    path := "/" + Join(Spelled(call), '/');
  }

  lemma DottedSeen(call: Call) returns (path: string)
    requires SafeIds(call)
    ensures PathSeen(call) == Some(path) && HasPrefix(path, "/")
    ensures forall part | part in Split(path, '/') :: !IsDotSegment(part)
  {
    SeenHasNoDots(call);
    path := PathSeen(call).value;
  }

  /** The seen path of a call whose last segment is fixed. */
  lemma SeenWithSuffix(call: Call, word: Word) returns (path: string)
    requires SafeIds(call) && Template(call)[|Template(call)| - 1] == Fixed(word)
    ensures PathSeen(call) == Some(path) && HasPrefix(path, "/") && HasSuffix(path, "/" + TextOf(word))
    ensures forall part | part in Split(path, '/') :: !IsDotSegment(part)
  {
    path := DottedSeen(call);
    SeenEndsWithWord(call, word);
  }

  lemma SuffixTexts()
    ensures "/" + TextOf(WStatus) == "/status" && "/" + TextOf(WTasks) == "/tasks"
    ensures "/" + TextOf(WDeletePlan) == "/delete-plan"
    ensures "/" + TextOf(WCancel) == "/cancel" && "/" + TextOf(WRetry) == "/retry"
  {
  }

  lemma StatusSeen(call: Call) returns (path: string)
    requires SafeIds(call) && call.UserStatus?
    ensures PathSeen(call) == Some(path) && HasPrefix(path, "/") && HasSuffix(path, "/status")
    ensures forall part | part in Split(path, '/') :: !IsDotSegment(part)
  {
    path := SeenWithSuffix(call, WStatus);
    SuffixTexts();
  }

  lemma TasksSeen(call: Call) returns (path: string)
    requires SafeIds(call) && call.ListWorkflowTasks?
    ensures PathSeen(call) == Some(path) && HasPrefix(path, "/") && HasSuffix(path, "/tasks")
    ensures forall part | part in Split(path, '/') :: !IsDotSegment(part)
  {
    path := SeenWithSuffix(call, WTasks);
    SuffixTexts();
  }

  lemma PreviewSeen(call: Call) returns (path: string)
    requires SafeIds(call) && call.PlanEntityDeletion?
    ensures PathSeen(call) == Some(path) && HasPrefix(path, "/") && HasSuffix(path, "/delete-plan")
    ensures forall part | part in Split(path, '/') :: !IsDotSegment(part)
  {
    path := SeenWithSuffix(call, WDeletePlan);
    SuffixTexts();
  }

  lemma CancelSeen(call: Call) returns (path: string)
    requires SafeIds(call) && call.CancelWorkflowRun?
    ensures PathSeen(call) == Some(path) && HasPrefix(path, "/") && HasSuffix(path, "/cancel")
    ensures forall part | part in Split(path, '/') :: !IsDotSegment(part)
  {
    path := SeenWithSuffix(call, WCancel);
    SuffixTexts();
  }

  lemma RetrySeen(call: Call) returns (path: string)
    requires SafeIds(call) && call.RetryWorkflowTask?
    ensures PathSeen(call) == Some(path) && HasPrefix(path, "/") && HasSuffix(path, "/retry")
    ensures forall part | part in Split(path, '/') :: !IsDotSegment(part)
  {
    path := SeenWithSuffix(call, WRetry);
    SuffixTexts();
  }

  lemma SuffixLast(path: string, suffix: string)
    requires suffix != "" && HasSuffix(path, suffix)
    ensures path != "" && path[|path| - 1] == suffix[|suffix| - 1]
  {
    assert path[|path| - |suffix|..][|suffix| - 1] == path[|path| - 1];
  }

  lemma PartIsNoDot(path: string, i: nat)
    requires forall part | part in Split(path, '/') :: !IsDotSegment(part)
    requires i < |PathParts(path)|
    ensures !IsDotSegment(PathParts(path)[i])
  {
    PartsAreSplit(path);
    assert PathParts(path)[i] in PathParts(path);
  }

  /** An identifier that a handler cuts out after a prefix is a whole segment of the path. */
  lemma CutIsSegment(path: string, prefix: string, id: string)
    requires HasPrefix(path, "/") && id != "" && id[0] != '/'
    requires TrimPrefix(path, prefix + "/") == id
    ensures '/' !in id ==> id in Split(path, '/')
  {
    if HasPrefix(path, prefix + "/") && '/' !in id {
      assert path == prefix + "/" + id;
      SplitConcat(prefix, id);
      SplitWord(id, '/');
    }
  }

  lemma CutDiffers(path: string, prefix: string, id: string)
    requires HasPrefix(path, "/") && IsDotSegment(id)
    requires forall part | part in Split(path, '/') :: !IsDotSegment(part)
    ensures TrimPrefix(path, prefix + "/") != id
  {
    if TrimPrefix(path, prefix + "/") == id {
      CutIsSegment(path, prefix, id);
    }
  }

  // ---------------------------------------------------------------- metadata calls

  lemma EntityMeets(call: Call, path: string, code: string)
    requires (call.PutEntity? && call.entity.code == code) || (call.RemoveNow? && call.code == code)
    ensures Meets(call, path) <==> HasPrefix(path, ENTITY_PREFIX) && TrimPrefix(path, ENTITY_PREFIX) == code
  {
  }

  lemma EntityCallDelivered(call: Call)
    requires SafeIds(call) && (call.PutEntity? || call.RemoveNow?) && !HasDotId(call)
    ensures RoundTrips(call)
  {
    var code := Template(call)[4].id;
    var path := PlainSeen(call);
    SpelledEntityPath(code);
    AffixesOfConcat(ENTITY_PREFIX, code, "");
    EntityMeets(call, path, code);
    Seen(call, path);
  }

  lemma EntityCallDotted(call: Call)
    requires SafeIds(call) && (call.PutEntity? || call.RemoveNow?) && HasDotId(call)
    ensures !RoundTrips(call)
  {
    var code := Template(call)[4].id;
    DotIdAt(call, 4);
    var path := DottedSeen(call);
    CutDiffers(path, ENTITIES, code);
    EntityMeets(call, path, code);
    Seen(call, path);
  }

  lemma PreviewMeets(call: Call, path: string)
    requires call.PlanEntityDeletion? && HasSuffix(path, "/delete-plan")
    ensures Meets(call, path) <==> TrimSuffix(TrimPrefix(path, ENTITY_PREFIX), "/delete-plan") == call.code
  {
  }

  lemma PreviewCut(code: string)
    ensures var path := ENTITY_PREFIX + code + "/" + "delete-plan";
            HasSuffix(path, "/delete-plan") && TrimSuffix(TrimPrefix(path, ENTITY_PREFIX), "/delete-plan") == code
  {
    var path := ENTITY_PREFIX + code + "/" + "delete-plan";
    assert "/delete-plan" == "/" + "delete-plan";
    Regroup(ENTITY_PREFIX, code, "/", "delete-plan");
    AffixesOfConcat(ENTITY_PREFIX, code + "/delete-plan", "");
    AffixesOfConcat("", code, "/delete-plan");
    AffixesOfConcat("", ENTITY_PREFIX + code, "/delete-plan");
  }

  lemma Regroup(a: string, b: string, c: string, d: string)
    ensures a + b + c + d == a + (b + (c + d)) == (a + b) + (c + d)
  {
  }

  lemma PreviewDelivered(call: Call)
    requires SafeIds(call) && call.PlanEntityDeletion? && !HasDotId(call)
    ensures RoundTrips(call)
  {
    var path := PlainSeen(call);
    SpelledDeletionPlanPath(call.code);
    PreviewCut(call.code);
    PreviewMeets(call, path);
    Seen(call, path);
  }

  lemma DottedPreviewLost(path: string, code: string)
    requires HasPrefix(path, "/") && HasSuffix(path, "/delete-plan") && IsDotSegment(code)
    requires forall part | part in Split(path, '/') :: !IsDotSegment(part)
    ensures TrimSuffix(TrimPrefix(path, ENTITY_PREFIX), "/delete-plan") != code
  {
    var cut := TrimPrefix(path, ENTITY_PREFIX);
    SuffixLast(path, "/delete-plan");
    assert cut != "" ==> cut[|cut| - 1] == path[|path| - 1];
    if TrimSuffix(cut, "/delete-plan") == code {
      if HasSuffix(cut, "/delete-plan") {
        assert cut == code + "/delete-plan";
        DotBeforeSuffix(path, cut, code);
      }
    }
  }

  lemma DotBeforeSuffix(path: string, cut: string, code: string)
    requires HasPrefix(path, "/") && cut == TrimPrefix(path, ENTITY_PREFIX)
    requires cut == code + "/delete-plan" && IsDotSegment(code)
    ensures code in Split(path, '/')
  {
    assert HasPrefix(path, ENTITY_PREFIX) by {
      assert cut[0] == '.' && path[0] == '/';
    }
    assert path == ENTITIES + "/" + (code + "/delete-plan");
    assert "/delete-plan" == "/" + "delete-plan";
    assert code + ("/" + "delete-plan") == code + "/" + "delete-plan";
    SplitConcat(ENTITIES, code + "/" + "delete-plan");
    SplitConcat(code, "delete-plan");
    SplitWord(code, '/');
  }

  lemma PreviewDotted(call: Call)
    requires SafeIds(call) && call.PlanEntityDeletion? && HasDotId(call)
    ensures !RoundTrips(call)
  {
    DotIdAt(call, 4);
    var path := PreviewSeen(call);
    DottedPreviewLost(path, call.code);
    PreviewMeets(call, path);
    Seen(call, path);
  }

  // ---------------------------------------------------------------- identity calls

  lemma StatusMeets(call: Call, path: string)
    requires call.UserStatus? && HasSuffix(path, "/status")
    ensures Meets(call, path) <==> |PathParts(path)| == 6 && PathParts(path)[4] == call.id
  {
  }

  lemma StatusSpelled(call: Call)
    requires call.UserStatus?
    ensures |Spelled(call)| == 6 && Spelled(call)[4] == call.id
  {
  }

  lemma StatusDelivered(call: Call)
    requires SafeIds(call) && call.UserStatus? && !HasDotId(call)
    ensures RoundTrips(call)
  {
    var path := PlainSeen(call);
    var same := StatusSeen(call);
    StatusSpelled(call);
    StatusMeets(call, path);
    Seen(call, path);
  }

  lemma StatusDotted(call: Call)
    requires SafeIds(call) && call.UserStatus? && HasDotId(call)
    ensures !RoundTrips(call)
  {
    DotIdAt(call, 4);
    var path := StatusSeen(call);
    if |PathParts(path)| == 6 {
      PartIsNoDot(path, 4);
    }
    StatusMeets(call, path);
    Seen(call, path);
  }

  /** A role path ends in `/status` only when the role is named so. */
  lemma RoleNamedStatus(key: string)
    requires key != "" && '/' !in key
    ensures HasSuffix(ROLE_PREFIX + key, "/status") <==> key == "status"
  {
    if HasSuffix(ROLE_PREFIX + key, "/status") {
      SuffixedIsStatus(key);
    }
    if key == "status" {
      assert ROLE_PREFIX + key == "/studio/v1/identity/roles" + "/status";
      AffixesOfConcat("", "/studio/v1/identity/roles", "/status");
    }
  }

  lemma SuffixedIsStatus(key: string)
    requires key != "" && '/' !in key && HasSuffix(ROLE_PREFIX + key, "/status")
    ensures key == "status"
  {
    var path := ROLE_PREFIX + key;
    var at := |path| - 7;
    assert path[at..][0] == '/';
    assert forall i | |ROLE_PREFIX| <= i < |path| :: path[i] == key[i - |ROLE_PREFIX|];
    assert path[at] == ROLE_PREFIX[at];
    assert at == |ROLE_PREFIX| - 1;
    assert key == path[at..][1..];
  }

  lemma RoleMeets(call: Call, path: string)
    requires call.EditRole?
    ensures Meets(call, path) <==>
              && !HasSuffix(path, "/status") && HasPrefix(path, ROLE_PREFIX)
              && TrimPrefix(path, ROLE_PREFIX) == call.roleKey
  {
  }

  lemma RoleDelivered(call: Call)
    requires SafeIds(call) && call.EditRole? && !HasDotId(call)
    ensures RoundTrips(call) <==> call.roleKey != "status"
  {
    var path := PlainSeen(call);
    SpelledRolePath(call.roleKey);
    assert Template(call)[4] == Id(call.roleKey);
    RoleNamedStatus(call.roleKey);
    AffixesOfConcat(ROLE_PREFIX, call.roleKey, "");
    RoleMeets(call, path);
    Seen(call, path);
  }

  lemma RoleDotted(call: Call)
    requires SafeIds(call) && call.EditRole? && HasDotId(call)
    ensures !RoundTrips(call)
  {
    DotIdAt(call, 4);
    var path := DottedSeen(call);
    CutDiffers(path, ROLES, call.roleKey);
    RoleMeets(call, path);
    Seen(call, path);
  }

  // ---------------------------------------------------------------- role assignment

  lemma AssignmentMeets(call: Call, path: string)
    requires call.UserRole?
    ensures Meets(call, path) <==>
              && !HasPrefix(path, ENTITY_PREFIX) && Contains(path, "/roles/")
              && |PathParts(path)| == 7 && PathParts(path)[4] == call.id && PathParts(path)[6] == call.roleKey
  {
  }

  lemma AssignmentPath(id: string, roleKey: string)
    ensures var path := "/" + Join(Spell(IDENTITY + [Fixed(WUsers), Id(id), Fixed(WRoles), Id(roleKey)]), '/');
            Contains(path, "/roles/") && !HasPrefix(path, ENTITY_PREFIX)
  {
    WordBases();
    var base := ["studio", "v1", "identity", "users"];
    JoinFour("studio", "v1", "identity", "users");
    JoinAppend(base, id);
    JoinAppend(base + [id], "roles");
    JoinAppend(base + [id] + ["roles"], roleKey);
    assert Spell(IDENTITY + [Fixed(WUsers), Id(id), Fixed(WRoles), Id(roleKey)])
        == base + [id] + ["roles"] + [roleKey];
    var front := "/" + (Join(base, '/') + "/" + id);
    var path := "/" + (Join(base, '/') + "/" + id + "/" + "roles" + "/" + roleKey);
    assert path == front + ("/roles/" + roleKey);
    assert OccursAt(path, "/roles/", |front|);
    assert path[11] == 'i' && ENTITY_PREFIX[11] == 'm';
  }

  lemma AssignmentPathOf(call: Call)
    requires call.UserRole?
    ensures var path := "/" + Join(Spelled(call), '/'); Contains(path, "/roles/") && !HasPrefix(path, ENTITY_PREFIX)
  {
    AssignmentPath(call.id, call.roleKey);
    assert Template(call) == IDENTITY + [Fixed(WUsers), Id(call.id), Fixed(WRoles), Id(call.roleKey)];
  }

  lemma AssignmentSpelled(call: Call)
    requires call.UserRole?
    ensures |Spelled(call)| == 7 && Spelled(call)[4] == call.id && Spelled(call)[6] == call.roleKey
  {
  }

  lemma AssignmentDelivered(call: Call)
    requires SafeIds(call) && call.UserRole? && !HasDotId(call)
    ensures RoundTrips(call)
  {
    var path := PlainSeen(call);
    assert Meets(call, path) by {
      AssignmentPathOf(call);
      AssignmentSpelled(call);
      AssignmentMeets(call, path);
    }
    Seen(call, path);
  }

  lemma AssignmentDotted(call: Call)
    requires SafeIds(call) && call.UserRole? && HasDotId(call)
    ensures !RoundTrips(call)
  {
    var i :| 0 <= i < |Template(call)| && Template(call)[i].Id? && IsDotSegment(Template(call)[i].id);
    assert i == 4 || i == 6;
    var path := DottedSeen(call);
    if |PathParts(path)| == 7 {
      PartIsNoDot(path, 4);
      PartIsNoDot(path, 6);
    }
    AssignmentMeets(call, path);
    Seen(call, path);
  }

  // ---------------------------------------------------------------- workflow and fixed paths

  lemma LastOf(prefix: string, word: string)
    requires word != ""
    ensures (prefix + word)[|prefix + word| - 1] == word[|word| - 1]
  {
  }

  /** The paths of the lists end in `s`, so they have none of the suffixes of the switch. */
  lemma ListPathsEndInS(suffix: string)
    requires suffix != "" && suffix[|suffix| - 1] != 's'
    ensures !HasSuffix(USERS, suffix) && !HasSuffix(ROLES, suffix) && !HasSuffix(PLANS, suffix)
  {
    LastOf(BASE + "/" + "identity" + "/", "users");
    LastOf(BASE + "/" + "identity" + "/", "roles");
    LastOf(BASE + "/" + "quota" + "/", "plans");
    forall path | path == USERS || path == ROLES || path == PLANS ensures !HasSuffix(path, suffix) {
      if HasSuffix(path, suffix) {
        SuffixLast(path, suffix);
      }
    }
  }

  lemma ListPathsDiffer()
    ensures USERS != ROLES && ROLES != PLANS && USERS != PLANS
  {
    var identity := BASE + "/" + "identity" + "/";
    assert USERS[|identity|] == 'u' && ROLES[|identity|] == 'r';
    assert |USERS| == |identity| + 5 && |ROLES| == |identity| + 5 && |PLANS| == |identity| + 2;
  }

  lemma CancelMeets(call: Call, path: string)
    requires call.CancelWorkflowRun? && HasSuffix(path, "/cancel")
    ensures Meets(call, path)
  {
    assert "/cancel"[|"/cancel"| - 1] == 'l';
    SuffixLast(path, "/cancel");
    ListPathsEndInS("/cancel");
    SuffixesDiffer(path, "/cancel", "/delete-plan");
  }

  lemma RetryMeets(call: Call, path: string)
    requires call.RetryWorkflowTask? && HasSuffix(path, "/retry")
    ensures Meets(call, path)
  {
    assert "/retry"[|"/retry"| - 1] == 'y';
    ListPathsEndInS("/retry");
    SuffixesDiffer(path, "/retry", "/delete-plan");
    SuffixesDiffer(path, "/retry", "/cancel");
  }

  lemma SuffixesDiffer(path: string, suffix: string, other: string)
    requires suffix != "" && other != "" && suffix[|suffix| - 1] != other[|other| - 1] && HasSuffix(path, suffix)
    ensures !HasSuffix(path, other)
  {
    SuffixLast(path, suffix);
    if HasSuffix(path, other) {
      SuffixLast(path, other);
    }
  }

  lemma WorkflowDelivered(call: Call)
    requires SafeIds(call) && (call.CancelWorkflowRun? || call.RetryWorkflowTask?)
    ensures RoundTrips(call)
  {
    if call.CancelWorkflowRun? {
      var path := CancelSeen(call);
      CancelMeets(call, path);
      Seen(call, path);
    } else {
      var path := RetrySeen(call);
      RetryMeets(call, path);
      Seen(call, path);
    }
  }

  lemma FixedMeets(call: Call, path: string)
    requires (call.NewUser? && path == USERS) || (call.NewRole? && path == ROLES)
             || (call.PublishQuotaPlan? && path == PLANS)
    ensures Meets(call, path)
  {
    ListPathsDiffer();
    ListsHaveNoSuffix(path);
  }

  lemma ListsHaveNoSuffix(path: string)
    requires path == USERS || path == ROLES || path == PLANS
    ensures !HasSuffix(path, "/delete-plan") && !HasSuffix(path, "/cancel") && !HasSuffix(path, "/retry")
  {
    ListPathsEndInS("/delete-plan");
    ListPathsEndInS("/cancel");
    ListPathsEndInS("/retry");
  }

  lemma FixedDelivered(call: Call)
    requires call.NewUser? || call.NewRole? || call.PublishQuotaPlan?
    ensures SafeIds(call) && RoundTrips(call)
  {
    var path := PlainSeen(call);
    if call.NewUser? {
      SpelledUsersPath();
    } else if call.NewRole? {
      SpelledRolesPath();
    } else {
      SpelledPlansPath();
    }
    FixedMeets(call, path);
    Seen(call, path);
  }

  // ---------------------------------------------------------------- task listing

  lemma TasksMeet(call: Call, path: string)
    requires call.ListWorkflowTasks? && HasSuffix(path, "/tasks")
    ensures Meets(call, path) <==> HasPrefix(path, RUN_PREFIX)
  {
    NoListIsTasks(path);
  }

  /** No list path ends in `/tasks`: the last letter but one tells. */
  lemma NoListIsTasks(path: string)
    requires HasSuffix(path, "/tasks")
    ensures path != ENTITIES && path != USERS && path != ROLES && path != RUNS
  {
    assert path[|path| - 6..][4] == path[|path| - 2];
    assert ENTITIES[|ENTITIES| - 2] == 'e' && USERS[|USERS| - 2] == 'r';
    assert ROLES[|ROLES| - 2] == 'e' && RUNS[|RUNS| - 2] == 'n';
  }

  lemma {:induction false} KeepPlain(kept: seq<string>, plain: seq<string>, rest: seq<string>)
    requires forall i | 0 <= i < |plain| :: !IsDotSegment(plain[i])
    ensures Keep(kept, plain + rest) == Keep(kept + plain, rest)
    decreases |plain|
  {
    if plain == [] {
      assert plain + rest == rest && kept + plain == kept;
    } else {
      assert (plain + rest)[1..] == plain[1..] + rest;
      KeepPlain(kept + [plain[0]], plain[1..], rest);
      assert kept + [plain[0]] + plain[1..] == kept + plain;
    }
  }

  lemma TasksKept(runId: string)
    requires IsDotSegment(runId)
    ensures var kept := Keep([], ["studio", "v1", "workflows", "runs"] + [runId, "tasks"]);
            kept == if runId == "." then ["studio", "v1", "workflows", "runs", "tasks"]
                    else ["studio", "v1", "workflows", "tasks"]
  {
    var base := ["studio", "v1", "workflows", "runs"];
    KeepPlain([], base, [runId, "tasks"]);
    assert [] + base == base;
    assert [runId, "tasks"][1..] == ["tasks"] && ["tasks"][1..] == [];
  }

  lemma WordsJoinPlain(words: seq<Word>)
    ensures DecodesTo("/" + (Join(Spell(Fixeds(words)), '/') + ""), "/" + (Join(Spell(Fixeds(words)), '/') + ""))
  {
    var spelled := Spell(Fixeds(words));
    forall i | 0 <= i < |spelled| ensures Clean(spelled[i]) && Unescape(spelled[i]) == Some(spelled[i]) {
      WordIsGood(words[i]);
      PlainIsClean(TextOf(words[i]));
    }
    assert Raws(spelled) == spelled;
    TailDecodes("");
    UnescapeJoin(spelled, "");
    SlashStep(Join(spelled, '/') + "", Join(spelled, '/') + "");
  }

  function Fixeds(words: seq<Word>): (segments: seq<Segment>)
    ensures |segments| == |words| && forall i | 0 <= i < |words| :: segments[i] == Fixed(words[i])
  {
    seq(|words|, i requires 0 <= i < |words| => Fixed(words[i]))
  }

  const DOT_TASKS := RUNS + "/" + "tasks"
  const DOT_DOT_TASKS := BASE + "/" + "workflows" + "/" + "tasks"

  lemma DotTasksJoined()
    ensures "/" + (Join(["studio", "v1", "workflows", "runs", "tasks"], '/') + "") == DOT_TASKS
    ensures "/" + (Join(["studio", "v1", "workflows", "tasks"], '/') + "") == DOT_DOT_TASKS
  {
    var base := ["studio", "v1", "workflows", "runs"];
    RootedFour("studio", "v1", "workflows", "runs");
    RootedAppend(base, "tasks");
    RootedFour("studio", "v1", "workflows", "tasks");
    assert base + ["tasks"] == ["studio", "v1", "workflows", "runs", "tasks"];
    NothingAdded(["studio", "v1", "workflows", "runs", "tasks"]);
    NothingAdded(["studio", "v1", "workflows", "tasks"]);
  }

  lemma DotTasksPrefixes()
    ensures HasPrefix(DOT_TASKS, RUN_PREFIX) && !HasPrefix(DOT_DOT_TASKS, RUN_PREFIX)
  {
    var workflows := BASE + "/" + "workflows" + "/";
    assert DOT_DOT_TASKS[|workflows|] == 't' && RUN_PREFIX[|workflows|] == 'r';
  }

  lemma WordsArrivePlain(segments: seq<string>, words: seq<Word>)
    requires Keep([], segments) == Spell(Fixeds(words)) && Tail(segments) == ""
    ensures Unescape(Resolve(segments)) == Some("/" + (Join(Keep([], segments), '/') + ""))
  {
    WordsJoinPlain(words);
  }

  lemma DotWordsSpelled()
    ensures Spell(Fixeds([WStudio, WV1, WWorkflows, WRuns, WTasks])) == ["studio", "v1", "workflows", "runs", "tasks"]
    ensures Spell(Fixeds([WStudio, WV1, WWorkflows, WTasks])) == ["studio", "v1", "workflows", "tasks"]
  {
  }

  lemma TasksDottedPath(segments: seq<string>, runId: string)
    requires IsDotSegment(runId) && segments == ["studio", "v1", "workflows", "runs"] + [runId, "tasks"]
    ensures Unescape(Resolve(segments)) == Some(if runId == "." then DOT_TASKS else DOT_DOT_TASKS)
  {
    var words := if runId == "." then [WStudio, WV1, WWorkflows, WRuns, WTasks]
                 else [WStudio, WV1, WWorkflows, WTasks];
    TasksKept(runId);
    TasksNoTail(segments);
    DotWordsSpelled();
    WordsArrivePlain(segments, words);
    DotTasksJoined();
  }

  lemma TasksNoTail(segments: seq<string>)
    requires segments != [] && segments[|segments| - 1] == "tasks"
    ensures Tail(segments) == ""
  {
    assert |"tasks"| == 5;
  }

  lemma TasksPlainPath(runId: string)
    ensures HasPrefix("/" + Join(Spell(WORKFLOWS + [Fixed(WRuns), Id(runId), Fixed(WTasks)]), '/'), RUN_PREFIX)
  {
    var base := ["studio", "v1", "workflows", "runs"];
    RootedFour("studio", "v1", "workflows", "runs");
    RootedAppend(base, runId);
    RootedAppend(base + [runId], "tasks");
    assert Spell(WORKFLOWS + [Fixed(WRuns), Id(runId), Fixed(WTasks)]) == base + [runId] + ["tasks"];
    PrefixOfThree(RUN_PREFIX, runId, "/", "tasks");
  }

  lemma PrefixOfThree(a: string, b: string, c: string, d: string)
    ensures HasPrefix(a + b + c + d, a)
  {
  }

  lemma TasksSpelled(call: Call)
    requires call.ListWorkflowTasks?
    ensures HasPrefix("/" + Join(Spelled(call), '/'), RUN_PREFIX)
  {
    TasksPlainPath(call.runId);
  }

  lemma TasksDelivered(call: Call)
    requires SafeIds(call) && call.ListWorkflowTasks? && !HasDotId(call)
    ensures RoundTrips(call)
  {
    var path := PlainSeen(call);
    var same := TasksSeen(call);
    TasksSpelled(call);
    TasksMeet(call, path);
    Seen(call, path);
  }

  lemma TasksPrinted(call: Call)
    requires SafeIds(call) && call.ListWorkflowTasks? && IsDotSegment(call.runId)
    ensures Printed(call) == ["studio", "v1", "workflows", "runs", call.runId, "tasks"]
  {
    assert Template(call)[4] == Id(call.runId);
    EscapeDotSegment(call.runId);
  }

  lemma TasksDottedSeen(call: Call)
    requires SafeIds(call) && call.ListWorkflowTasks? && IsDotSegment(call.runId)
    ensures PathSeen(call) == Some(if call.runId == "." then DOT_TASKS else DOT_DOT_TASKS)
  {
    TasksPrinted(call);
    assert Printed(call) == ["studio", "v1", "workflows", "runs"] + [call.runId, "tasks"];
    TasksDottedPath(Printed(call), call.runId);
  }

  lemma TasksDotted(call: Call)
    requires SafeIds(call) && call.ListWorkflowTasks? && HasDotId(call)
    ensures RoundTrips(call) <==> call.runId != ".."
  {
    DotIdAt(call, 4);
    var path := TasksSeen(call);
    TasksDottedSeen(call);
    DotTasksPrefixes();
    TasksMeet(call, path);
    Seen(call, path);
  }

  lemma EntityRoundTrip(call: Call)
    requires SafeIds(call) && (call.PutEntity? || call.RemoveNow? || call.PlanEntityDeletion?)
    ensures RoundTrips(call) <==> !HasDotId(call)
  {
    if call.PlanEntityDeletion? {
      if HasDotId(call) { PreviewDotted(call); } else { PreviewDelivered(call); }
    } else {
      if HasDotId(call) { EntityCallDotted(call); } else { EntityCallDelivered(call); }
    }
  }

  lemma UserRoundTrip(call: Call)
    requires SafeIds(call) && (call.UserStatus? || call.UserRole?)
    ensures RoundTrips(call) <==> !HasDotId(call)
  {
    if call.UserStatus? {
      if HasDotId(call) { StatusDotted(call); } else { StatusDelivered(call); }
    } else {
      if HasDotId(call) { AssignmentDotted(call); } else { AssignmentDelivered(call); }
    }
  }

  lemma RoleRoundTrip(call: Call)
    requires SafeIds(call) && call.EditRole?
    ensures RoundTrips(call) <==> !IsDotSegment(call.roleKey) && call.roleKey != "status"
  {
    DotIdAt(call, 4);
    if HasDotId(call) { RoleDotted(call); } else { RoleDelivered(call); }
  }

  lemma TasksRoundTrip(call: Call)
    requires SafeIds(call) && call.ListWorkflowTasks?
    ensures RoundTrips(call) <==> call.runId != ".."
  {
    DotIdAt(call, 4);
    if HasDotId(call) { TasksDotted(call); } else { TasksDelivered(call); }
  }

  lemma FixedHaveNoDots(call: Call)
    requires call.NewUser? || call.NewRole? || call.PublishQuotaPlan?
    ensures !HasDotId(call)
  {
  }

  /** The round trip holds exactly for the routable calls: the method and path a client prints
      reach the intended handler, which recovers the same identifiers, unless an identifier is a
      dot segment that matters or a role to rename is called `status`. */
  lemma RoundTripExactly(call: Call)
    requires SafeIds(call)
    ensures RoundTrips(call) <==> Routable(call)
  {
    match call
    case PutEntity(_, _, _) | RemoveNow(_, _, _) | PlanEntityDeletion(_, _, _) => EntityRoundTrip(call);
    case UserStatus(_, _, _, _) | UserRole(_, _, _, _, _) => UserRoundTrip(call);
    case EditRole(_, _, _, _) => RoleRoundTrip(call);
    case CancelWorkflowRun(_, _, _) | RetryWorkflowTask(_, _, _) => WorkflowDelivered(call);
    case NewUser(_, _, _, _) | NewRole(_, _, _) | PublishQuotaPlan(_, _, _) =>
      FixedHaveNoDots(call);
      FixedDelivered(call);
    case ListWorkflowTasks(_) => TasksRoundTrip(call);
  }

  // ---------------------------------------------------------------- requests that go astray

  lemma StatusPathParts()
    ensures PathParts(ROLE_PREFIX + "status") == ["studio", "v1", "identity", "roles", "status"]
  {
    var parts := ["studio", "v1", "identity", "roles", "status"];
    SpelledRolePath("status");
    assert Spell(IDENTITY + [Fixed(WRoles), Id("status")]) == parts;
    WordIsGood(WStudio);
    WordIsGood(WV1);
    WordIsGood(WIdentity);
    WordIsGood(WRoles);
    WordIsGood(WStatus);
    PartsOfSpelled(parts);
  }

  lemma StatusRoleTarget(path: string)
    requires path == ROLE_PREFIX + "status"
    ensures Dispatch(PATCH, path) == SetUserStatus && TargetOf(SetUserStatus, path) == BadPath
  {
    RoleNamedStatus("status");
    StatusPathParts();
  }

  lemma DeliveredAt(call: Call, path: string, route: Route, target: Target)
    requires SafeIds(call) && PathSeen(call) == Some(path)
    requires Dispatch(VerbOf(call), path) == route && TargetOf(route, path) == target
    ensures Delivered(call) == Delivery(route, target)
  {
  }

  /** Renaming the role `status` reaches the handler for users' statuses, which refuses the path. */
  lemma StatusRoleGoesAstray(call: Call)
    requires SafeIds(call) && call.EditRole? && call.roleKey == "status"
    ensures Delivered(call) == Delivery(SetUserStatus, BadPath) && !RoundTrips(call)
  {
    assert Template(call)[4] == Id("status") && !HasDotId(call);
    var path := PlainSeen(call);
    SpelledRolePath("status");
    StatusRoleTarget(path);
    DeliveredAt(call, path, SetUserStatus, BadPath);
  }

  lemma DotEntityPath()
    ensures Resolve(["studio", "v1", "metadata", "entities", "."]) == ENTITY_PREFIX
  {
    var base := ["studio", "v1", "metadata", "entities"];
    var segments := base + ["."];
    assert ["."][1..] == [];
    KeepPlain([], base, ["."]);
    assert [] + base == base;
    assert Keep([], segments) == base;
    RootedFour("studio", "v1", "metadata", "entities");
    assert segments == ["studio", "v1", "metadata", "entities", "."];
    assert Tail(segments) == "/";
    Reassociate("/", Join(base, '/'), "/", "");
  }

  lemma EntityPrefixIsPlain()
    ensures '%' !in ENTITY_PREFIX && Unescape(ENTITY_PREFIX) == Some(ENTITY_PREFIX)
  {
    WordIsGood(WStudio);
    WordIsGood(WV1);
    WordIsGood(WMetadata);
    WordIsGood(WEntities);
    UnescapePlain(ENTITY_PREFIX, "");
    assert ENTITY_PREFIX + "" == ENTITY_PREFIX;
  }

  lemma DotEntityTarget(path: string)
    requires path == ENTITY_PREFIX
    ensures Dispatch(DELETE, path) == DeleteEntity && TargetOf(DeleteEntity, path) == One("")
  {
    AffixesOfConcat(ENTITY_PREFIX, "", "");
    assert ENTITY_PREFIX + "" == ENTITY_PREFIX;
  }

  /** Deleting the entity `.` asks the deletion handler for the entity with the empty code. */
  lemma DotEntityGoesAstray(call: Call)
    requires SafeIds(call) && call.RemoveNow? && call.code == "."
    ensures Delivered(call) == Delivery(DeleteEntity, One("")) && !RoundTrips(call)
  {
    EscapeDotSegment(".");
    assert Printed(call) == ["studio", "v1", "metadata", "entities", "."];
    DotEntityPath();
    EntityPrefixIsPlain();
    DotEntityTarget(ENTITY_PREFIX);
    DeliveredAt(call, ENTITY_PREFIX, DeleteEntity, One(""));
  }
}
