/** The provider client's path printers, the path that the provider sees for a printed one, and
    what delivery of a call as intended means. */
module ClientPaths {
  import opened Text
  import opened Escaping
  import opened Routing
  import opened ProviderModel

  /** The client calls that carry an identifier in the path, or a mutation body. */
  datatype Call =
    | PutEntity(entity: Entity, version: int, key: string)
    | PlanEntityDeletion(code: string, version: int, key: string)
    | RemoveNow(code: string, version: int, key: string)
    | NewUser(id: string, displayName: string, email: string, key: string)
    | UserStatus(id: string, status: string, version: int, key: string)
    | NewRole(roleKey: string, displayName: string, key: string)
    | EditRole(roleKey: string, displayName: string, version: int, key: string)
    | UserRole(id: string, roleKey: string, version: int, key: string, assign: bool)
    | CancelWorkflowRun(id: string, version: int, key: string)
    | RetryWorkflowTask(id: string, version: int, key: string)
    | PublishQuotaPlan(plan: QuotaPlan, version: int, key: string)
    | ListWorkflowTasks(runId: string)

  function VerbOf(call: Call): Verb {
    match call
    case PutEntity(_, _, _) => PUT
    case RemoveNow(_, _, _) => DELETE
    case UserStatus(_, _, _, _) | EditRole(_, _, _, _) => PATCH
    case UserRole(_, _, _, _, assign) => if assign then PUT else DELETE
    case ListWorkflowTasks(_) => GET
    case _ => POST
  }

  predicate SafeIds(call: Call) {
    forall i | 0 <= i < |Template(call)| && Template(call)[i].Id? ::
      IsByteString(Template(call)[i].id) && SafePathValue(Template(call)[i].id, 256)
  }

  /** The fixed path words. */
  datatype Word =
    | WStudio | WV1 | WMetadata | WEntities | WDeletePlan | WIdentity | WUsers | WStatus
    | WRoles | WWorkflows | WRuns | WTasks | WCancel | WRetry | WQuota | WPlans

  function TextOf(word: Word): string {
    match word
    case WStudio => "studio"
    case WV1 => "v1"
    case WMetadata => "metadata"
    case WEntities => "entities"
    case WDeletePlan => "delete-plan"
    case WIdentity => "identity"
    case WUsers => "users"
    case WStatus => "status"
    case WRoles => "roles"
    case WWorkflows => "workflows"
    case WRuns => "runs"
    case WTasks => "tasks"
    case WCancel => "cancel"
    case WRetry => "retry"
    case WQuota => "quota"
    case WPlans => "plans"
  }

  datatype Segment = Fixed(word: Word) | Id(id: string)

  function Template(call: Call): seq<Segment> {
    match call
    case PutEntity(entity, _, _) => METADATA + [Id(entity.code)]
    case PlanEntityDeletion(code, _, _) => METADATA + [Id(code), Fixed(WDeletePlan)]
    case RemoveNow(code, _, _) => METADATA + [Id(code)]
    case NewUser(_, _, _, _) => IDENTITY + [Fixed(WUsers)]
    case UserStatus(id, _, _, _) => IDENTITY + [Fixed(WUsers), Id(id), Fixed(WStatus)]
    case NewRole(_, _, _) => IDENTITY + [Fixed(WRoles)]
    case EditRole(roleKey, _, _, _) => IDENTITY + [Fixed(WRoles), Id(roleKey)]
    case UserRole(id, roleKey, _, _, _) =>
      IDENTITY + [Fixed(WUsers), Id(id), Fixed(WRoles), Id(roleKey)]
    case CancelWorkflowRun(id, _, _) => WORKFLOWS + [Fixed(WRuns), Id(id), Fixed(WCancel)]
    case RetryWorkflowTask(id, _, _) => WORKFLOWS + [Fixed(WTasks), Id(id), Fixed(WRetry)]
    case PublishQuotaPlan(_, _, _) => [Fixed(WStudio), Fixed(WV1), Fixed(WQuota), Fixed(WPlans)]
    case ListWorkflowTasks(runId) => WORKFLOWS + [Fixed(WRuns), Id(runId), Fixed(WTasks)]
  }

  const METADATA := [Fixed(WStudio), Fixed(WV1), Fixed(WMetadata), Fixed(WEntities)]
  const IDENTITY := [Fixed(WStudio), Fixed(WV1), Fixed(WIdentity)]
  const WORKFLOWS := [Fixed(WStudio), Fixed(WV1), Fixed(WWorkflows)]

  function Spell(segments: seq<Segment>): (spelled: seq<string>)
    ensures |spelled| == |segments|
    ensures forall i | 0 <= i < |segments| ::
              spelled[i] == if segments[i].Fixed? then TextOf(segments[i].word) else segments[i].id
  {
    seq(|segments|, i requires 0 <= i < |segments| =>
      if segments[i].Fixed? then TextOf(segments[i].word) else segments[i].id)
  }

  /** Identifiers go through `url.PathEscape`. */
  function Print(segments: seq<Segment>): (printed: seq<string>)
    requires forall i | 0 <= i < |segments| && segments[i].Id? :: IsByteString(segments[i].id)
    ensures |printed| == |segments|
    ensures forall i | 0 <= i < |segments| ::
              printed[i] == if segments[i].Fixed? then TextOf(segments[i].word) else Escape(segments[i].id)
  {
    seq(|segments|, i requires 0 <= i < |segments| =>
      if segments[i].Fixed? then TextOf(segments[i].word) else Escape(segments[i].id))
  }

  function Spelled(call: Call): seq<string> {
    Spell(Template(call))
  }

  function Printed(call: Call): seq<string>
    requires SafeIds(call)
  {
    Print(Template(call))
  }

  /** The path the provider sees: dot segments resolved by the client, escapes decoded by the
      server. */
  function PathSeen(call: Call): Option<string>
    requires SafeIds(call)
  {
    Unescape(Resolve(Printed(call)))
  }

  datatype Delivery = Delivery(route: Route, target: Target) | BadRequest

  function Delivered(call: Call): Delivery
    requires SafeIds(call)
  {
    match PathSeen(call)
    case None => BadRequest
    case Some(path) =>
      var route := Dispatch(VerbOf(call), path);
      Delivery(route, TargetOf(route, path))
  }

  /** The handler meant by the call, and the identifiers it must recover. */
  function Intended(call: Call): Delivery {
    match call
    case PutEntity(entity, _, _) => Delivery(UpdateEntity, One(entity.code))
    case PlanEntityDeletion(code, _, _) => Delivery(PlanDeletion, One(code))
    case RemoveNow(code, _, _) => Delivery(DeleteEntity, One(code))
    case NewUser(_, _, _, _) => Delivery(CreateUser, NoTarget)
    case UserStatus(id, _, _, _) => Delivery(SetUserStatus, One(id))
    case NewRole(_, _, _) => Delivery(CreateRole, NoTarget)
    case EditRole(roleKey, _, _, _) => Delivery(UpdateRole, One(roleKey))
    case UserRole(id, roleKey, _, _, _) => Delivery(ChangeUserRole, Two(id, roleKey))
    case CancelWorkflowRun(_, _, _) => Delivery(CancelRun, NoTarget)
    case RetryWorkflowTask(_, _, _) => Delivery(RetryTask, NoTarget)
    case PublishQuotaPlan(_, _, _) => Delivery(PublishPlan, NoTarget)
    case ListWorkflowTasks(_) => Delivery(ListTasks, NoTarget)
  }

  predicate HasDotId(call: Call) {
    exists i | 0 <= i < |Template(call)| :: Template(call)[i].Id? && IsDotSegment(Template(call)[i].id)
  }

  /** When the round trip holds. Dot segments vanish on the way; a role named `status` is taken
      for a status change; the workflow handlers ignore the identifier in the path. */
  predicate Routable(call: Call) {
    match call
    case EditRole(roleKey, _, _, _) => !IsDotSegment(roleKey) && roleKey != "status"
    case CancelWorkflowRun(_, _, _) | RetryWorkflowTask(_, _, _) => true
    case ListWorkflowTasks(runId) => runId != ".."
    case _ => !HasDotId(call)
  }

  // ---------------------------------------------------------------- what arrives

  /** A segment that is printed literally or is the escape of what it decodes to. */
  predicate Clean(segment: string) {
    match Unescape(segment)
    case None => false
    case Some(raw) =>
      '/' !in raw && ((segment == raw && '%' !in segment) || (IsByteString(raw) && segment == Escape(raw)))
  }

  function Raws(segments: seq<string>): (raws: seq<string>)
    requires forall i | 0 <= i < |segments| :: Clean(segments[i])
    ensures |raws| == |segments|
    ensures forall i | 0 <= i < |raws| :: Unescape(segments[i]) == Some(raws[i])
  {
    if segments == [] then []
    else
      assert Clean(segments[0]);
      [Unescape(segments[0]).value] + Raws(segments[1..])
  }

  lemma PlainIsClean(segment: string)
    requires '%' !in segment && '/' !in segment
    ensures Clean(segment) && Unescape(segment) == Some(segment)
  {
    UnescapePlain(segment, "");
    assert segment + "" == segment;
  }

  lemma EscapeIsClean(id: string)
    requires IsByteString(id) && '/' !in id
    ensures Clean(Escape(id)) && Unescape(Escape(id)) == Some(id)
  {
    UnescapeEscape(id, "");
    assert Escape(id) + "" == Escape(id) && id + "" == id;
  }

  lemma CleanThen(segment: string, rest: string)
    requires Clean(segment)
    ensures Unescape(segment + rest)
         == if Unescape(rest).Some? then Some(Unescape(segment).value + Unescape(rest).value) else None
    ensures IsDotSegment(Unescape(segment).value) <==> IsDotSegment(segment)
  {
    var raw := Unescape(segment).value;
    if segment == raw && '%' !in segment {
      UnescapePlain(segment, rest);
    } else {
      UnescapeEscape(raw, rest);
      EscapeDotSegment(raw);
    }
  }

  predicate DecodesTo(encoded: string, decoded: string) {
    Unescape(encoded) == Some(decoded)
  }

  lemma SlashStep(rest: string, decoded: string)
    requires DecodesTo(rest, decoded)
    ensures DecodesTo("/" + rest, "/" + decoded)
  {
    UnescapePlain("/", rest);
  }

  lemma CleanStep(segment: string, rest: string, decoded: string)
    requires Clean(segment) && DecodesTo(rest, decoded)
    ensures DecodesTo(segment + rest, Unescape(segment).value + decoded)
  {
    CleanThen(segment, rest);
  }

  lemma JoinStep(parts: seq<string>, tail: string)
    requires |parts| >= 2
    ensures Join(parts, '/') + tail == parts[0] + ("/" + (Join(parts[1..], '/') + tail))
  {
  }

  lemma {:induction false} UnescapeJoin(segments: seq<string>, tail: string)
    requires forall i | 0 <= i < |segments| :: Clean(segments[i])
    requires DecodesTo(tail, tail)
    ensures DecodesTo(Join(segments, '/') + tail, Join(Raws(segments), '/') + tail)
  {
    var raws := Raws(segments);
    if segments == [] {
      assert "" + tail == tail;
    } else if |segments| == 1 {
      CleanStep(segments[0], tail, tail);
    } else {
      assert raws[1..] == Raws(segments[1..]);
      UnescapeJoin(segments[1..], tail);
      var rest, decoded := Join(segments[1..], '/') + tail, Join(raws[1..], '/') + tail;
      SlashStep(rest, decoded);
      CleanStep(segments[0], "/" + rest, "/" + decoded);
      JoinStep(segments, tail);
      JoinStep(raws, tail);
    }
  }

  lemma TailDecodes(tail: string)
    requires tail == "" || tail == "/"
    ensures DecodesTo(tail, tail)
  {
    UnescapePlain(tail, "");
    assert tail + "" == tail;
  }

  predicate GoodWord(word: string) {
    '%' !in word && '/' !in word && word != "" && !IsDotSegment(word)
  }

  lemma WordIsGood(word: Word)
    ensures GoodWord(TextOf(word))
  {
    match word
    case WStudio =>
    case WV1 =>
    case WMetadata =>
    case WEntities =>
    case WDeletePlan =>
    case WIdentity =>
    case WUsers =>
    case WStatus =>
    case WRoles =>
    case WWorkflows =>
    case WRuns =>
    case WTasks =>
    case WCancel =>
    case WRetry =>
    case WQuota =>
    case WPlans =>
  }

  lemma PrintedIsClean(call: Call)
    requires SafeIds(call)
    ensures forall i | 0 <= i < |Printed(call)| :: Clean(Printed(call)[i])
    ensures Raws(Printed(call)) == Spelled(call)
    ensures forall i | 0 <= i < |Spelled(call)| :: '/' !in Spelled(call)[i] && Spelled(call)[i] != ""
  {
    var template := Template(call);
    forall i | 0 <= i < |template|
      ensures Clean(Printed(call)[i]) && Unescape(Printed(call)[i]) == Some(Spelled(call)[i])
      ensures '/' !in Spelled(call)[i] && Spelled(call)[i] != ""
    {
      if template[i].Fixed? {
        WordIsGood(template[i].word);
        PlainIsClean(TextOf(template[i].word));
      } else {
        EscapeIsClean(template[i].id);
      }
    }
  }

  /** Without dot segments the provider sees exactly the spelled path. */
  lemma SeenIsSpelled(call: Call)
    requires SafeIds(call)
    requires !HasDotId(call)
    ensures PathSeen(call) == Some("/" + Join(Spelled(call), '/'))
  {
    PrintedIsClean(call);
    var printed := Printed(call);
    forall i | 0 <= i < |printed| ensures !IsDotSegment(printed[i]) {
      if Template(call)[i].Fixed? {
        WordIsGood(Template(call)[i].word);
      }
      CleanThen(printed[i], "");
      assert Spelled(call)[i] == Raws(printed)[i];
    }
    ResolveWithoutDots(printed);
    TailDecodes("");
    UnescapeJoin(printed, "");
    var joined := Join(printed, '/');
    assert joined + "" == joined && Join(Spelled(call), '/') + "" == Join(Spelled(call), '/');
    SlashStep(joined, Join(Spelled(call), '/'));
  }

  // ---------------------------------------------------------------- dot segments never arrive

  lemma {:induction false} KeptAreCleanAndPlain(kept: seq<string>, segments: seq<string>)
    requires forall i | 0 <= i < |segments| :: Clean(segments[i])
    requires forall i | 0 <= i < |kept| :: Clean(kept[i]) && !IsDotSegment(kept[i])
    ensures forall i | 0 <= i < |Keep(kept, segments)| ::
              Clean(Keep(kept, segments)[i]) && !IsDotSegment(Keep(kept, segments)[i])
    decreases |segments|
  {
    if segments == [] {
    } else if segments[0] == "." {
      KeptAreCleanAndPlain(kept, segments[1..]);
    } else if segments[0] == ".." {
      KeptAreCleanAndPlain(if kept == [] then [] else kept[..|kept| - 1], segments[1..]);
    } else {
      KeptAreCleanAndPlain(kept + [segments[0]], segments[1..]);
    }
  }

  lemma {:induction false} SplitWithTail(parts: seq<string>)
    requires |parts| >= 1 && forall i | 0 <= i < |parts| :: '/' !in parts[i]
    ensures Split(Join(parts, '/') + "/", '/') == parts + [""]
  {
    if |parts| == 1 {
      SplitHead(parts[0], "", '/');
      assert parts[0] + ['/'] + "" == Join(parts, '/') + "/";
    } else {
      SplitWithTail(parts[1..]);
      var rest := Join(parts[1..], '/') + "/";
      SplitHead(parts[0], rest, '/');
      assert parts[0] + ['/'] + rest == Join(parts, '/') + "/";
      assert parts == [parts[0]] + parts[1..];
    }
  }

  /** The path after resolving and decoding: the kept segments, decoded. */
  lemma ResolvedIsKept(segments: seq<string>) returns (raws: seq<string>, tail: string)
    requires forall i | 0 <= i < |segments| :: Clean(segments[i])
    ensures Unescape(Resolve(segments)) == Some("/" + (Join(raws, '/') + tail))
    ensures forall i | 0 <= i < |raws| :: '/' !in raws[i] && !IsDotSegment(raws[i])
    ensures tail == Tail(segments) && |raws| == |Keep([], segments)|
    ensures forall i | 0 <= i < |raws| :: Unescape(Keep([], segments)[i]) == Some(raws[i])
  {
    KeptAreCleanAndPlain([], segments);
    var kept := Keep([], segments);
    raws := Raws(kept);
    tail := Tail(segments);
    TailDecodes(tail);
    UnescapeJoin(kept, tail);
    SlashStep(Join(kept, '/') + tail, Join(raws, '/') + tail);
    forall i | 0 <= i < |raws| ensures '/' !in raws[i] && !IsDotSegment(raws[i]) {
      CleanDots(kept[i]);
    }
  }

  lemma SeenIsKept(call: Call) returns (raws: seq<string>, tail: string)
    requires SafeIds(call)
    ensures PathSeen(call) == Some("/" + (Join(raws, '/') + tail))
    ensures forall i | 0 <= i < |raws| :: '/' !in raws[i] && !IsDotSegment(raws[i])
    ensures tail == "" || (tail == "/" && raws != [])
  {
    PrintedIsClean(call);
    raws, tail := ResolvedIsKept(Printed(call));
  }

  lemma CleanDots(segment: string)
    requires Clean(segment)
    ensures '/' !in Unescape(segment).value
    ensures IsDotSegment(Unescape(segment).value) <==> IsDotSegment(segment)
  {
    CleanThen(segment, "");
  }

  /** The seen path always decodes, starts with a slash and has no dot segment. */
  lemma SeenHasNoDots(call: Call)
    requires SafeIds(call)
    ensures PathSeen(call).Some? && HasPrefix(PathSeen(call).value, "/")
    ensures forall part | part in Split(PathSeen(call).value, '/') :: !IsDotSegment(part)
  {
    var raws, tail := SeenIsKept(call);
    var seen := Join(raws, '/') + tail;
    assert "/" + seen == "" + ['/'] + seen;
    SplitHead("", seen, '/');
    if raws == [] {
      assert seen == "";
    } else if tail == "/" {
      SplitWithTail(raws);
    } else {
      SplitJoin(raws, '/');
      assert seen == Join(raws, '/');
    }
  }
}
