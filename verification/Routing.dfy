/** The local provider's ordered request switch, and what each handler reads from the path. */
module Routing {
  import opened Text

  datatype Verb = GET | POST | PUT | PATCH | DELETE

  datatype Route =
    | ListEntities | UpdateEntity | PlanDeletion | DeleteEntity
    | ListUsers | CreateUser | SetUserStatus
    | ListRoles | CreateRole | UpdateRole | ChangeUserRole
    | ListRuns | ListTasks | CancelRun | RetryTask
    | ListPlans | PublishPlan | ListUsage | ListDiscrepancies | ListAudit
    | MigrationPreview | NotFound

  const BASE := "/" + "studio" + "/" + "v1"
  const ENTITIES := BASE + "/" + "metadata" + "/" + "entities"
  const ENTITY_PREFIX := ENTITIES + "/"
  const USERS := BASE + "/" + "identity" + "/" + "users"
  const ROLES := BASE + "/" + "identity" + "/" + "roles"
  const ROLE_PREFIX := ROLES + "/"
  const RUNS := BASE + "/" + "workflows" + "/" + "runs"
  const RUN_PREFIX := RUNS + "/"
  const PLANS := BASE + "/" + "quota" + "/" + "plans"
  const USAGE := BASE + "/" + "quota" + "/" + "usage"
  const DISCREPANCIES := BASE + "/" + "quota" + "/" + "discrepancies"
  const AUDIT := BASE + "/" + "audit"
  const MIGRATION_PLAN := BASE + "/" + "metadata" + "/" + "plan"
  const MIGRATION_APPLY := BASE + "/" + "metadata" + "/" + "apply"

  /** The switch in source order: the first case that matches wins. */
  function Switch(verb: Verb, path: string): Route {
    if verb == GET && path == ENTITIES then ListEntities
    else if verb == PUT && HasPrefix(path, ENTITY_PREFIX) then UpdateEntity
    else if verb == POST && HasSuffix(path, "/delete-plan") then PlanDeletion
    else if verb == DELETE && HasPrefix(path, ENTITY_PREFIX) then DeleteEntity
    else if verb == GET && path == USERS then ListUsers
    else if verb == POST && path == USERS then CreateUser
    else if verb == PATCH && HasSuffix(path, "/status") then SetUserStatus
    else if verb == GET && path == ROLES then ListRoles
    else if verb == POST && path == ROLES then CreateRole
    else if verb == PATCH && HasPrefix(path, ROLE_PREFIX) then UpdateRole
    else if (verb == PUT || verb == DELETE) && Contains(path, "/roles/") then ChangeUserRole
    else if verb == GET && path == RUNS then ListRuns
    else if verb == GET && HasPrefix(path, RUN_PREFIX) && HasSuffix(path, "/tasks") then ListTasks
    else if verb == POST && HasSuffix(path, "/cancel") then CancelRun
    else if verb == POST && HasSuffix(path, "/retry") then RetryTask
    else if verb == GET && path == PLANS then ListPlans
    else if verb == POST && path == PLANS then PublishPlan
    else if verb == GET && path == USAGE then ListUsage
    else if verb == GET && path == DISCREPANCIES then ListDiscrepancies
    else if verb == GET && path == AUDIT then ListAudit
    else if verb == POST && (path == MIGRATION_PLAN || path == MIGRATION_APPLY) then MigrationPreview
    else NotFound
  }

  /** The same switch read off by method, since every case asks for the method first. */
  function Dispatch(verb: Verb, path: string): Route {
    match verb
    case GET => DispatchGet(path)
    case POST => DispatchPost(path)
    case PUT =>
      if HasPrefix(path, ENTITY_PREFIX) then UpdateEntity
      else if Contains(path, "/roles/") then ChangeUserRole else NotFound
    case PATCH =>
      if HasSuffix(path, "/status") then SetUserStatus
      else if HasPrefix(path, ROLE_PREFIX) then UpdateRole else NotFound
    case DELETE =>
      if HasPrefix(path, ENTITY_PREFIX) then DeleteEntity
      else if Contains(path, "/roles/") then ChangeUserRole else NotFound
  }

  function DispatchGet(path: string): Route {
    if path == ENTITIES then ListEntities
    else if path == USERS then ListUsers
    else if path == ROLES then ListRoles
    else if path == RUNS then ListRuns
    else if HasPrefix(path, RUN_PREFIX) && HasSuffix(path, "/tasks") then ListTasks
    else if path == PLANS then ListPlans
    else if path == USAGE then ListUsage
    else if path == DISCREPANCIES then ListDiscrepancies
    else if path == AUDIT then ListAudit
    else NotFound
  }

  function DispatchPost(path: string): Route {
    if HasSuffix(path, "/delete-plan") then PlanDeletion
    else if path == USERS then CreateUser
    else if path == ROLES then CreateRole
    else if HasSuffix(path, "/cancel") then CancelRun
    else if HasSuffix(path, "/retry") then RetryTask
    else if path == PLANS then PublishPlan
    else if path == MIGRATION_PLAN || path == MIGRATION_APPLY then MigrationPreview
    else NotFound
  }

  lemma DispatchIsSwitch(verb: Verb, path: string)
    ensures Dispatch(verb, path) == Switch(verb, path)
  {
    match verb
    case GET =>
    case POST =>
    case PUT =>
    case PATCH =>
    case DELETE =>
  }

  /** The identifiers a handler takes from the path; `BadPath` is its path error. */
  datatype Target = NoTarget | One(id: string) | Two(user: string, role: string) | BadPath

  function PathParts(path: string): seq<string> {
    Split(Trim(path, '/'), '/')
  }

  function TargetOf(route: Route, path: string): Target {
    match route
    case UpdateEntity => One(TrimPrefix(path, ENTITY_PREFIX))
    case DeleteEntity => One(TrimPrefix(path, ENTITY_PREFIX))
    case PlanDeletion => One(TrimSuffix(TrimPrefix(path, ENTITY_PREFIX), "/delete-plan"))
    case UpdateRole => One(TrimPrefix(path, ROLE_PREFIX))
    case SetUserStatus =>
      var parts := PathParts(path);
      if |parts| == 6 then One(parts[4]) else BadPath
    case ChangeUserRole =>
      var parts := PathParts(path);
      if |parts| == 7 then Two(parts[4], parts[6]) else BadPath
    case _ => NoTarget
  }
}
