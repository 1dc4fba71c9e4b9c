# Jimu Studio: a verified model of its provider, its broker and what they agree on

Jimu Studio is a server-side front end. It signs operators in through OpenID Connect, keeps their
sessions and provider clients in memory, turns browser forms into guarded requests, and sends those
to a metadata provider that keeps everything in one durable row. This project models the four parts
whose correctness depends on more than one function and proves what they promise together:

* **The local provider** (`internal/localprovider`) is an object that loads one durable row, serves
  one request in its own mutable fields, saves and commits. `Handler` is that object, method by
  method, over mutable fields whose entities, users and records hold slices of heap arrays
  (`Structs`, `RoleList`); `ProviderModel` is the sequential machine each method is proved against;
  `Effects` says what each client call does to it, in the call's own identifiers,
  `Runs`, `Versions`, `Reachable` and `AuditReplay` reason about whole runs of the machine, and
  `Transactions` about any number of processes that lock, load, serve, save and commit, and that crash,
  fail, commit without learning of it, or leave a commit behind that the database decides later.
* **The authentication broker** (`internal/auth`) appears twice. `Broker` is the object with its
  maps, its sessions and its clients, run by one thread at a time. `Sections` is the same broker as
  a step relation over any number of threads, one step for each lock section and for each call to
  the outside between two sections; `Interleaving` and `BrokerSafety` state what every interleaving
  keeps. `Locks` has the lock statements of every method in program order, over the readers/writer
  lock of the broker and the mutexes of the sessions: one lock at a time for each thread, no two
  threads at the same data unless both read, no deadlock, and every call returns. `Drafts` is the
  session's draft map and `RoleIndex` the role list of a session view.
* **What Studio and the provider agree on.** `ClientPaths`, `Escaping` and `RoundTrip` follow a
  request from the client's path printer through percent-encoding (section 2.1 of RFC 3986), the
  removal of dot segments (section 5.2.4 of RFC 3986) and the provider's ordered switch to the
  handler. `Utf8` is what `encoding/json` does to text that is not UTF-8 (section 4 of RFC 3629).
  `Validators` relates what the provider can come to store to what the client's validators accept;
  `Acceptance` and `RoleLimit` say exactly when they do accept it, over all runs of client calls, for the
  bounds on texts and on a user's roles, and `StoredText` that nothing stored is broken by the next
  encoding. `PlanApply` and `PlanRaces` are the reviewed plans for deletions and migrations, and
  `FormRoundTrip` the numbered form of the metadata editor with the script that renumbers it.
* **Both together.** `WholeSystem` runs Studio's browsers and draft maps and the provider's processes
  as one system: submitted forms become requests under kept keys, processes serve or lose them, and
  browsers learn the answers. `EndToEnd` adds what the forms hold and how their scopes come from it, and
  `EditedForms` the forms for which a success says too much.
* **The release verifiers.** `Scorecard` and `Release` are the two one-pass verifiers whose
  conclusion, exact coverage, is a counting argument that the code never spells out.

`Text`, `Sorting`, `Counting` and `RoleList` hold the Go strings, sorted lists, sizes and the slice
that the rest is built on. A Go string is a sequence of bytes: one `char` stands for one byte.

## What came out

* A key that some client saw succeed took effect exactly once, whatever crashed or was retried
  (`Transactions.ExactlyOnce`), and folding the audit log over the first state gives the current
  versions, statuses and role sets (`AuditReplay.ReplayRebuilds`).
* A form that Studio saw confirmed belongs to a key that took effect exactly once: by the first request
  under the key that the provider answered with success, which was sent for the same session and the same
  scope. What the form itself asks for took effect **exactly when** that first request asked for the same
  (`WholeSystem.ConfirmedTookEffectExactly`). Planned deletions, applied plans and the forms of the
  identity, workflow and quota pages always do (`EndToEnd.ConfirmedSheetTookEffect`), because their scope
  determines what they ask for. The scope of an entity form has only its code and version: an entity that
  was edited after a lost answer and sent again is reported as saved, and the edit is lost
  (`EditedForms.EditedNameIsLost`).
* A form that is sent again before its key is forgotten takes effect at most once
  (`WholeSystem.ResentTakesEffectOnce`).
* Assigning or revoking a role overwrites the user's own array and changes no recorded reply and no
  other user (`Structs.RewriteUser`), because every request is served from freshly decoded lists. A
  record that still shared the array would survive a revocation **exactly when** the last role of the
  list was revoked (`RoleList.RevokeShared`).
* A printed request reaches the intended handler with the intended identifiers **exactly when** it
  is routable (`RoundTrip.RoundTripExactly`). The two families that are not: identifiers that are a
  dot segment, and the role named `status`, whose update the switch takes for a change of a user's
  status. The switch asks for the suffix `/status` before it asks for the role prefix. The client
  accepts such calls: every renaming of the role `status` is refused as a malformed status change,
  and every removal of the entity `.` asks for the entity with the empty code
  (`Validators.AcceptedRenameGoesAstray`, `Validators.AcceptedRemovalGoesAstray`). Requests to
  cancel a run or retry a task are routable whatever the identifier, because their handlers never
  read it, and a task list survives the identifier `.` but not `..`.
* The provider bounds no text. It relies on the client, which counts bytes before `json.Marshal` turns
  every byte that is no part of UTF-8 into three. So the client accepts a name of 512 such bytes, 1536
  arrive and are stored, and from then on it refuses every list of users (`Acceptance.BrokenNameIsSent`,
  `Acceptance.BrokenNameIsStored`, `Acceptance.BrokenNameStays`). Over all runs of client calls a stored
  user, role, entity or plan is accepted **exactly when** the texts of the calls that brought it still fit
  with each broken byte counted three times, which a caller can count before the call, and a user has at
  most 200 roles (`Acceptance.UserAcceptedExactly`, `Acceptance.RoleAcceptedExactly`, `Acceptance.EntityAcceptedExactly`,
  `Acceptance.PlanAcceptedExactly`). While only such calls are made everything stays acceptable but for the
  number of a user's roles (`Validators.AlwaysValid`). Texts in UTF-8 always fit: they arrive unchanged (`Utf8.UnchangedExactly`).
* The provider does not bound a user's roles either, and the client accepts no more than 200: clients
  alone can bring a user to any number of roles that there are names and keys for
  (`RoleLimit.AnyNumberOfRoles`), after which the client refuses the whole list of users
  (`RoleLimit.OverfullUser`). The answer to an assignment or revocation, first or repeated, is accepted
  **exactly when** the user's texts fit and it had room for the role, which the client could tell before
  the call: at most 200 roles for a role already held, 199 for another, 201 before the revocation of a
  held role (`RoleLimit.RoleReplyAcceptedExactly`).
* Every client ever made is closed, or belongs to exactly one active session, or is still in the
  hands of exactly one running `Complete`, at every step of every interleaving
  (`BrokerSafety.ClientConservation`).
* A cycle of plan, review and apply leaves the draft map as it found it **exactly when** at most 125
  drafts were there before (`PlanApply.CycleRestores`).
* An accepted scorecard scores every operation of the contract **exactly when** no two different
  operations of the contract share an identifier (`Scorecard.EveryOperationIsScored`); for any two that
  do, some scorecard is accepted that leaves one of them out (`Scorecard.SharedIdentifierHides`). The
  digest comparison of the release verifier can be trusted for a map **exactly when** that map has no empty digest,
  since a missing key reads as an empty one (`Release.TrustedExactly`).

## Model

| member | source | states |
|---|---|---|
| RoleList.ChangeRoles | internal/localprovider/operations.go:193-204 | rewriting the list over its own backing array, or over a fresh one when it no longer fits, gives the sorted list of the changed set of roles |
| RoleList.ChangeIsSetChange | internal/localprovider/operations.go:193-204 | the rewritten list is strictly sorted and its elements are the old set plus or minus the one role |
| RoleList.ChangesUndo | internal/localprovider/operations.go:193-204 | assigning a held role or revoking an absent one changes nothing, and revoking undoes the assignment of an absent one |
| Text.LessByBytes | internal/localprovider/operations.go:201-204 | strings are ordered by their first different byte, and a prefix comes before what it starts |
| RoleList.RevokeShared | internal/localprovider/operations.go:193-204 | a second holder of the same slice reads, after a revocation, the new list with the old last role behind it, and so the old list exactly when the last role was revoked |
| Structs.RewriteUser | internal/localprovider/operations.go:193-204 | rewriting a user's list in its own array, or in a fresh one when it no longer fits, changes no recorded value, no entity and no other user's list |
| Structs.CloneEntity | internal/localprovider/server.go:488-491 | a clone has the same contents in an array of its own |
| Handler.Unmarshal | internal/localprovider/server.go:248-253 | decoding the row puts every list in a fresh array, none shared between a user and another user or a record |
| ProviderModel.RefusalStatus | internal/localprovider/operations.go:51-290 | a refused mutation is answered with 400, 404 or 409 and nothing else |
| ProviderModel.ServeStatus | internal/localprovider/server.go:255-266 | no handler answers with a server error, so what was served is always saved; only successes are ever recorded |
| Handler.Handler.LoadState | internal/localprovider/server.go:274-295 | loading replaces every field by the decoded row's, whatever an abandoned request left behind, with an empty map for each null one |
| Handler.Handler.WriteCached | internal/localprovider/operations.go:298-306 | a recorded key releases the mutex and answers the record; an unrecorded one keeps the mutex and changes nothing |
| Handler.Handler.CacheAndAudit | internal/localprovider/operations.go:308-311 | adds one record and one audit entry and touches no resource |
| Handler.Handler.ServeUpdateEntity | internal/localprovider/server.go:352-395 | fields and reply after creating or updating an entity are one step of the sequential machine, with the mutex free on every path |
| Handler.Handler.StoreClones | internal/localprovider/server.go:385-387 | the stored entity and the recorded one are two fresh copies that share no list of fields |
| Handler.Handler.ServePlanDeletion | internal/localprovider/server.go:397-427 | the same for a deletion preview, which changes no resource and writes no audit entry |
| Handler.Handler.ServeDeleteEntity | internal/localprovider/server.go:429-462 | the same for a confirmed deletion |
| Handler.Handler.ServeCreateUser | internal/localprovider/operations.go:51-76 | the same for a new user |
| Handler.Handler.ServeSetUserStatus | internal/localprovider/operations.go:78-109 | the same for a status change, including the path of six parts |
| Handler.Handler.ServeCreateRole | internal/localprovider/operations.go:111-135 | the same for a new role |
| Handler.Handler.ServeUpdateRole | internal/localprovider/operations.go:137-168 | the same for a role update; a system role is refused after its version was checked |
| Handler.Handler.ServeChangeUserRole | internal/localprovider/operations.go:170-216 | the same for assigning and revoking a role by overwriting the user's own array, when no other user and no record shares it, as after loading |
| Handler.Handler.ServeWorkflow | internal/localprovider/operations.go:226-265 | the same for cancelling the run and retrying the task, which moves both run and task |
| Handler.Handler.ServePublishPlan | internal/localprovider/operations.go:267-290 | the same for publishing a quota plan |
| Handler.Handler.ServeRead | internal/localprovider/server.go:143-206 | reading requests answer from the fields, lists in the order of their keys, and change nothing |
| Handler.Handler.ServeLoaded | internal/localprovider/server.go:140-207 | the whole switch over mutable fields is one step of the sequential machine |
| Handler.Handler.ServePersisted | internal/localprovider/server.go:234-272 | from any memory and any row, null maps included, and with every storage fault: the row changes exactly when the commit took effect, by one revision and one step of the machine; a fault is always answered with 503 |
| Routing.DispatchIsSwitch | internal/localprovider/server.go:142-206 | reading the ordered switch off by method gives the same route for every method and path |
| Effects.CallDoes | internal/localprovider/operations.go:51-290 | every client call that reaches its handler with a new key does to the resources that it names, and to nothing else, what it asks for, exactly when they are at its version, and is recorded, logged and answered so; otherwise it is refused as missing, existing or moved on and changes nothing |
| Effects.RefusedExactly | internal/localprovider/operations.go:51-290 | whatever the state is, exactly a request without a body, key, confirmation, text or fitting path, or with a negative version for a deletion, is refused with 400, as is the renaming of a system role |
| Effects.EntitiesAnswer | internal/localprovider/server.go:143-144 | the list of entities is what is stored, in the order of the codes |
| Effects.UsersAnswer | internal/localprovider/server.go:151-152 | the list of users is what is stored, in the order of the identifiers |
| Effects.RolesAnswer | internal/localprovider/server.go:157-158 | the list of roles is what is stored, in the order of the keys |
| Effects.OperationsAnswer | internal/localprovider/server.go:165-202 | the lists of runs, plans and audit entries answer with the one run, the one plan and the whole log |
| Runs.StepCases | internal/localprovider/server.go:352-462 | a request changes the state exactly when it is accepted for the first time, and then by exactly one commit |
| Runs.RecordsLast | internal/localprovider/operations.go:298-311 | a record, once made, is never overwritten or removed in any later state of any run |
| Runs.EffectAtMostOnce | internal/localprovider/server.go:368-373 | in any run at most one request with a given key takes effect |
| Runs.RecordOrigin | internal/localprovider/operations.go:308-311 | every record was made by an accepted request with that key and holds the value of its change |
| Runs.SuccessIsTheRecord | internal/localprovider/operations.go:298-306 | a successful reply is the record under its key, then and ever after |
| Runs.RepliesAgree | internal/localprovider/operations.go:298-311 | all successful replies to one key carry the same value, that of its one effect |
| Runs.RetryReplays | internal/localprovider/server.go:368-373 | repeating an accepted request later, whatever happened in between, changes nothing and gives the recorded value |
| Reachable.FreshIsLegal | internal/localprovider/server.go:374-386 | an accepted change moves the version it finds by one and changes nothing of the record that the request does not set |
| Reachable.ApplyKeepsConsistent | internal/localprovider/operations.go:186-213 | every accepted change keeps role lists strictly sorted and within the existing roles, and system roles as they are |
| Reachable.AlwaysConsistent | internal/localprovider/server.go:58-86 | in every state of every run each user's role list is strictly sorted and names existing roles only |
| AuditReplay.EntryTellsUserRoles | internal/localprovider/operations.go:193-213 | an assignment or revocation can be redone from its audit entry alone |
| AuditReplay.ServeReplays | internal/localprovider/server.go:480-486 | the entries that one request adds to the log account for all it changed in the view |
| AuditReplay.ReplayRebuilds | internal/localprovider/server.go:480-486 | folding the audit log over the first state gives every entity version, user status, role set and version, role version, and the versions of plan, run and task |
| AuditReplay.LogAccounts | internal/localprovider/server.go:397-427 | at every point of every run there are as many records as audit entries, less the first one, plus one for each accepted deletion preview; run, task and plan versions count the entries of their kinds |
| Versions.VersionStep | internal/localprovider/operations.go:97-105 | each request moves the version of each resource as its accepted change says and otherwise not at all |
| Versions.VersionCountsMutations | internal/localprovider/server.go:374-386 | while a resource exists, n accepted mutations add exactly n to its version |
| Versions.NoLostUpdate | internal/localprovider/operations.go:151-164 | of two accepted mutations of one resource the later expected a higher version |
| Versions.OneAcceptedPerVersion | internal/localprovider/operations.go:236-261 | users, roles, plan, run and task accept at most one mutation for each expected version over any run |
| Versions.VersionsBounded | internal/localprovider/operations.go:280-286 | every version is between 1 and the number of audit entries |
| Versions.SystemRolesForever | internal/localprovider/operations.go:151-164 | system roles keep name and version in every state of every run |
| Transactions.TakeKeepsInv | internal/localprovider/server.go:234-272 | every step of every process keeps the invariant that memory behind the row lock is a run of the sequential machine |
| Transactions.StepRefines | internal/localprovider/server.go:234-272 | a step of the processes is one step of the sequential machine when it commits and none otherwise |
| Transactions.OnlySuccessChangesRow | internal/localprovider/server.go:255-266 | a request that was not answered with success leaves resources, records and log of the durable row as they were |
| Transactions.BufferedCanSave | internal/localprovider/server.go:255-256 | a served request can always be saved, so no process is stuck holding the row |
| Transactions.RecordsAreForever | internal/localprovider/server.go:234-272 | no step of any process overwrites or removes a durable record |
| Transactions.ExactlyOnce | internal/localprovider/server.go:234-272 | a key for which some client saw success took effect exactly once, and every success carries the durable record |
| Transactions.AtMostOnce | internal/localprovider/server.go:234-272 | a key takes effect at most once even when no client ever learned of it |
| Transactions.DirtNeverShows | internal/localprovider/server.go:274-282 | what aborted requests left in memory never changes a row, a reply or an answer |
| Escaping.UnescapeEscape | internal/provider/identity.go:121-121 | decoding undoes path escaping of every byte string, whatever follows it |
| Escaping.EscapeInjective | internal/provider/identity.go:155-155 | two identifiers never print alike |
| ClientPaths.SeenIsSpelled | internal/provider/metadata_delete.go:38-38 | without dot segments the provider sees exactly the path that was spelled |
| ClientPaths.SeenHasNoDots | internal/provider/client.go:70-82 | the path that arrives always decodes and never holds a dot segment |
| RoundTrip.PartsOfSpelled | internal/localprovider/operations.go:87-92 | splitting a trimmed path gives the spelled segments back |
| RoundTrip.RoleDelivered | internal/provider/identity.go:155-155 | a role update arrives exactly when the role is not named `status` |
| RoundTrip.AssignmentDelivered | internal/provider/identity.go:175-175 | a role assignment arrives with both identifiers |
| RoundTrip.TasksDotted | internal/provider/operations.go:135-135 | of the dot segments a task list survives `.` and not `..` |
| RoundTrip.RoundTripExactly | internal/localprovider/server.go:140-207 | a printed request reaches the intended handler, which recovers the same identifiers, exactly when it is routable |
| RoundTrip.StatusRoleGoesAstray | internal/localprovider/server.go:155-162 | a renaming of the role `status` reaches the handler for a user's status, which refuses its path |
| RoundTrip.DotEntityGoesAstray | internal/provider/metadata_delete.go:38-38 | a removal of the entity `.` reaches its handler with the empty code |
| Utf8.UnchangedExactly | internal/provider/identity.go:182-198 | text comes out of JSON as it went in exactly when it is UTF-8 |
| Utf8.Utf8Exactly | internal/provider/identity.go:182-198 | the texts that count as UTF-8 are exactly the encodings of sequences of Unicode scalar values |
| Utf8.CoercedLength | internal/provider/identity.go:182-198 | each byte that is no part of UTF-8 adds two to the length |
| Utf8.CoercedControl | internal/provider/identity.go:200-210 | going through JSON neither adds nor removes a control character |
| Utf8.CoercedIsUtf8 | internal/localprovider/server.go:248-266 | what came out of JSON once goes through it again unchanged |
| Validators.ClientBodiesAreSound | internal/provider/identity.go:92-198 | the body of a call that the client accepts, as it arrives, can only bring acceptable values into the state exactly when the call's texts still fit after JSON |
| Validators.AcceptedInBytes | internal/provider/identity.go:200-222 | which users, roles and entities the client accepts, in bytes and numbers |
| Validators.DeletionsInBytes | internal/provider/metadata_delete.go:53-99 | which deletion plans and receipts the client accepts: for the code and version it asked about, within their bounds |
| Acceptance.UserAcceptedExactly | internal/provider/identity.go:92-108 | in every state of every run of client calls a created user is accepted exactly when the texts of the call that created it fit as they arrived and it has at most 200 roles |
| Acceptance.RoleAcceptedExactly | internal/provider/identity.go:128-160 | a role is accepted exactly when the key of the call that made it and the name of the call that named it last fit as they arrived |
| Acceptance.EntityAcceptedExactly | internal/provider/metadata.go:101-126 | an entity is the first one or accepted exactly when the texts of the call that stored it last fit as they arrived |
| Acceptance.PlanAcceptedExactly | internal/provider/operations.go:225-244 | the quota plan is the first one or accepted exactly when the plan of the call that published it fits as it arrived |
| Acceptance.BrokenNameIsSent | internal/provider/identity.go:92-108 | the client accepts a display name of 512 bytes that are no UTF-8, which arrives as 1536 bytes |
| Acceptance.BrokenNameIsStored | internal/localprovider/operations.go:51-76 | whatever clients did before, such a call with a new identifier and key is stored, and the list of users is refused |
| Acceptance.BrokenNameStays | internal/provider/identity.go:46-60 | once a call that does not fit has created a user, the list of users is refused in every later state |
| Acceptance.BrokenCodeIsRefused | internal/localprovider/server.go:363-367 | an entity whose code is not UTF-8 is answered with 400, because path and body no longer agree |
| StoredText.AlwaysUtf8 | internal/localprovider/server.go:248-266 | every text of every state of every run of decoded requests is UTF-8, so saving and loading change no text |
| Validators.UserAcceptedExactly | internal/provider/identity.go:200-210 | in every state of every run of requests whose texts arrived within the bounds, the one thing that can make the client refuse a stored user is its number of roles |
| Validators.AcceptedRenameGoesAstray | internal/provider/identity.go:145-160 | the client's own checks let through every renaming of `status`, which then goes astray |
| Validators.AcceptedRemovalGoesAstray | internal/provider/metadata_delete.go:53-88 | the client's own checks let through every removal of `.`, which then goes astray |
| RoleLimit.AnyNumberOfRoles | internal/localprovider/operations.go:186-213 | for every number of roles that there are names and keys for, clients creating and assigning roles bring a user to exactly that number |
| RoleLimit.OverfullUser | internal/provider/identity.go:46-60 | after such a run the list of users holds a user that the client refuses |
| RoleLimit.RoleReplyAcceptedExactly | internal/provider/identity.go:162-180 | in every run of client calls the answer to an assignment or revocation, first or on a retry, is that of the request that took effect under the key, and the client accepts it exactly when the user's texts fit and it had room for the role there |
| Validators.ChangeIsFromRequest | internal/localprovider/operations.go:51-290 | an accepted change takes its texts from the request and nowhere else |
| Validators.ApplyKeepsValid | internal/provider/metadata.go:172-190 | every accepted change keeps every stored entity, role, run, task and plan acceptable to the client |
| Validators.AlwaysValid | internal/provider/operations.go:298-319 | from the first state on, under any client calls whose texts still fit as they arrive, everything stored and recorded stays acceptable, a user up to its number of roles |
| Validators.FreshValueValid | internal/localprovider/server.go:418-426 | what an accepted request answers with passes the matching validator |
| Validators.DeletionRepliesAccepted | internal/provider/metadata_delete.go:66-99 | in every run the preview or receipt that answers a call, first or on a retry under its key, is for exactly the code and version asked about, so the client accepts it |
| RoleIndex.NormalizedRoles | internal/auth/broker.go:203-216 | the map and sort loops give the strictly sorted list of the distinct roles that are not empty |
| RoleIndex.SearchIsMembership | internal/auth/types.go:127-130 | on a strictly sorted list the binary search is membership |
| RoleIndex.HasRoleExactly | internal/auth/types.go:127-130 | a session view has a role exactly when the role is not empty and was in the verified identity |
| Broker.Session.Deactivate | internal/auth/session.go:114-128 | ends a session once: closes its client, drops tokens and drafts; again is nothing |
| Broker.Session.StoreDraft | internal/auth/draft.go:9-40 | the loop over three draws stores under the first free reference or refuses, as the draft map says |
| Broker.Session.LoadDraft | internal/auth/draft.go:43-60 | answers what the draft map holds, and nothing once the session has ended |
| Broker.Session.DeleteDraft | internal/auth/draft.go:63-78 | removes exactly that snapshot, and nothing once the session has ended |
| Broker.Session.DraftKey | internal/auth/operations.go:55-82 | gives the kept key, or keeps and gives a fresh one within the limit |
| Broker.Session.ClearDraft | internal/auth/operations.go:85-97 | removes exactly that scope, and nothing once the session has ended |
| Broker.Broker.CleanupPending | internal/auth/session.go:130-136 | removes exactly the expired attempts |
| Broker.Broker.OldestPending | internal/auth/session.go:140-146 | one scan in any map order finds an attempt that no other precedes |
| Broker.Broker.EvictOldestPending | internal/auth/session.go:138-149 | removes no more attempts than needed for one more, each no younger than any it keeps |
| Broker.Broker.AddPending | internal/auth/broker.go:119-127 | the section of `Begin`: keeps the table within its bound and refuses a collision |
| Broker.Broker.Begin | internal/auth/broker.go:79-129 | exactly when a login begins, what the attempt holds, what it evicted, and that the request sent carries state, nonce and the image of the attempt's verifier |
| Broker.Broker.CleanupSessions | internal/auth/session.go:151-160 | takes out and lists exactly the expired sessions |
| Broker.Broker.EvictOldestSession | internal/auth/session.go:162-176 | takes out one session, and only from a full table, that no other session is older than |
| Broker.EvictionAdmits | internal/auth/broker.go:181-193 | after expiry and eviction the new session is in, everyone lost is listed, and whoever lost its place early is no younger than all that stayed |
| Broker.Broker.AddSession | internal/auth/broker.go:181-193 | the last section of `Complete` within the table's bound |
| Broker.ClientsBalance | internal/auth/session.go:114-128 | closing the clients of those who left leaves exactly the clients of the new table open |
| Broker.Broker.Settle | internal/auth/broker.go:181-200 | afterwards the open clients are again exactly those of the sessions in the table, also when the identifier collided |
| Broker.Broker.OpenSession | internal/auth/broker.go:149-200 | exactly when a session starts, that it belongs to the attempt's tenant and identity, and that every failure closes the new client |
| Broker.Broker.ClaimPending | internal/auth/broker.go:134-140 | the attempt is gone whether or not it could be claimed, and it is claimed exactly when it is there, in time and its own state comes with a code |
| Broker.Broker.Complete | internal/auth/broker.go:132-201 | exactly a live attempt presented with its own state and a code leads to an exchange, with the attempt's verifier and nonce, and anything else is an invalid state that changes no session; exactly an identity with that nonce, a subject, a token and bounded members starts a session, with the session time ahead of it; the table stays valid on every path |
| Broker.Broker.Invalidate | internal/auth/session.go:105-112 | takes one session out and ends it, leaving all others and their clients |
| Broker.Broker.Renew | internal/auth/session.go:38-50 | swaps token and client together and closes the old client |
| Broker.Broker.View | internal/auth/session.go:9-63 | a session is given exactly while its time runs and its token lasts beyond the skew or could be refreshed; the token and the client are kept in the first case and replaced in the second, and in every other case the session is over |
| Broker.Broker.Borrow | internal/auth/operations.go:31-52 | a client is handed out exactly then, the session's own one while its token lasts beyond the skew and a new one for the refreshed token otherwise |
| Broker.Broker.ValidateCSRF | internal/auth/operations.go:11-27 | tells an unknown session from a wrong token and changes nothing |
| Broker.Broker.Logout | internal/auth/session.go:88-103 | with the right CSRF token the session is over, otherwise nothing changes |
| Broker.Broker.Switch | internal/auth/session.go:66-85 | the old session is over before the new login begins, even when the target tenant is unknown |
| Broker.RegisterTenants | internal/auth/broker.go:60-69 | registers all tenants exactly when each is usable and none repeats |
| Broker.NewBroker | internal/auth/broker.go:17-71 | a broker is made exactly from a configuration with a client factory, usable tenants that all differ and no negative bound; it gets the lifetimes and limits given or else ten minutes, eight hours, one minute, 1024 and 4096, and starts valid and empty |
| Drafts.AlwaysBounded | internal/auth/operations.go:72-74 | no sequence of operations puts more than 128 entries into a session's map |
| Drafts.StateKeyInjective | internal/auth/draft.go:80-94 | different snapshots have different names, whatever bytes their references hold |
| Drafts.StoresUnderFirstFree | internal/auth/draft.go:9-38 | a snapshot is stored exactly under the first draw whose name is free, with no failed draw before it, and replaces nothing |
| Drafts.PerformsApart | internal/auth/draft.go:9-78 | one operation on the shared map is the same operation on two separate dictionaries |
| Drafts.AlwaysApart | internal/auth/draft.go:9-78 | after any operations every answer is the one that two separate dictionaries give |
| Drafts.KeyIsStable | internal/auth/operations.go:69-71 | a key stays until its own scope is cleared, whatever else happens to the map |
| Drafts.ScopesDiffer | internal/server/metadata.go:192-196 | two mutation bases never share a scope, even when an entity code holds a colon |
| Drafts.ScopesAreUnmarked | internal/server/metadata_delete.go:74-74 | no scope of the server can name a snapshot |
| Interleaving.ClientsStay | internal/auth/broker.go:149-200 | every step of every thread keeps each open client with exactly one owner, bound to tenant and token |
| Interleaving.SessionsStay | internal/auth/session.go:105-128 | every step keeps the table to active sessions, and every active session in the table or with a thread that will insert or end it |
| Interleaving.LoginsStay | internal/auth/broker.go:132-146 | every step keeps each login with at most one holder and at most one exchange |
| Interleaving.BoundsStay | internal/auth/session.go:138-176 | every step keeps both tables within their bounds |
| Interleaving.AlwaysInv | internal/auth/session.go:9-176 | all of this holds after any interleaving of lock sections |
| BrokerSafety.ClientConservation | internal/auth/broker.go:149-200 | every client ever made is closed, or current for exactly one active session, or local to exactly one running completion |
| BrokerSafety.QuietConservation | internal/auth/session.go:114-128 | with nothing in flight the open clients are the clients of the table's sessions, one for each, within the limit |
| BrokerSafety.ClientBinding | internal/auth/session.go:36-50 | however often it was swapped, a session's client is bound to the tenant of its own login and its current token |
| BrokerSafety.RunIsFinal | internal/auth/session.go:114-128 | no later step gives an ended session a token, a draft or a client, reopens a client or rebinds one |
| BrokerSafety.EndedIsUseless | internal/auth/operations.go:44-51 | a thread that found a session before it ended gets no view, no client, no draft and no logout out of it |
| BrokerSafety.EndedIsUnlisted | internal/auth/session.go:10-15 | looking up the identifier of an ended session takes no thread anywhere |
| BrokerSafety.LeavingIsFinal | internal/auth/session.go:66-112 | once a switch or logout has passed its CSRF check and returned, the session has ended for good and no thread finds anything under its identifier, whatever all threads did meanwhile and do later |
| BrokerSafety.SingleUseLogin | internal/auth/broker.go:97-146 | over any run each begun login is exchanged at most once, with its own nonce and tenant and the verifier whose image its authorization request carried, and at most one session comes of it |
| BrokerSafety.ExchangeIsAnswered | internal/auth/broker.go:132-146 | over any run the callback behind each exchange presented a code, in time, and the state that the authorization request of its login announced |
| BrokerSafety.ClaimExactly | internal/auth/broker.go:132-140 | a callback goes on to an exchange exactly when its attempt is there, in time and its own state comes with a code |
| BrokerSafety.IdentityExactly | internal/auth/broker.go:141-148 | an exchanged identity goes on exactly when it has the nonce of the attempt, a subject, a token and bounded members |
| BrokerSafety.ServedExactly | internal/auth/session.go:18-50 | a session is served exactly while its time runs and its token lasts beyond the skew, unchanged, or was renewed just now; otherwise it is going to be dropped for one of these reasons |
| BrokerSafety.SwapHasCause | internal/auth/session.go:24-48 | no step but a look at a session whose token ends within the skew gives it another client |
| BrokerSafety.DropHasCause | internal/auth/session.go:66-103 | a thread comes to drop a session only by its CSRF token or because its time or its token is over |
| BrokerSafety.EstablishedExactly | internal/auth/broker.go:149-178 | a new session has the tenant, login and token of the thread that completes it and lasts the session time from its callback |
| BrokerSafety.RetiredExactly | internal/auth/session.go:114-128 | deactivating leaves an active session without token, drafts and open client, and an ended one as it is |
| BrokerSafety.BorrowsCurrent | internal/auth/operations.go:37-51 | the client handed out is the current one of an active session |
| BrokerSafety.UnlistingHasCause | internal/auth/session.go:105-176 | a session leaves the table only when its time is over, when a full table needs room and none that stays is older, or when it is dropped |
| BrokerSafety.ForgettingHasCause | internal/auth/session.go:130-160 | an attempt leaves the table only when it is claimed, when its time is over, or when a full table needs room and none that stays is older |
| Locks.ProgramsFit | internal/auth/session.go:9-128 | the lock statements of every method, on every way through it, take one lock at a time, hold the right lock in the right mode for what they touch, and give it back |
| Locks.OneLockEach | internal/auth/session.go:105-128 | whatever calls any number of threads make, no thread ever holds two locks |
| Locks.NoRaces | internal/auth/operations.go:11-97 | two threads are at the same maps or the same session at once only if both read the maps |
| Locks.NeverDeadlocked | internal/auth/session.go:105-128 | while any call has not returned some call can go on, even when waiting writers keep new readers out |
| Locks.CallsReturn | internal/auth/session.go:9-128 | without new calls every run of the scheduler is over after a bounded number of steps |
| PlanApply.MetadataDeletePlan | internal/server/metadata_delete.go:73-104 | what planning a deletion does to the draft map and which page it shows, wherever the session ends meanwhile; a reference that is shown is new and keeps the deletable plan that was answered |
| PlanApply.MetadataDeleteApply | internal/server/metadata_delete.go:129-188 | what applying a deletion does to the draft map, and the one request it sends, if any, wherever the session ends meanwhile: without the confirmation nothing is sent, reported or forgotten, and what is sent is the deletable plan kept under the reference |
| PlanApply.MigrationPlan | internal/server/migration.go:76-102 | the same for planning a migration, from copies of the entities |
| PlanApply.MigrationApply | internal/server/migration.go:126-182 | the same for applying a migration: confirmed, and with the kept entities and plans |
| PlanApply.PlanEnded | internal/server/metadata_delete.go:73-104 | a session that ends while a plan is made keeps nothing of it, and no page shows a reference to a draft that is not there |
| PlanApply.ApplyEnded | internal/server/metadata_delete.go:154-182 | wherever the session ends, the provider gets the one reviewed call under its kept key or nothing, and no page says applied without that call |
| PlanApply.AppliedExactly | internal/server/metadata_delete.go:129-172 | an apply reaches the provider exactly when it is confirmed, its reference is sound and names a draft that may be applied, and there is a key; it carries that draft |
| PlanApply.PlanScopesDiffer | internal/server/metadata_delete.go:73-80 | plans of different entities, versions or kinds have keys of their own |
| PlanApply.MutateEnded | internal/server/metadata.go:192-214 | wherever the session ends, a guarded form is sent under the key it would have had anyway or not at all |
| Structs.CloneEntities | internal/server/migration.go:184-191 | each copy has the fields of its original in an array of its own, shared neither with the original nor with another copy |
| PlanApply.GuardedMutation | internal/server/metadata.go:192-214 | the draft handling shared by all guarded forms: key, request, clear on success, wherever the session ends meanwhile |
| PlanApply.SavedLeavesNothing | internal/server/identity.go:147-187 | a saved form leaves the draft map as it was |
| PlanApply.UnsavedKeepsItsKey | internal/server/operations.go:148-168 | a form that was not confirmed is sent again under the same key, whatever other forms do in between |
| PlanApply.RetrySendsTheSameCall | internal/server/metadata_delete.go:154-188 | after a failed apply the same reference sends the very same draft under the very same key |
| PlanApply.NeverAppliedAgain | internal/server/metadata_delete.go:184-188 | after success or conflict no later request for that reference reaches the provider |
| PlanApply.CycleRestores | internal/auth/operations.go:8-8 | a cycle completes, and restores the map, exactly when at most 125 drafts were there before |
| PlanRaces.TakeKeepsInv | internal/server/metadata_delete.go:73-188 | every access of every handler to a draft map keeps each deletion draft one that its session stored as deletable, and nothing that was stored is forgotten |
| PlanRaces.OnlyReviewedDeletions | internal/server/metadata_delete.go:134-172 | in every interleaving a deletion that is sent was confirmed, and carries the code and version of a plan that the same session had stored as deletable under the applied reference |
| WholeSystem.TakeKeepsInv | internal/server/metadata.go:192-214 | every step of browsers, sessions, other clients and provider processes keeps each key with one form, each unforgotten key in its map, and each confirmation in the provider's records |
| WholeSystem.ConfirmedTookEffectExactly | internal/server/metadata.go:192-214 | in every behaviour of the whole system, the key of a form that Studio saw confirmed took effect exactly once, by the first request under it that succeeded, which was sent for the same session and scope; what the form itself asks for took effect exactly when that request asked for the same |
| EditedForms.EditedResendIsLost | internal/server/metadata.go:192-214 | whatever two requests share a scope and ask for different things, some behaviour confirms the second under the key of the first, whose effect alone is in the row |
| EditedForms.EditedNameIsLost | internal/server/metadata.go:192-212 | a name that was edited after a lost answer is confirmed, and the row keeps the first name |
| WholeSystem.ResentTakesEffectOnce | internal/server/metadata.go:192-214 | in every behaviour, all requests sent for a form until its key is forgotten together take effect at most once |
| EndToEnd.ConfirmedSheetTookEffect | internal/server/identity.go:147-187 | in every behaviour of the whole system, a planned deletion, an applied plan or a form of the identity, workflow or quota page that is confirmed took effect itself, exactly once |
| EndToEnd.ReviewedCallTakesEffectOnce | internal/server/metadata_delete.go:154-182 | an apply repeated after a failure sends the same draft under the same key, and in every behaviour of the whole system at most one request under that key takes effect, which asks for that draft |
| FormRoundTrip.ParseMetadataEntity | internal/server/metadata.go:283-311 | the parsing loops read each numbered field once, up to 200, and the accepted entity has what the inputs of these names hold |
| FormRoundTrip.NamesDiffer | internal/server/templates/metadata_edit.html:39-42 | no two inputs of the form share a name |
| FormRoundTrip.FormRoundTripsExactly | internal/server/templates/metadata_edit.html:22-42 | printing and parsing give an entity back, with field order and version, exactly when it is within the bounds |
| FormRoundTrip.FormRoundTripsWithin | internal/server/metadata.go:283-311 | in numbers: exactly an entity with a code of 1 to 256 bytes, a name of 1 to 512, a kind of at most 128, at most 200 fields with codes and types of 1 to 256 bytes, a version within int64 and no control character comes back from its printed form |
| FormRoundTrip.Reindex | internal/server/assets/metadata-fields.js:9-31 | renumbering gives each section the number of its place and the count of all |
| FormRoundTrip.EditorRoundTrips | internal/server/assets/metadata-fields.js:9-47 | after any adding, removing and typing the submitted form parses to the edited list, in order, exactly when that is within the bounds |
| Scorecard.Verify | internal/scorecard/scorecard.go:66-115 | the one pass accepts exactly the scorecards whose every operation qualifies, all different and as many as expected |
| Scorecard.AcceptedCovers | internal/scorecard/scorecard.go:78-106 | acceptance makes the scored identifiers exactly the contract's, each once, and no score more than ten below its weight |
| Scorecard.AcceptsExactly | internal/scorecard/scorecard.go:66-115 | what acceptance comes to, member by member: version, commit, threshold and weights, and for each operation its scores, its total of at least 90, its five controls and two or more pieces of evidence that are there |
| Scorecard.EveryOperationIsScored | internal/scorecard/scorecard.go:78-88 | an accepted scorecard scores every operation exactly when operations with a common identifier are the same |
| Scorecard.SharedIdentifierHides | internal/scorecard/scorecard.go:78-106 | whenever two different operations share an identifier, some accepted scorecard leaves one of them out |
| Release.VerifyGates | internal/release/acceptance.go:153-163 | the gate loop accepts exactly the lists of as many different required gates as there are |
| Release.VerifyState | internal/release/acceptance.go:181-219 | accepts exactly the records whose facts match their status |
| Release.StateExactly | internal/release/acceptance.go:181-219 | status by status: which of commit, URL and publication time a record has, and how its runs ended |
| Release.EveryGateOnce | internal/release/acceptance.go:153-163 | what the gate loop accepts has every required gate exactly once |
| Release.StateOfGates | internal/release/acceptance.go:181-219 | an accepted or released record has each of the eight gates once, succeeded in a run with a positive number |
| Release.EqualMap | internal/release/acceptance.go:245-254 | the loop compares sizes and, key by key, what reading the right map gives |
| Release.EmptyDigestMisleads | internal/release/acceptance.go:245-254 | a left map with an empty digest is taken for some different map |
| Release.TrustedExactly | internal/release/acceptance.go:245-254 | the comparison means equality for a left map exactly when none of its digests is empty |

## Left out

- JSON as bytes: loading and saving are the identity on structured values, whose texts `StoredText`
  shows to survive; replayed replies are compared as values and not as bytes, and a corrupt payload does
  not occur.
- What JSON makes of the limits of a quota plan, a map whose keys may merge: `Validators.Library.resent`.
- The 64 KiB that Studio and the provider read of a request: calls are taken to be within it.
- HTTP transport, headers, cookies, templates and DOM behaviour beyond the form's input names.
- OpenID Connect discovery, token exchange, token verification and PostgreSQL: their outcomes are
  parameters or steps, and the row lock is mutual exclusion.
- SHA-256, base64 and random generation: the image of a verifier is a function that nothing is known
  of, a form basis is any text without a colon, and random draws are parameters that may fail or
  repeat unless a statement says otherwise.
- `time.Parse` and the size of encoded quota limits: the predicates of `Validators.Library`.
- Search and pagination: the provider ignores limit and cursor, so page bounds do not agree with the
  client's.
- Usage records, discrepancies and audit records as the client validates them.
- 64-bit wrap-around of versions: `Versions.VersionsBounded` bounds each version by the audit log.
- `sort.Strings` is insertion, `sort.SearchStrings` its textbook halving; Go's map order is any order.
- Sharing of the lists in a session's drafts: drafts are values there. Entities, users and records of
  the provider and the copies of `Structs.CloneEntities` hold arrays.
- Version uniqueness across deletion and re-creation of one entity: re-creation starts at 1 again, so
  `Versions.NoLostUpdate` speaks of one incarnation.
- At most one migration under concurrent applies of one draft: a second apply can obtain a new key
  once the first has cleared its scope, so the migration statements are sequential.
- EndToEnd.ReviewedCallTakesEffectOnce: what the handler does to the draft map is the sequential
  `PlanApply`, so it says nothing of other accesses in the middle of an apply (`PlanRaces` has these); how
  a draft becomes a request is a parameter, as are the sheets' requests in
  `EndToEnd.ConfirmedSheetTookEffect`.
- The look-up of a session identifier in front of each draft operation: in `Broker` these start from
  the session, in `Sections` from the step that found it.
- The volatile cache map of a session, which nothing reads, and the list of tenant views.
- What an operation does with a client that `WithClient` handed out; another thread may close the
  client meanwhile.
- The remaining equalities of `verifyStatic` and the reading of evidence files, which are parameters.
- Broker.Session.LoadDraft: does not model the type assertion on the stored value; drafts are a
  datatype and the handlers ask for its constructor.
- Fairness: `Locks.NeverDeadlocked` and `Locks.CallsReturn` make all running calls return when no new
  ones start; that no call is overtaken for ever by new ones is up to the scheduler.
