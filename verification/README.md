# Keyline operator: a verified model of its reconcilers

The operator keeps seven kinds of Kubernetes resources (instance, virtual server, project, application, role,
user, role assignment) in step with a remote Keyline server. Each reconcile pass is a sequence of remote calls
followed by one status write. Any call may fail, a failed call may or may not have taken effect, a pass may stop
anywhere, and the status write may be lost. What matters are therefore the *runs*: passes, interrupted passes,
spec edits and third-party edits in any order. This project models the passes branch by branch and proves what
holds over such runs, and exactly where the documented promises end.

## How it is built

| file | content |
|---|---|
| `Prelude.dfy`, `Remote.dfy` | optional values; ids, replies, faults, the paged listing and what a search of it can find |
| `MergePatch.dfy` | JSON merge patch (section 2 of RFC 7396) and the diff that produces it |
| `StatusPatch.dfy` | conditions, the status of every kind, its document form, and the patcher that writes it |
| `UserModel.dfy`, `UserController.dfy` | the service-user pass as a function, and as the imperative code, proved equal |
| `UserReplay.dfy`, `UserLedger.dfy`, `UserProgress.dfy`, `UserAccounts.dfy` | replay safety; key ownership over runs; progress; single creation |
| `UserBacking.dfy`, `UserLimits.dfy` | how long the ledger names only outstanding keys; exactly where the documented promises about keys end |
| `UserLaws.dfy` | what a user pass means for its spec: which keys, whose account, what the verdict and the written list say |
| `Roles.dfy`, `RoleProperties.dfy` | the role reconciler: pass, code, convergence |
| `Applications.dfy`, `ApplicationRuns.dfy`, `Assignments.dfy`, `VirtualServers.dfy`, `Projects.dfy` | the same for four more reconcilers |
| `Instances.dfy`, `InstanceProperties.dfy` | config file, credentials, owned cluster objects |
| `Readiness.dfy` | the readiness gates across all seven kinds |

Every reconciler appears twice: as a function on values (`...Model`), and as methods of a class that owns the
mutable remote state (`...Controller`), whose postconditions say that the code computes that function. The
properties are lemmas about the functions, and so hold of the code. `StatusPatcher`, `ApiServer` and `Resource`
are the mutable entities of `helpers.go`.

## Assumptions, each a named parameter or predicate

- `Remote.Fault`, `UserModel.Turn`: every call draws its outcome from a script: `Clean`, `NoEffect` (error, nothing
  happened) or `LostReply` (error, yet it happened). An exhausted script means clean calls. A crash is a failing
  next call together with a lost status write. A failed call never looks like a 404.
- `Remote.Registry`: server ids are positions in creation order, are not reused, and listings follow that order.
  Only the first page of 1000 live items is ever listed; `FitsPage` and `Room` appear only where they are needed.
- `Remote.StoredId`: the text of a status id is empty, no UUID, or the print of a server id that parses back.
- `UserModel.Policy`: whether associating a key id that exists replaces it or is refused. `Server.unique` and
  `World.strict` say likewise whether a taken name or a repeated assignment is refused. The server does not
  refuse two service users of one username.
- A nil field of a patch request means "leave as it is" (`Patched` of each model).
- Third parties may edit accounts and keys before any single call of a user pass (`Turn.edits`), and anything between
  the passes of roles, applications, assignments, projects and instances (`ThirdParty` of each run).
- The order in which the runtime walks over a map of keys is a parameter (`IsOrder`), and so are error texts, times,
  the generated key pair, the hash and the availability of the Deployment.
- `Surroundings.defaulting`: whether the API server fills in fields that the operator leaves out of the Service and the
  Deployment. If so, the next pass finds them different from what it wants and overwrites them again.
- The API server applies a status patch atomically, and one pass at a time runs for an object.
- The reconcile methods receive the verdict of the readiness gates as `blocked`; `ReadinessController.CheckGates`
  computes it.

## Where code and documentation differ

The model follows the code.

- The API documentation says only keys the operator added are removed, and keys associated out-of-band are left alone.
  `UserLedger.NeverRemovesForeignKeys` proves the first for kids and every run in which no pass finds its stored account
  gone. The second needs a ledger that names only keys put there and not removed since, and that fails in two ways: a
  stale stored id is cleared but its ledger is not (`UserLimits.ThirdPartyLosesAKey`); and a lost status write, or an aborted
  removal phase, leaves a removed key in the ledger (`UserLimits.LostWriteLosesAKey`). `UserBacking.StepBackedIff`,
  `UserBacking.OnlyOutstandingKeysRemoved` and `UserLimits.ForeignKeyLossIff` give the exact conditions.
- A lost reply to an association leaves a key the operator added outside its ledger, so that it will never be removed
  (`UserLimits.LostReplyLeaksAKey`; `UserLedger.StepCompleteIff` gives the exact condition), and
  `UserReplay.RefusalPersists` shows that a server without upsert then refuses every later pass.
- A managed key whose PEM was edited or that vanished is not restored (`UserLimits.WantedKeysCorrectIff`).
- A role whose stored id is unparsable and whose name is not listed is reported Ready without an id
  (`RoleProperties.ReadyWithoutIdIff`); `ReadinessProperties.InvalidIdExitsUnreachable` shows that no run of the
  operator itself produces such an id.
- "Find by name, else create" looks at the first page only. A server that refuses duplicates then blocks the role and
  application reconcilers for ever (`RoleProperties.RoleConvergesInTwoIff`, `ApplicationProperties.AppConvergesInTwoIff`);
  another one gets a duplicate (`ApplicationProperties.SecondAppIff`, `UserAccounts.SecondAccountIff`).
- Clearing a signing algorithm or a post-logout list sends an empty patch for ever
  (`ApplicationProperties.FixedPointIff`).
- The claims script is left out of the creation request, so a created application needs a second pass
  (`ApplicationProperties.UnstoredAppPass`, `ApplicationProperties.AppConvergesInTwo`).
- A project is never corrected after its creation (`ProjectProperties.AgreesIff`), and an application is reported Ready
  although its name or kind differs from the spec (`ApplicationProperties.NameAndKindStay`, `ApplicationProperties.NameAgreesIff`).

## Model

| member | source | states |
|---|---|---|
| Remote.SearchPage | internal/controller/keylineuser_controller.go:122-133 | a search of page 0 returns the oldest match exactly if fewer than a page of live items precede it, and nothing otherwise |
| MergePatch.RoundTrip | internal/controller/helpers.go:46-64 | the merge patch computed from a snapshot and the mutated object turns the snapshot into the mutated object |
| MergePatch.FrameKeptIff | internal/controller/helpers.go:46-64 | whatever the server holds by now at a path is kept by the status patch, for every such value, exactly if the path is untouched: snapshot and object agree somewhere along it, or it leaves the object through an object that has no such member |
| MergePatch.AgreedIsUntouched | internal/controller/helpers.go:46-64 | so in particular at every path through objects of both documents at whose end they agree |
| MergePatch.FrameWritten | internal/controller/helpers.go:46-64 | where snapshot and object differ and the object has no nested object, the server ends with the object's value: arrays replaced whole, removed members gone, new parents put in place |
| StatusPatch.StatusPatcher.constructor | internal/controller/helpers.go:57-64 | the snapshot is the status before any mutation and is not affected by later ones |
| StatusPatch.StatusPatcher.SetNotReady | internal/controller/helpers.go:66-86 | upserts Ready=False and writes the patch from the snapshot; the error is returned exactly if the write fails |
| StatusPatch.StatusPatcher.SetReady | internal/controller/helpers.go:70-100 | the same with Ready=True |
| StatusPatch.UpsertReadsBack | internal/controller/helpers.go:74-100 | a condition reads back as set and no condition of another type changes |
| StatusPatch.UpsertSets | internal/controller/helpers.go:74-100 | the first condition of the type gets the given value, reason and message, its transition time kept exactly if the value is the same; every other condition stays in its place |
| StatusPatch.ConcludeSets | internal/controller/helpers.go:66-100 | the same for the Ready condition of a status, whose id and managed keys are left alone |
| StatusPatch.OutcomeIsReadBack | internal/controller/helpers.go:46-100 | after a status write that lands, the next pass reads the concluded value, reason and message |
| StatusPatch.UpsertKeepsOnePerType | internal/controller/helpers.go:74-100 | conditions stay a map keyed by type, with no new types but the one set |
| StatusPatch.DocumentRoundTrip | internal/controller/helpers.go:46-64 | the next pass reads back exactly the id, managed keys and conditions that were stored |
| StatusPatch.StatusIsShown | api/v1alpha1/keylineuser_types.go:56-70 | id, managed keys and each part of each condition are found in the document under the field names of the API |
| StatusPatch.WriteIsAtomic | internal/controller/helpers.go:46-100 | id, managed keys and condition land together or not at all, and a spec edited since the read survives |
| StatusPatch.ConcludeAgain | internal/controller/helpers.go:74-100 | repeating an outcome at a later time changes no status byte, transition time included, and the patch is empty |
| UserController.EnsureServiceUser | internal/controller/keylineuser_controller.go:105-142 | the code finds or creates the account as specified: stored id, else first listed service user, else creation; the id is cleared on 404 and kept in the status whatever follows |
| UserController.AddMissing | internal/controller/keylineuser_controller.go:160-177 | associates exactly the unmanaged desired keys in iteration order, entering each in the ledger at once, and stops at the first error with the progress kept |
| UserController.ReconcileKeys | internal/controller/keylineuser_controller.go:153-194 | the whole key sync equals its specification in remote state, ledger and failure; an aborted removal phase leaves the ledger of its start |
| UserController.ReconcileWithClient | internal/controller/keylineuser_controller.go:77-99 | one pass leaves the specified remote state and status, and the stored document is the merge of exactly that status |
| UserReplay.PartwayEndsTheSame | internal/controller/keylineuser_controller.go:156-192 | from any interruption point of a key sync, with the new ledger or the old, a sync ends in the same keys |
| UserReplay.SyncKeysPartway | internal/controller/keylineuser_controller.go:153-194 | wherever a sync stops, without third-party edits, it has touched only keys it manages or wants, on one account, and the ledger covers what it knows |
| UserReplay.SuccessIsExact | internal/controller/keylineuser_controller.go:148-194 | without third-party edits during it, a pass that reports success has for every iteration order exactly this effect: wanted unmanaged keys get the spec PEM, managed unwanted keys are gone, everything else is as it was, ledger = wanted keys |
| UserLaws.SuccessServesTheSpec | internal/controller/keylineuser_controller.go:148-194 | in terms of the listed keys alone: managedKeyIds is the set of listed kids, each that was not managed is on the account with the PEM of its last entry, managed kids no longer listed are gone, all other keys and, unless declared, the display name are as they were |
| UserLaws.ManagedListAfter | internal/controller/keylineuser_controller.go:160-192 | the list itself: after success the old entries still listed in their order, then the new ones as associated; all of both after a failed removal; a prefix of the new ones after a failed association |
| UserLaws.WhoseAccount | internal/controller/keylineuser_controller.go:105-142 | a live stored id is taken as it is; else the account is the oldest listed one with that username and the service flag, or, exactly if the first page has none, a new one without keys |
| UserLaws.AdoptsItsOwn | internal/controller/keylineuser_controller.go:122-142 | whatever fails before, a pass that succeeds without a live stored id stores that of a service user of exactly the username of the spec (no third-party edits during it) |
| UserLaws.VerdictNamesTheCall | internal/controller/keylineuser_controller.go:77-194 | in any world a pass stops at the first call that fails: success means no call failed, a failure names the kind of the last call, and the stored id is cleared exactly if the probe found the account gone and none took its place |
| UserReplay.CleanPassSucceedsIff | internal/controller/keylineuser_controller.go:165-177 | a clean pass succeeds exactly if associating is an upsert or no wanted unmanaged key is on the account |
| UserReplay.InterruptKeepsOutcome | internal/controller/keylineuser_controller.go:77-194 | one interrupted pass, lost write or not, does not change where a clean pass ends nor which account it works on |
| UserReplay.ReplaySafety | internal/controller/keylineuser_controller.go:77-194 | after any number of interrupted passes (no third-party edits, room on the page, upsert), one clean pass gives the accounts, id and managed keys of a single clean pass |
| UserReplay.RefusalPersists | internal/controller/keylineuser_controller.go:165-177 | without upsert, an unrecorded key on the account makes every later pass fail while the key stays wanted |
| UserReplay.ManagedStaysDuplicateFree | internal/controller/keylineuser_controller.go:165-192 | managedKeyIds never gains a duplicate, however the pass ends |
| UserReplay.UserQuiescence | internal/controller/keylineuser_controller.go:85-98 | after success, a clean pass at any later time makes no key call, changes neither server nor status, and its status patch is empty |
| UserLedger.NeverRemovesForeignKeys | api/v1alpha1/keylineuser_types.go:26-31 | over every run from a new resource with edits of spec, keys and accounts between any two calls, failures and lost writes, Remove is called only for kids whose association with the account the operator saw succeed at some time, as long as no pass finds the account of its stored id gone |
| UserBacking.StepBackedIff | internal/controller/keylineuser_controller.go:179-192 | a ledger that names only keys the operator has put on the account and not removed since stays so exactly if the pass had no answered removal, or reported success and had its status write kept; lost writes and aborted removal phases break it |
| UserBacking.OnlyOutstandingKeysRemoved | api/v1alpha1/keylineuser_types.go:26-31 | over every run from a new resource in which no pass finds its stored account gone, the ledger is so at every point exactly if that is so of every pass, and then Remove is only ever called for a key the operator has put there and not removed since: keys associated out-of-band are left untouched |
| UserLedger.NoDeletionsNeverStale | internal/controller/keylineuser_controller.go:108-120 | no pass finds it gone if nobody deletes accounts |
| UserLedger.StepCompleteIff | internal/controller/keylineuser_controller.go:160-192 | after a pass every key put on the server and not removed since is in managedKeyIds exactly if every association of the pass that took effect was answered and its status write kept; lost replies to other calls, and lost writes of passes that associated nothing, do no harm |
| UserLedger.NothingEscapesTheLedger | api/v1alpha1/keylineuser_types.go:61-65 | over every run from a new resource in which no pass finds its stored account gone, managedKeyIds is complete at every point exactly if that is so of every pass |
| UserProgress.SyncDistance | internal/controller/keylineuser_controller.go:165-193 | without third-party edits the number of keys still to add or remove falls by exactly one per association seen and per removal that landed, and so never rises; success means zero |
| UserProgress.PassDistance | internal/controller/keylineuser_controller.go:77-99 | the same for a whole pass that finds, adopts or creates its account (no third-party edits, room on the page); the distance does not rise, the status write being kept or lost, and success means zero |
| UserProgress.RunNeverRises | internal/controller/keylineuser_controller.go:77-99 | over a whole run with the spec frozen and no third-party edits, status writes kept or lost, the distance never rises |
| UserProgress.RunDistance | internal/controller/keylineuser_controller.go:77-99 | if the writes are kept, the effective key calls of the run number exactly the distance gained, so at most the distance at the start |
| UserAccounts.AtMostOneAccount | internal/controller/keylineuser_controller.go:105-142 | over any run with lost creation replies, lost writes, any number of resources and any third-party edits between any two calls, the operator creates at most one account per username plus one for each account third parties delete, and one less if it was there; listings that are made fit a page |
| UserAccounts.SecondAccountIff | internal/controller/keylineuser_controller.go:122-141 | a second account of a username is created exactly if a full page of live accounts precedes the first one |
| UserLimits.LostKeysIff | internal/controller/keylineuser_controller.go:165-192 | for both policies, a clean pass takes a key off the account it works on exactly if it gets past associating and the key is there, in the ledger and not wanted |
| UserLimits.ForeignKeyLossIff | internal/controller/keylineuser_controller.go:108-120 | for both policies and any history, a clean pass takes a key off an account that the operator has not put there, or has removed since, exactly if it gets past associating and that account holds such a kid, in the ledger and not wanted; with a ledger backed by the stored account this needs that account to be gone |
| UserLimits.OtherAccountsUntouched | internal/controller/keylineuser_controller.go:77-99 | every account but the one the pass works on stays as it is |
| UserLimits.ForeignRemovalIff | internal/controller/keylineuser_controller.go:179-190 | a clean pass calls Remove for a key it never associated, there or not, exactly if it gets past associating and the ledger names such an unwanted key |
| UserLimits.StrayRemovalIff | internal/controller/keylineuser_controller.go:179-190 | the same for a key that is not outstanding, never associated or removed since |
| UserLimits.ThirdPartyLosesAKey | internal/controller/keylineuser_controller.go:108-120 | a concrete run from a new resource, with its account deleted, in which a third party loses its key, under either policy |
| UserLimits.LostWriteLosesAKey | internal/controller/keylineuser_controller.go:179-192 | a concrete run from a new resource, with nothing deleted, in which one lost status write after a removal makes a third party lose the key it then associates under that kid, under either policy |
| UserLimits.UntouchedKeys | internal/controller/keylineuser_controller.go:148-166 | keys that are neither wanted nor managed, and keys that are both, keep their value in every pass without third-party edits, even if the PEM differs |
| UserLimits.WantedKeysCorrectIff | internal/controller/keylineuser_controller.go:165-177 | after a pass that reports success every wanted key carries the PEM of the spec exactly if the wanted keys that were managed already did |
| UserLimits.LostReplyLeaksAKey | internal/controller/keylineuser_controller.go:170-177 | a concrete run in which one lost reply leaves an own key outside the ledger |
| UserProgress.StoredIdShape | internal/controller/keylineuser_controller.go:105-142 | userId is kept, cleared or set to a server id, and success implies a server id, in every world |
| RoleController.Sync | internal/controller/keylinerole_controller.go:87-152 | the code computes the specified remote state, stored id and failure |
| RoleController.Reconcile | internal/controller/keylinerole_controller.go:87-152 | one pass, gates included, leaves the specified status and stored document |
| RoleProperties.RoleConvergesInTwoIff | internal/controller/keylinerole_controller.go:87-152 | from any remote state and any stored id, two clean passes end with a stored role of the wanted name and description exactly if the role need not take a name the server has given away and the reconciler is not blocked: unable to see who has the name, and refused it or kept from asking by an unparsable id; otherwise no number of passes does |
| RoleProperties.SuccessMeans | internal/controller/keylinerole_controller.go:87-152 | whatever fails before or after, what a role reported Ready stands for: name and description of the spec on the stored role, a role of that name adopted as it was, a new one with both, or no role at all |
| RoleProperties.PatchesWhatDiffers | internal/controller/keylinerole_controller.go:97-119 | whatever fails, a live stored role is left as it is or brought to the spec, and a patch names exactly the differing fields with the values of the spec |
| RoleProperties.CreatesWhatIsWanted | internal/controller/keylinerole_controller.go:122-152 | what is created, its reply lost or not, has the name of the spec and its description or none, and no other role changes |
| RoleProperties.VerdictNamesTheCall | internal/controller/keylinerole_controller.go:87-152 | in any world success means no call failed, a failure names the kind of the last call, and says which id is stored |
| RoleProperties.ConvergedIsQuiet | internal/controller/keylinerole_controller.go:87-117 | once converged a pass is a single read |
| RoleProperties.RoleQuiescence | internal/controller/keylinerole_controller.go:87-117 | once converged a later clean pass changes neither server nor status and sends an empty status patch |
| RoleProperties.ReadyWithoutIdIff | internal/controller/keylinerole_controller.go:119-152 | Ready without a server id arises exactly from an unparsable id and a name that is not listed; passes never make an unparsable id |
| RoleProperties.CreationIff | internal/controller/keylinerole_controller.go:87-150 | a clean pass creates a role exactly if its stored id is empty or stale and no live role has the name, or the first such role lies beyond a full page and the server accepts duplicates |
| RoleProperties.CreationsBound | internal/controller/keylinerole_controller.go:87-150 | over any run with failures, lost replies, lost writes and arbitrary third-party changes, creations of a name number at most one plus the times the name became free, one less if it was taken at the start, if the server refuses duplicates or the roles fit the page |
| RoleProperties.AtMostOneRole | internal/controller/keylinerole_controller.go:87-150 | where third parties leave roles of the name their name, that is at most one plus the operator passes that renamed a role of this name to another; renamings of other roles do not matter |
| RoleProperties.RenamingCreatesAgain | internal/controller/keylinerole_controller.go:97-115 | a concrete run with one rename and two creations of one name: the bound is attained |
| ApplicationController.BuildApplicationPatch | internal/controller/keylineapplication_controller.go:154-203 | the field-by-field assembly, needsPatch flag included, computes the diff |
| ApplicationController.Sync | internal/controller/keylineapplication_controller.go:88-143 | the code computes the specified remote state, stored id and failure |
| ApplicationController.Reconcile | internal/controller/keylineapplication_controller.go:88-143 | one pass, gates included, leaves the specified status and stored document |
| ApplicationProperties.DiffIsNilIff | internal/controller/keylineapplication_controller.go:154-203 | nothing is sent exactly if the application agrees with the spec and no clearing is asked for |
| ApplicationProperties.DiffIsSufficientAndMinimal | internal/controller/keylineapplication_controller.go:154-203 | applying the diff brings agreement, keeps everything undeclared, and carries only fields that differ |
| ApplicationProperties.FixedPointIff | internal/controller/keylineapplication_controller.go:174-197 | the diff of the patched application is nil exactly if the spec clears neither a signing algorithm nor a post-logout list; otherwise the same empty patch repeats |
| ApplicationProperties.AppConvergesInTwoIff | internal/controller/keylineapplication_controller.go:88-143 | from any remote state and any stored id, two clean passes end Ready in agreement with the spec on every field it declares and the server can patch, exactly if the reconciler is not stuck: refused a name whose owner it cannot see because of a full page before it, or does not look for because of an unparsable id; a stuck one stays so |
| ApplicationProperties.NameAndKindStay | internal/controller/keylineapplication_controller.go:88-143 | no pass, whatever fails, changes name or kind of an application; one it creates has those of the spec |
| ApplicationProperties.NameAgreesIff | internal/controller/keylineapplication_controller.go:88-143 | so after convergence the name agrees exactly if the stored application, if it was live, already had it |
| ApplicationProperties.AppConvergesInTwo | internal/controller/keylineapplication_controller.go:88-143 | so they do from any empty or server id where the applications fit a page |
| ApplicationProperties.ConvergedIsQuietIff | internal/controller/keylineapplication_controller.go:104-121 | later passes change nothing, and are single reads exactly if no clearing case is left |
| ApplicationProperties.AppQuiescence | internal/controller/keylineapplication_controller.go:104-121 | once converged a later clean pass changes neither server nor status and sends an empty status patch |
| ApplicationProperties.UnstoredAppPass | internal/controller/keylineapplication_controller.go:88-143 | without a stored id one clean pass brings a listed application of the name into agreement, or creates one that agrees exactly if the spec has no claims script, or is refused |
| ApplicationProperties.SuccessMeans | internal/controller/keylineapplication_controller.go:88-143 | whatever fails before or after, an application reported Ready agrees with the spec, or is new with everything declared but the claims script, and nothing else changed |
| ApplicationProperties.VerdictNamesTheCall | internal/controller/keylineapplication_controller.go:88-143 | in any world success means no call failed, and a failure names the kind of the last call |
| ApplicationProperties.FailureStores | internal/controller/keylineapplication_controller.go:88-143 | which id a failed pass stores: the one it had, the one it found by name, or none after a 404 |
| ApplicationProperties.GoneAppPass | internal/controller/keylineapplication_controller.go:104-141 | with the stored application gone, a server that refuses duplicates makes the pass fail with the id cleared, ready for the next pass to adopt; another server creates a second one |
| ApplicationProperties.UnparsableIdRecoversIff | internal/controller/keylineapplication_controller.go:88-141 | an unparsable id is overcome exactly if the server accepts another application of the name, and is stuck otherwise |
| ApplicationProperties.SecondAppIff | internal/controller/keylineapplication_controller.go:88-141 | a second application of a name is created exactly if the server does not refuse it, the stored id leads nowhere, and, if it is empty, a full page precedes the first application |
| ApplicationRuns.CreationsBound | internal/controller/keylineapplication_controller.go:88-141 | over any run with failures, lost replies, lost writes and arbitrary third-party changes, creations of a name number at most one plus the times it became free plus the passes that started from a stored id that leads nowhere, one less if taken at the start; a refusing server has none of the latter |
| ApplicationRuns.DuplicatesPile | internal/controller/keylineapplication_controller.go:104-141 | such passes are not bounded: with the stored application gone, each pass whose reply and write are lost adds a duplicate on a lenient server |
| ApplicationProperties.StoredIdShape | internal/controller/keylineapplication_controller.go:88-143 | Ready implies a server id; ids are kept, cleared or server ids |
| AssignmentController.Sync | internal/controller/keylineroleassignment_controller.go:112-145 | the code, with its loop over the page, computes the specified membership and failure |
| AssignmentProperties.PassAddsAtMostItsPair | internal/controller/keylineroleassignment_controller.go:124-143 | a pass adds at most its own user to its own role and never removes anyone |
| AssignmentProperties.MembershipConfluence | internal/controller/keylineroleassignment_controller.go:124-145 | for any set of assignments, any order, any failures and any third-party changes of other pairs, once a declared pair had a clean pass it is a member, and an undeclared one is exactly if it was: the members are the initial and the declared ones |
| AssignmentProperties.AssignSucceedsAtMostOnce | internal/controller/keylineroleassignment_controller.go:138-143 | over any run with arbitrary third-party changes of the membership, Assign succeeds for a pair at most once more often than it is revoked, one less if it was assigned at the start, while its role fits a page |
| AssignmentProperties.ReadyIff | internal/controller/keylineroleassignment_controller.go:112-145 | the exact condition for a clean pass to end Ready, and for it to call Assign for someone who is already a member |
| AssignmentProperties.VerdictNamesTheCall | internal/controller/keylineroleassignment_controller.go:112-145 | in any world: without two server ids no call is made and the reason says which is missing; else success means that no call failed and the user has the role, and a failure names the kind of the last call |
| AssignmentProperties.AssignmentQuiescence | internal/controller/keylineroleassignment_controller.go:124-145 | once listed, later passes only read and send an empty status patch |
| VirtualServerController.BuildPatch | internal/controller/keylinevirtualserver_controller.go:67-95 | the field-by-field assembly computes the patch, and needsPatch is set exactly if the patch is not empty |
| VirtualServerController.Reconcile | internal/controller/keylinevirtualserver_controller.go:61-102 | one pass, gates included, leaves the specified remote state, status and stored document |
| VirtualServerProperties.CleanPass | internal/controller/keylinevirtualserver_controller.go:61-102 | a clean pass sets every declared field, keeps every other, and sends a patch exactly if a declared field differs |
| VirtualServerProperties.RoughPass | internal/controller/keylinevirtualserver_controller.go:61-102 | whatever fails, the server is as before or fully patched, and Ready means fully patched |
| VirtualServerProperties.PatchIsExact | internal/controller/keylinevirtualserver_controller.go:67-95 | the patch carries a field exactly if it is declared and differs, with the declared value |
| VirtualServerProperties.VerdictNamesTheCall | internal/controller/keylinevirtualserver_controller.go:61-102 | in any world success means that no call failed and the server has every declared value; a failure names the kind of the last call |
| VirtualServerProperties.PassesConfluent | internal/controller/keylinevirtualserver_controller.go:67-102 | for resources that agree pairwise on declared fields, whatever failed and in whatever order passes ran, once each had one clean pass the state is the initial one overlaid with everything declared, and satisfies all of them |
| VirtualServerProperties.OrderDoesNotMatter | internal/controller/keylinevirtualserver_controller.go:67-102 | any two such runs end in the same state |
| VirtualServerProperties.RunFolds | internal/controller/keylinevirtualserver_controller.go:61-102 | a run computes the fold of the passes that took effect, among them all clean ones |
| VirtualServerProperties.RestIff | internal/controller/keylinevirtualserver_controller.go:67-102 | two resources can both be at rest exactly if they agree on every field both declare |
| VirtualServerProperties.VirtualServerQuiescence | internal/controller/keylinevirtualserver_controller.go:61-102 | a second clean pass sends no patch and an empty status patch |
| ProjectController.Reconcile | internal/controller/keylineproject_controller.go:83-103 | one pass, gates included, leaves the specified remote state, status and stored document |
| ProjectProperties.PassCreatesOnly | internal/controller/keylineproject_controller.go:83-103 | no pass, whatever fails, touches an existing project or another slug |
| ProjectProperties.VerdictNamesTheCall | internal/controller/keylineproject_controller.go:83-103 | in any world success means that no call failed and the project exists, as declared if it is new; a failure names the kind of the last call |
| ProjectProperties.FirstProjectStays | internal/controller/keylineproject_controller.go:83-103 | over any run in which third parties leave a slug alone it keeps what it first held, which if new agrees with the spec of some resource of that slug; a clean pass guarantees it exists |
| ProjectProperties.AgreesIff | internal/controller/keylineproject_controller.go:83-103 | after a clean pass the project exists and agrees with the spec exactly if it was absent or agreed before; other projects are untouched |
| ProjectProperties.ProjectQuiescence | internal/controller/keylineproject_controller.go:83-103 | a later clean pass only reads and sends an empty status patch |
| ServerConfig.SameFileIff | internal/controller/keylineconfig.go:24-164 | with equal credentials two specs render the same file exactly if they agree, defaults written out, on everything but image, resources, storage, Secret names and the sections of modes not selected |
| ServerConfig.ConfigTellsCredentialsApart | internal/controller/keylineconfig.go:24-164 | two files from one spec are equal exactly if key pair and the credentials of the selected modes are |
| ServerConfig.BuildFailsIff | internal/controller/keylineconfig.go:24-164 | behind the checks of the pass, a nil section is dereferenced exactly outside the database-mode enum |
| InstanceController.KubeClient.EnsureCredentials | internal/controller/keylineinstance_controller.go:148-197 | reads or creates the credentials Secret as specified, also when the read was stale and the Create lost the race |
| InstanceController.KubeClient.EnsureDeployment | internal/controller/keylineinstance_controller.go:278-354 | creates or overwrites the Deployment so that image, container resources, annotation, claim and mount follow the spec |
| InstanceController.KubeClient.ResolveSecret | internal/controller/helpers.go:109-123 | returns the values of all keys in order, or an error if the Secret or any key is missing |
| InstanceController.Sync | internal/controller/keylineinstance_controller.go:63-143 | the code computes the specified cluster objects, write requests and outcome at every early exit |
| InstanceProperties.CredentialsAreStored | internal/controller/keylineinstance_controller.go:148-197 | the pass goes on only with the stored key pair, never with one that lost a Create race |
| InstanceProperties.PassKeepsConsistent | internal/controller/keylineinstance_controller.go:63-113 | from any cluster, any pass keeps stored credentials and claim; a config it writes embeds the stored public key and kid; and a completed Deployment step leaves such a config with the user, password and token of the named Secrets, every other entry as the spec says, image and resources of the spec, and annotation = hash of that config with claim and mount matching |
| InstanceProperties.PlannedIsBuilt | internal/controller/keylineconfig.go:24-164 | the file a pass sets out to deploy, in terms of the spec alone: both URLs and the origins, port, service user, virtual server, host, port, name and SSL mode of the database, address, mount and prefix of Vault, all defaults written out, and the store each mode selects |
| InstanceProperties.DoneIff | internal/controller/keylineinstance_controller.go:53-144 | in any world: an instance ends Ready exactly if its Deployment step completed, the Deployment was then read and is available, and the token exchange succeeded; no call of such a pass was refused; every other outcome names what failed and leaves the objects of the earlier steps in place |
| InstanceProperties.StatusFollows | internal/controller/keylineinstance_controller.go:63-144 | the status after a pass: the URL is set exactly once the Deployment step is done, the Ready condition has the value and reason of the outcome, and a nil dereference leaves the status alone |
| InstanceProperties.CleanOutcome | internal/controller/keylineinstance_controller.go:53-144 | with every call clean, the outcome in terms of the spec, the Secrets and the availability alone |
| InstanceProperties.CredentialsAndConfigAgreeForEver | internal/controller/keylineinstance_controller.go:63-113 | over every run from nothing, stopping and failing anywhere, with third parties editing anything but stored credentials and claims: at every point the config embeds the stored key pair unless a third party put that config in the place of another, and credentials and claim never change again |
| InstanceProperties.CleanPassSettles | internal/controller/keylineinstance_controller.go:53-144 | a clean pass leaves a cluster that depends on the past only through credentials and claim, and sends exactly the writes that some object needs |
| InstanceProperties.WhatSurvives | internal/controller/keylineinstance_controller.go:148-252 | the credentials after such a run are those of the start or a pair some pass generated, the claim that of the start or one some pass in directory mode wanted, or what third parties brought |
| InstanceProperties.InstanceReplay | internal/controller/keylineinstance_controller.go:53-144 | after any interrupted passes and such third-party edits a clean pass leaves no other trace of either |
| InstanceProperties.InstanceQuiescence | internal/controller/keylineinstance_controller.go:53-144 | a second clean pass with the same inputs changes no object, whatever key pair it would generate; it sends no write exactly if the API server adds no defaults, and else overwrites Service and Deployment once more |
| InstanceProperties.InstanceStatusQuiescence | internal/controller/keylineinstance_controller.go:114-144 | and while the Deployment is as available as before, its status patch is empty |
| InstanceProperties.RolloutIff | internal/controller/keylineinstance_controller.go:278-354 | with a collision-free hash the pod template changes exactly if config, image or container resources do |
| ReadinessController.CheckGates | internal/controller/keylineroleassignment_controller.go:47-110 | the checks of each kind, in their order, give the reason the readiness model gives |
| ReadinessProperties.GateOpensIff | internal/controller/keylineroleassignment_controller.go:47-110 | the gates open exactly if everything on the chain of references is visible and Ready, where only a virtual server needs its instance Ready and an assignment looks at its user but not at the user's virtual server |
| ReadinessProperties.GateIsFirstObstacle | internal/controller/keylineroleassignment_controller.go:47-110 | a closed gate gives the reason of the first obstacle in the order of the reads: role, user, then the chain of the role, or the chain of the one reference; missing before not Ready, and the credentials Secret last |
| ReadinessProperties.BlockedSaysWhy | internal/controller/keylineroleassignment_controller.go:47-145 | a pass behind a closed gate reports not Ready with that reason and leaves id and managed keys alone; an unblocked one reports what its remote part did |
| SmoothPasses.SmoothReports | internal/controller/keylineroleassignment_controller.go:112-145 | if every call of a pass succeeds its reconciler reports Ready, the assignment reconciler exactly if both ids are server ids |
| ReadinessProperties.ReadyNeedsParents | internal/controller/keylineroleassignment_controller.go:47-110 | a pass that ends Ready found everything it refers to Ready |
| ReadinessProperties.ReadinessFollowsDependencies | internal/controller/keylineproject_controller.go:57-81 | over every run from nothing Ready, with failed reads and lost writes, no resource becomes Ready before each of its ancestors has been |
| ReadinessProperties.InvalidIdExitsUnreachable | internal/controller/keylineroleassignment_controller.go:112-120 | over every run from new resources with any remote behaviour, an assignment behind its gates finds two server ids, so these exits are never taken |
| ReadinessModel.OutcomesAreWritten | internal/controller/keylineroleassignment_controller.go:112-145 | the outcomes of the readiness runs are those of the passes of each kind, and the status concluded is the one that reconciler writes, an instance's URL included |
| ReadinessProperties.FiveRoundsSuffice | internal/controller/keylinevirtualserver_controller.go:43-59 | with every call succeeding, all references resolving and no damaged id at the start, a resource of depth n is Ready after n+1 rounds in any order, so five rounds suffice for any number of resources |
| ReadinessProperties.SmoothRoundsExist | internal/controller/keylinevirtualserver_controller.go:43-59 | such rounds exist from every cluster, new resources included, in any given orders |

## Left out

- HTTP transport, token exchange and the Keyline client: they appear as server operations with a reply and a fault.
- Caches, work queue, watches, leader election, owner references and finalisation by garbage collection: the framework's.
- Ed25519, PEM and PKCS encoding, SHA-256 and YAML text: key material is a parameter, the config file is a record, the hash is
  a function, assumed free of collisions only in `RolloutIff`.
- The text format of UUIDs, and the wording of error messages.
- Constant entries of the config file and of the Deployment (ports, labels, config volume, container arguments) and the Service's spec.
- How a Deployment rolls out, and how Kubernetes judges it available: `available` is a parameter.
- Defaults and validation by the resource definitions, except the enums where `BuildFailsIff` needs them.
- `observedGeneration` and the namespace: one namespace is modelled.
- Third-party edits in the middle of a pass of kinds other than users.
- Third-party edits in the runs of virtual servers (`PassesConfluent`, `OrderDoesNotMatter`) and in `RunNeverRises` and
  `RunDistance`: those hold from any state, so from the last such edit on.
- Deleted or re-created resources in the readiness runs, and edited references: the set of resources and their references
  are fixed there.
- Who owns a key that somebody overwrote under a kid the operator has outstanding: the kid counts as the operator's.
- Deletion of the account a status names in `NeverRemovesForeignKeys`; `ForeignKeyLossIff` gives what happens then.
- Logging, metrics, command-line flags, charts and manifests.
