# Agent controller: model and proofs

The bedrockagent controller keeps an Amazon Bedrock agent in step with a Kubernetes `Agent` resource. This project models
the Agent resource manager of that controller in Dafny 4.11 and proves what it promises: how it reads an agent, finds
drift, and drives a fixed sequence of remote writes.

`dafny verify dfyconfig.toml` checks everything.

| file | content |
|---|---|
| `Api.dfy` | the Agent resource as values: a Go pointer is an `Option`, a slice an optional sequence, a map an optional map |
| `Codec.dfy` | the SDK shapes, encoding a spec into a payload and decoding a response: exact failures, round trips, normal form |
| `Wire.dfy` | payloads and responses as relations between named fields, the checks on numbers in their order, and that `Codec` computes exactly these |
| `Payloads.dfy` | the create payload builder and the response decoder, field by field and loop by loop, against `Codec` |
| `UpdatePayloads.dfy` | the update payload builder, a text of its own, and its agreement with the create payload builder |
| `Remote.dfy` | the AWS service as a world of agents and tags with a log of calls, each of which may fail |
| `Tags.dfy` | tag conversion, mirroring, filtering, merging and remote synchronisation |
| `Delta.dfy` | the drift detector and the equivalence that it decides |
| `DeltaFields.dfy` | one iff per path of the delta between being reported and the named fields, and the order of the paths |
| `DeltaNames.dfy` | the dotted names of the paths, and what the questions that are asked of a delta mean |
| `Conditions.dfy` | the condition state machine over whole histories |
| `Resources.dfy` | the resource object with pointers to its conditions, status defaults and `updateConditions` |
| `Agreement.dfy` | exactly which specs the drift detector cannot tell from what their payload is read back as |
| `DeepCopy.dfy` | the generated copy functions on Go objects: pointers, slices and the prompt override |
| `DeepCopySpec.dfy` | the generated copy functions of the spec and its other parts |
| `DeepCopyAgent.dfy` | the generated copy functions of the status and the agent |
| `Manager.dfy` | `sdkFind`, `sdkCreate`, `sdkUpdate`, `ReadOne`, `Create`, `Update`, the tag methods, and the calls an update makes |
| `Answers.dfy` | what the operations of the manager return, field by field next to the agent of the service, their calls and their errors |
| `LateInit.dfy` | late initialization |
| `Reconcile.dfy` | rounds and runs of reconciliation, no nil dereference, at most one creation |
| `RoundStatus.dfy` | the status that a round leaves in the resource |
| `Convergence.dfy` | what is left to do, the measure that each write decreases, the budget of each kind of write |
| `Runs.dfy` | what a round does, and bounded writes over all runs |
| `Settling.dfy` | which agents settle in a run, exactly, and what happens to the others |
| `References.dfy` | resolving and clearing the IAM role reference |
| `ManagerCache.dfy` | the locked cache of resource managers under every interleaving |

Code that changes state is modelled by methods (on classes where it changes an object), each proved equal to a function of
the old state. The theorems are about those functions. What each function computes is also said without it, field by
field, key by key and path by path, with all codes, texts and limits written out (`Answers`, `Wire`, `DeltaFields`,
`RoundStatus` and the lemmas on single keys and conditions in `Tags` and `Conditions`).

## Assumptions

- The remote service: a call that fails has no effect; `CreateAgent` stores the fields and tags under a new id and ARN
  with status `NOT_PREPARED`; `UpdateAgent` replaces the fields and sets `NOT_PREPARED`; `PrepareAgent` sets `PREPARED` at
  once; nobody else writes. Which calls fail, and with what error, is arbitrary, except that a call never fails with one
  of the controller's own errors. Where a theorem about runs assumes that no agent is denied
  (`Reconcile.IsNeverDenied`), only a `GetAgent` that fails with the not-found code for an agent that exists is
  excluded; every other call may fail with any error, also with that one.
- `float32(x)` on finite numbers is a rounding of the reals: monotone, idempotent, exact at zero and at the smallest and
  largest float32. A NaN does not occur.
- `SliceStringPEqual` is an equivalence that never relates lists of different lengths. It is given by a function from a
  list to its class, `SliceKey`.
- `HasNilDifference` is true iff exactly one side is nil, `GetTagsDifference` is as pinned by
  `pkg/resource/tags/sync_test.go`, the left operand of `acktags.Merge` wins, `DifferentAt` and `DifferentExcept` compare
  path segments, and the setters of `ackcondition` overwrite the first condition of a type or append one.
- The reconciler reads first, creates after NotFound, otherwise updates if there is a delta; it keeps the status it is
  given and leaves the user's spec alone.

## Where the code and its comments differ

The model follows the code.

- `pkg/resource/agent/hooks.go:58` says that an unset desired prompt override gives no delta; lines 65-66 add one
  exactly when the agent has an override: `Delta.PromptOverrideReportedIff`, `Delta.UnsetOverrideIsReported`.
- `pkg/resource/agent/references.go:54-55` promises a copy; lines 64 and 118 write into the resource that is given
  (`References.ResolveReferences` returns that very object). When it stays as it is: `References.ResolveKeepsResourceIff`.
- A terminal error leaves a Recoverable condition True (`pkg/resource/agent/sdk.go:1310-1325`):
  `Conditions.BothAreTrueIff`.
- `ManagerFor` (`pkg/resource/agent/manager_factory.go:69-79`) does not look again under the write lock:
  `ManagerCache.TwoManagersForOneKey`, `ManagerCache.LaterCallsAgreeIff`.
- The controller is meant to come to rest, but an agent whose spec the service cannot give back is updated in every
  round, for instance one with a temperature of 0.7 in a prompt that is not in DEFAULT mode:
  `Settling.SettlesIff`, `Settling.CreatedAgentIsUpdatedForEver`, `Agreement.SevenTenthsDoesNotSurvive`.
- The comparison takes the creation mode of every prompt for granted (`pkg/resource/agent/hooks.go:78` and line 85),
  but a mode that is present and "" is accepted, stored, read back as nil and dereferenced in the next round:
  `Reconcile.CreatedAgentIsComparableIff`. The theorems about rounds and runs are about specs in which every creation mode
  is present and not "" (`ModesSet`, a part of `Reconcile.Ready`).
- A Terminal condition that is True and not the last of its type makes `onError` return Terminal for every error
  (`pkg/resource/agent/manager.go:411-420`), so that the reconciler never creates: `Conditions.StaysBlocked`,
  `Reconcile.RoundCreatesIff`.

## Model

| member | source | states |
|---|---|---|
| Settling.SettlesIff | pkg/resource/agent/sdk.go:779-1045 | in every run in which GetAgent never denies the agent, from two rounds after the last failure on: the read succeeds, the delta is empty and IsSynced is true iff the start can settle; for an agent not created yet iff no hidden Terminal condition blocks it, its numbers fit and its spec survives being sent |
| Settling.Converges | pkg/resource/agent/sdk.go:779-1045 | a state that can settle, whatever failed before and also after denials, is settled from two rounds without failures on, for good |
| Settling.NeverSettles | pkg/resource/agent/hooks.go:60-98 | from a start that cannot settle no state of the run is settled, with or without failures |
| Settling.UpdatesForEver | pkg/resource/agent/sdk.go:814-825 | with an accepted spec that does not survive being sent, every round without failures makes exactly one more UpdateAgent succeed, without end |
| Settling.CreatedAgentIsUpdatedForEver | pkg/resource/agent/sdk.go:814-825 | in particular after the creation of such an agent: j rounds make j - 1 updates |
| Settling.ExampleUpdatesForEver | pkg/resource/agent/hooks.go:90-96 | its hypotheses can be met: an agent with one compared prompt with a temperature of 0.7 is updated in every round after its creation |
| Settling.UpdatesAreTameIff | pkg/resource/agent/sdk.go:814-825 | the exact condition for bounded updates, for every ready start: updates are tame iff in no run from it in which GetAgent never denies the agent, whatever fails, a second UpdateAgent succeeds |
| Settling.RunKeepsSettling | pkg/resource/agent/manager.go:97-167 | no round changes whether the agent can settle |
| Agreement.PayloadAgreesIff | pkg/resource/agent/sdk.go:1049-1226 | for every accepted spec the detector finds no difference to what the payload is read back as iff present enums are not empty, executors have a Lambda, and every prompt that is not in DEFAULT mode has enums that are not empty, no nil stop sequence and float32 values |
| Agreement.SentPromptsSurviveIff | pkg/resource/agent/sdk.go:1161-1215 | the same for a prompt list of any length: exactly the DEFAULT prompts are dropped on both sides and the rest is compared position by position |
| Agreement.SevenTenthsDoesNotSurvive | pkg/resource/agent/sdk.go:1180-1187 | a temperature of 0.7 is no binary fraction, so no rounding to float32 gives it back |
| Agreement.CoarseIsARounding | pkg/resource/agent/sdk.go:1180-1187 | the assumptions on rounding to float32 can be met together |
| Agreement.NormalFormSurvives | pkg/resource/agent/sdk.go:1049-1226 | a spec in normal form is accepted and survives |
| Runs.WritesAreBounded | pkg/resource/agent/sdk.go:792-825 | in every run in which GetAgent never denies the agent, whatever else fails and with what error, at most one CreateAgent, UpdateAgent, UntagResource and TagResource and two PrepareAgent calls succeed, if the spec is refused, does not differ or survives being sent (UpdatesAreTame) |
| Runs.AwsTagsStay | pkg/resource/agent/manager.go:106-107 | in every run in which GetAgent never denies the agent, whatever else fails, every `aws:` tag that the agent has keeps its value for good |
| Settling.ExampleSettles | pkg/resource/agent/manager.go:97-167 | the hypotheses can be met together: an agent that does not exist yet is settled after two rounds |
| Runs.RoundShrinks | pkg/resource/agent/sdk.go:779-825 | every write of a round that succeeds strictly decreases the lexicographic measure (spec differs, tag distance, not PREPARED), and no budget is overdrawn, if an update that is left is the last one |
| Runs.RoundPursues | pkg/resource/agent/manager.go:97-167 | a round that is not denied by GetAgent never loses the agent and, if an update that is left is the last one, never spends more than is budgeted, whatever fails |
| Runs.RoundDoesWhatIsLeft | pkg/resource/agent/sdk.go:792-825 | after a successful read a round makes exactly the writes that are left, up to the first failure |
| Runs.UncreatedRound | pkg/resource/agent/sdk.go:342-365 | a round for an agent that does not exist makes no write but the creation, after which the preparation is left and the spec differs iff it does not survive |
| Settling.SettledIff | pkg/resource/agent/manager.go:276-292 | without failures: empty delta and IsSynced iff nothing is left to do and the spec does not differ |
| Settling.RunKeepsUnique | pkg/resource/agent/sdk.go:1286-1351 | a run never produces a second Terminal or Recoverable condition |
| Settling.UniqueStartCanSettleIff | pkg/resource/agent/sdk.go:1286-1351 | with unique conditions an agent that does not exist yet can settle iff its numbers fit and its spec survives |
| Conditions.UniqueIsNotBlocked | pkg/resource/agent/sdk.go:1295-1308 | unique conditions hide no Terminal condition |
| Convergence.UsefulWriteShrinks | pkg/resource/tags/sync.go:65-116 | each useful write that succeeds strictly decreases the measure and uses up a budget, if an update that is left is the last one |
| Convergence.UpdateDoesWhatIsLeft | pkg/resource/agent/sdk.go:792-825 | the calls an update plans are exactly Prepare, Untag, Tag and Update restricted to what is left to do |
| Convergence.DeltaAnswers | pkg/resource/agent/delta.go:34-185 | after a read: the virtual status path iff not PREPARED, the tags path iff the remote tags are not the target, another path iff the remote spec differs |
| Convergence.RemainingCompletes | pkg/resource/agent/sdk.go:792-825 | when none of the remaining calls fails, spec and tags are as desired and the agent is unprepared only if its spec was updated |
| Convergence.StoredSpecAgrees | pkg/resource/agent/sdk.go:1049-1226 | a spec in normal form that has been stored reads back as itself, so nothing differs |
| Convergence.SpecDiffersIff | pkg/resource/agent/delta.go:34-185 | something differs iff the remote spec and the desired one have different canonical forms |
| Convergence.StoredSpecDiffersIff | pkg/resource/agent/sdk.go:1049-1226 | a spec that has been stored still differs iff it does not survive being sent |
| Convergence.UpdateEffect | pkg/resource/agent/sdk.go:814-825 | after a successful update the agent is to be prepared, and its spec still differs iff it does not survive |
| Convergence.EmptyEnumNeverAgrees | pkg/resource/agent/sdk.go:103-107 | an enum that is compared, present and empty, be it the collaboration, the orchestration type or one of a prompt that is not in DEFAULT mode, differs from every remote agent, also from one that is not stored from this spec |
| Reconcile.AtMostOneCreation | pkg/resource/agent/sdk.go:342-383 | over any stretch of any run in which GetAgent never denies the agent, whatever else fails and with what error, CreateAgent succeeds at most once, exactly when an AgentID is learnt, and a known AgentID never changes |
| Reconcile.RoundCreatesIff | pkg/resource/agent/sdk.go:80-88 | a round creates an agent iff it is unknown or denied, no hidden Terminal condition blocks it, its numbers fit and CreateAgent does not fail; so a second creation comes exactly from a denial |
| Reconcile.DeniedIff | pkg/resource/agent/sdk.go:80-88 | a known agent is denied iff its GetAgent fails with the not-found code |
| Reconcile.NotFoundIff | pkg/resource/agent/sdk.go:58-91 | a read ends in NotFound iff there is no AgentID or GetAgent denies it: no failure of another call does that |
| Reconcile.RoundStaysReady | pkg/resource/agent/sdk.go:792-814 | a round never reaches a state in which the code dereferences a nil ID, ARN, list element or creation mode |
| Reconcile.ReadIsSafe | pkg/resource/agent/hooks.go:76-88 | in such a state the comparison and the update after a read dereference no nil |
| Reconcile.EncodedModesIff | pkg/resource/agent/sdk.go:1209-1211 | of an accepted spec every creation mode is sent with a value iff every one is present and not "" |
| Reconcile.CreatedAgentIsComparableIff | pkg/resource/agent/hooks.go:76-88 | a created agent is read back with the creation modes that the comparison dereferences iff every one in the spec is present and not "" |
| RoundStatus.AfterRead | pkg/resource/agent/sdk.go:792-1044 | the status after a round with a successful read: the agent as it was read if nothing differed or an update failed, the agent as it is now if its fields were updated, and still the old status if no more than status and tags differed |
| RoundStatus.AfterNotFound | pkg/resource/agent/sdk.go:342-594 | after a creation the status shows the agent that was made; a creation that fails leaves id, status and details |
| RoundStatus.AfterFailedRead | pkg/resource/agent/manager.go:97-115 | a read that fails leaves id, status and details |
| RoundStatus.DeniedIffWrapped | pkg/resource/agent/sdk.go:80-84 | a known agent is denied iff GetAgent fails with an error that wraps, any number of times, a ResourceNotFoundException |
| Reconcile.RunRound | pkg/resource/agent/manager.go:97-167 | ReadOne, Create, the delta and Update, run in the reconciler's order on the resource objects, have the world and the status of a round as their result |
| Reconcile.CompareAndUpdate | pkg/resource/agent/manager.go:147-167 | the desired resource that ReadOne mirrored tags into is the one compared and updated; no call without a delta |
| Reconcile.RunsGoOn | pkg/resource/agent/manager.go:97-167 | from a ready state there are runs of every length |
| Manager.SdkFind | pkg/resource/agent/sdk.go:58-316 | a nil AgentID or a ResourceNotFoundException is NotFound; otherwise a fresh copy holds the decoded agent, its defaults and its tags |
| Manager.WhatIsFound | pkg/resource/agent/sdk.go:93-316 | a found agent has the decoded remote fields, the remote tags, the remote id and status and a known ARN, and reading changes nothing remote |
| Answers.FoundAnswer | pkg/resource/agent/sdk.go:89-313 | a successful read returns, field by field, the agent that the service has under the id, with the tags under its ARN |
| Answers.FindSteps | pkg/resource/agent/sdk.go:64-88 | its calls in the log, and its error: NotFound without an id or for a ResourceNotFoundException wrapped any number of times, otherwise the error itself |
| Answers.CreatedAnswer | pkg/resource/agent/sdk.go:352-594 | a successful creation has sent every field of the spec and returns, field by field, the agent that the service has made |
| Answers.CreatedTag | pkg/resource/agent/sdk.go:770-772 | key by key, the tags of the new agent are those of the spec, nil values as "" |
| Answers.CreateSteps | pkg/resource/agent/sdk.go:351-361 | a refused spec makes no call and names its first number that does not fit; otherwise there is one CreateAgent with the fields of the spec, and its error is returned |
| Answers.UpdatedAnswer | pkg/resource/agent/sdk.go:814-1044 | a successful update of the fields has sent every field of the spec and returns, field by field, the agent that the service has afterwards |
| Answers.NothingElseIsUpdated | pkg/resource/agent/sdk.go:810-812 | without a path other than the status and the tags the desired resource is returned |
| Answers.PlannedCall | pkg/resource/agent/sdk.go:792-822 | each call of an update: Prepare and Update for the desired AgentID, the tag calls for the ARN of the latest resource, with exactly the keys and fields to send |
| Answers.PlannedIff | pkg/resource/agent/sdk.go:792-822 | each call is planned iff the delta has its path and there is a key, or an acceptable spec, to send |
| Answers.UpdateRefusal | pkg/resource/agent/sdk.go:814-817 | when no call fails, an update fails only for the first number that does not fit |
| Answers.ReadAndCreateConclude | pkg/resource/agent/manager.go:97-145 | an error is recorded on the resource that was given, a success on the answer, and nothing but conditions and defaults changes |
| Answers.UpdateConcludes | pkg/resource/agent/manager.go:147-170 | the same for Update, which records an error on the latest resource |
| Answers.MirroredInput | pkg/resource/agent/manager.go:97-115 | key by key, what a read writes into the resource it is given: the `aws:` tags that it found, and nothing else |
| Answers.IsPreparedIff | pkg/resource/agent/manager.go:286-289 | only "PREPARED" is synced |
| Manager.MergeIntoCopy | pkg/resource/agent/sdk.go:90-310 | the response is merged into a fresh copy and the resource that was given stays as it is |
| Manager.SdkCreate | pkg/resource/agent/sdk.go:342-594 | a refused payload makes no call; otherwise one CreateAgent and a fresh copy of what it answered |
| Manager.SdkUpdate | pkg/resource/agent/sdk.go:779-1045 | the world and result of the update, with the desired resource itself returned when only status and tags differ |
| Manager.PrepareAndSyncTags | pkg/resource/agent/sdk.go:792-808 | Prepare and the tag calls run in order and stop at the first failure |
| Manager.Prepare | pkg/resource/agent/hooks.go:25-44 | one PrepareAgent call |
| Manager.SyncTags | pkg/resource/agent/hooks.go:109-122 | the tag plan for the ARN of the latest resource |
| Manager.UpdateTrace | pkg/resource/agent/sdk.go:792-825 | for every delta and failure point the calls are a prefix of the plan that ends with the first failure, and the result is an error iff a call failed or a needed payload was refused |
| Manager.PlanIsInOrder | pkg/resource/agent/sdk.go:792-825 | at most one call of each kind, in the order Prepare, Untag, Tag, Update |
| Manager.RefusedSpecIsNotSent | pkg/resource/agent/sdk.go:814-817 | a spec the builder refuses is never sent, neither by a creation nor by an update |
| Manager.ReadOne | pkg/resource/agent/manager.go:97-115 | the read, the `aws:` tags mirrored into the resource that was given, and the conditions of the result |
| Manager.Create | pkg/resource/agent/manager.go:120-137 | the creation with its conditions, an error recorded on a copy of the given resource |
| Manager.Update | pkg/resource/agent/manager.go:147-167 | the update with its conditions, an error recorded on a copy of the latest resource; the desired resource itself iff no more than the status and the tags differ and it has none of the three conditions |
| Manager.OnError | pkg/resource/agent/manager.go:403-423 | the conditions after the error, and Terminal as the error iff a Terminal condition is then True |
| Manager.OnSuccess | pkg/resource/agent/manager.go:427-438 | the conditions after a success; the given resource itself if nothing is updated |
| Manager.OnlyConditionsChange | pkg/resource/agent/manager.go:403-438 | onError and onSuccess change nothing but conditions and defaults |
| Manager.IsSynced | pkg/resource/agent/manager.go:276-292 | true iff the status is PREPARED |
| Manager.MirrorAWSTags | pkg/resource/agent/manager.go:362-374 | the `aws:` tags of the latest resource are in the desired one, which is written in place |
| Manager.EnsureTags | pkg/resource/agent/manager.go:301-318 | default tags are added in place and own values win |
| Manager.FilterSystemTags | pkg/resource/agent/manager.go:339-349 | `aws:` and system tags are removed in place |
| LateInit.LateInitialize | pkg/resource/agent/manager.go:211-247 | only the remote log changes: the given resource is untouched |
| LateInit.LateInitFrame | pkg/resource/agent/manager.go:211-273 | the spec differs only by a nil prompt override filled from the observed agent and by mirrored tags; requeue iff it is still nil |
| LateInit.LateInitIsIdempotent | pkg/resource/agent/manager.go:211-273 | repeating it against the same remote state changes no field of the spec |
| LateInit.LateInitConditions | pkg/resource/agent/manager.go:224-246 | LateInitialized is True iff nothing is left to do, otherwise the resource is marked as not synced |
| LateInit.ConditionsSet | pkg/resource/agent/manager.go:227-246 | which conditions are set in the three cases, with status, message and reason |
| LateInit.SetFirstByIndex | pkg/resource/agent/manager.go:230-231 | setting a condition overwrites the first of its type or appends one, and keeps all others |
| LateInit.FillFromObserved | pkg/resource/agent/manager.go:263-273 | a fresh copy in which a user's value is never replaced |
| Codec.AcceptedIffAllNumbersFit | pkg/resource/agent/sdk.go:651-767 | a payload is refused iff some number anywhere in the spec is outside its 32-bit range |
| Wire.SentIff | pkg/resource/agent/sdk.go:599-775 | an accepted spec has exactly the payload whose fields, at any depth, are those of the spec: nil enums as "", an executor only with a Lambda, floats rounded |
| Wire.ReadIff | pkg/resource/agent/sdk.go:97-305 | a response is read as exactly the spec whose fields, at any depth, are those of the response: empty enums as nil, role reference and tags as before |
| Wire.FirstRefusal | pkg/resource/agent/sdk.go:651-749 | a spec is refused iff some number does not fit, with the error of the first one in the order of the builder, over a prompt list of any length |
| Agreement.FloatLimits | pkg/resource/agent/sdk.go:728 | the limits of the checks are (2^24 - 1) 2^104 and 2^-149 |
| Codec.RoundTripIffFaithful | pkg/resource/agent/sdk.go:97-305 | decoding an echoed payload gives back the spec iff present enums are non-empty, executors have a Lambda, stop sequences have no nil and floats are float32 values |
| Codec.EncodeDecodeEncode | pkg/resource/agent/sdk.go:1049-1226 | for every accepted spec encoding, decoding and encoding again gives the same payload |
| Codec.IntegersWidenBack | pkg/resource/agent/sdk.go:172-255 | every integer of an accepted spec survives narrowing and widening |
| Codec.PromptsAcceptedIff | pkg/resource/agent/sdk.go:698-767 | a prompt list of any length is accepted iff all its numbers fit |
| UpdatePayloads.BuildBoth | pkg/resource/agent/sdk.go:1049-1226 | the two builders, each run on the resource: both succeed iff all numbers fit, with the same fields, and otherwise both return the same error; only the update names the agent |
| Payloads.AcceptedPayloadsIff | pkg/resource/agent/sdk.go:599-775 | both payloads exist iff all numbers of the spec fit |
| Payloads.NewCreateRequestPayload | pkg/resource/agent/sdk.go:599-775 | the create payload with its tags, or the first number that does not fit |
| UpdatePayloads.NewUpdateRequestPayload | pkg/resource/agent/sdk.go:1049-1226 | the update payload with the AgentID, or the first number that does not fit |
| UpdatePayloads.BuildPrompts | pkg/resource/agent/sdk.go:1161-1215 | its loop over the prompts encodes each and stops at the first that does not fit |
| Payloads.BuildPrompts | pkg/resource/agent/sdk.go:698-767 | the loop over the prompts encodes each and stops at the first that does not fit |
| Payloads.BuildMemory | pkg/resource/agent/sdk.go:662-695 | the memory configuration, its list of types built in a loop |
| Payloads.ReadPrompts | pkg/resource/agent/sdk.go:240-290 | the loop over the returned prompts decodes each of them |
| Payloads.SetFromResponse | pkg/resource/agent/sdk.go:94-305 | the assignments from a response: a missing ARN keeps the old one, everything else is replaced, conditions, role reference and tags stay |
| Delta.NewResourceDelta | pkg/resource/agent/delta.go:34-185 | the delta is the sequence of the differing paths in the detector's order |
| Delta.DeltaIsExact | pkg/resource/agent/delta.go:34-185 | a path is reported iff both resources have its parent and differ there |
| DeltaFields.NamePaths | pkg/resource/agent/delta.go:50-63 | the collaboration and name paths are reported iff these fields differ |
| DeltaFields.RolePaths | pkg/resource/agent/delta.go:64-73 | the same for role ARN and role reference |
| DeltaFields.ModelPaths | pkg/resource/agent/delta.go:89-109 | the same for encryption key, description and foundation model |
| DeltaFields.SessionPaths | pkg/resource/agent/delta.go:128-177 | the same for idle session TTL, instruction and orchestration type |
| DeltaFields.GuardrailPaths | pkg/resource/agent/delta.go:110-127 | the guardrail is reported iff one side alone has one, identifier and version iff both have one and these differ |
| DeltaFields.OrchestrationPaths | pkg/resource/agent/delta.go:74-88 | the same for orchestration, executor and Lambda, each below the one before |
| DeltaFields.MemoryPaths | pkg/resource/agent/delta.go:142-170 | the same for the memory configuration and its storage days |
| DeltaFields.MemoryTypesPath | pkg/resource/agent/delta.go:145-151 | memory types are reported iff both sides have a memory configuration and the lists, nil as empty, are not equal |
| DeltaFields.SessionSummaryPaths | pkg/resource/agent/delta.go:152-162 | the same for the session summary and its number of sessions |
| DeltaFields.PromptPaths | pkg/resource/agent/hooks.go:60-98 | the same for the override, its Lambda, and its prompts that are neither nil nor in the mode "DEFAULT" |
| DeltaFields.LiveAreCompared | pkg/resource/agent/hooks.go:76-88 | the filter loop keeps exactly these prompts, in order |
| DeltaFields.TagsPath | pkg/resource/agent/delta.go:178-182 | the tags are reported iff some key is on one side only or has different values, nil as "" |
| DeltaFields.OtherPaths | pkg/resource/agent/delta.go:39-46 | the virtual status path iff the latest status is present and not "PREPARED"; with one resource missing only the path "" |
| DeltaFields.DeltaIsInOrder | pkg/resource/agent/delta.go:34-185 | paths are reported in the order of the source, the status first |
| DeltaNames.IsWithinIff | pkg/resource/agent/delta.go:77-85 | a path is within another iff the segments of its dotted name begin with those of the other |
| DeltaNames.QuestionsIff | pkg/resource/agent/sdk.go:792-810 | the questions of sdkUpdate: whether the status path, the tags path or any other path is in the delta |
| Delta.DeltaIsEmptyIffEquivalent | pkg/resource/agent/delta.go:34-185 | no path but the virtual status iff the two specs have the same canonical form |
| Delta.AgreeIffSameCanonical | pkg/resource/agent/delta.go:34-185 | the detector decides one equivalence relation, equality of canonical forms |
| Delta.NoPathIsReportedTwice | pkg/resource/agent/delta.go:34-185 | reported paths have no duplicates |
| Delta.NoPathIsWithinAnother | pkg/resource/agent/delta.go:74-90 | no reported path is below another one |
| Delta.DeltaIsSymmetric | pkg/resource/agent/delta.go:34-185 | swapping the resources reports the same paths apart from the virtual status path, and with equal statuses the same sequence |
| Delta.PromptOverrideReportedIff | pkg/resource/agent/hooks.go:60-66 | the prompt override is reported iff exactly one side has one; with an unset desired override a prompt path is reported iff the agent has an override |
| Delta.UnsetOverrideIsReported | pkg/resource/agent/hooks.go:57-66 | an agent with an empty override that nobody asked for gives a delta |
| Delta.TagsReportedIffSynced | pkg/resource/agent/delta.go:178-182 | the tags are reported iff synchronising the same two maps makes at least one call |
| Delta.ComparePromptOverride | pkg/resource/agent/hooks.go:60-98 | the three prompt paths, with nil and DEFAULT prompts dropped by loops |
| Delta.PaddingKeepsDelta | pkg/resource/agent/hooks.go:76-96 | inserting or removing nil and DEFAULT prompts anywhere on either side never changes the delta |
| Delta.PromptsReportedIff | pkg/resource/agent/hooks.go:90-96 | the prompt list is reported iff no one list of prompts has both lists as paddings |
| Delta.CompareStatus | pkg/resource/agent/hooks.go:48-55 | a status that is present and not PREPARED is reported as the virtual status path |
| Delta.CompareMemory | pkg/resource/agent/delta.go:142-170 | the memory paths, with nil and empty type lists alike |
| Tags.SyncResourceTags | pkg/resource/tags/sync.go:65-116 | the world and error of running the tag plan up to its first failure |
| Tags.SyncReachesTarget | pkg/resource/tags/sync.go:65-116 | success leaves exactly the desired tags; a failure leaves no key wrong that was right; nothing else changes |
| Tags.RetryCompletes | pkg/resource/tags/sync.go:38-116 | reading again and retrying without failure completes the job |
| Tags.SendsExactlyTheDifference | pkg/resource/tags/sync.go:80-113 | a key is in a call iff the maps differ on it, and in at most one call |
| Tags.NoCallsIffSameTags | pkg/resource/tags/sync.go:84-86 | no call is made iff the maps are equal up to nil values |
| Tags.AwsTagsAreProtected | pkg/resource/agent/manager.go:106-107 | after mirroring, an `aws:` tag that exists remotely is in no call and keeps its value, whatever fails |
| Tags.GetResourceTags | pkg/resource/tags/sync.go:38-61 | the remote tags of the ARN, or the error |
| Tags.ToACKTags | pkg/resource/tags/sync.go:120-130 | a nil map is empty and a nil value is "" |
| Tags.ConvertToOrderedACKTags | pkg/resource/agent/tags.go:36-52 | the same conversion as ToACKTags, by a loop of its own |
| Tags.FromACKTags | pkg/resource/agent/tags.go:58-67 | every value becomes a pointer |
| Tags.IgnoreSystemTags | pkg/resource/agent/tags.go:74-81 | in place, exactly the keys that are neither `aws:` nor system keys stay |
| Tags.SyncAWSTags | pkg/resource/agent/tags.go:102-108 | in place, exactly the `aws:` keys of the other map are copied |
| Tags.FilterAbsorbsMirror | pkg/resource/agent/manager.go:339-374 | filtering after mirroring is filtering alone |
| Tags.FilteredKey | pkg/resource/agent/manager.go:339-349 | a key stays iff it is there, does not begin with "aws:" and is no system key, and its value stays, nil as "" |
| Tags.MirroredKey | pkg/resource/agent/manager.go:362-374 | a key that begins with "aws:" and is in the latest tags gets the latest value; every other key stays as desired |
| Tags.EnsuredKey | pkg/resource/agent/manager.go:301-320 | own keys stay with their values, and default keys that are missing are added with theirs |
| Tags.CallByKey | pkg/resource/tags/sync.go:80-113 | the calls of a synchronisation are for the ARN, remove exactly the keys that are not desired, and set exactly those that are missing or different, to the desired value |
| Tags.CallsAreMadeIff | pkg/resource/tags/sync.go:84-113 | each of the two calls is made iff a key needs it, UntagResource first |
| Tags.FilterAbsorbsEnsureIff | pkg/resource/agent/manager.go:301-349 | filtering after ensuring is filtering alone iff every default key was there, is an `aws:` key or is a system key |
| Tags.FilterAndEnsureAreIdempotent | pkg/resource/agent/manager.go:301-349 | filtering twice and ensuring twice change nothing more |
| Tags.EnsureKeepsValues | pkg/resource/agent/manager.go:293-298 | ensuring adds the missing default keys and never changes a value |
| Conditions.HistoryEffect | pkg/resource/agent/manager.go:403-438 | after any history Terminal is True iff the last event was a terminal error, Recoverable is decided by the last other event, both stay unique and all other conditions stay in order |
| Conditions.StepEffect | pkg/resource/agent/sdk.go:1286-1351 | the same for one event |
| Conditions.TerminalErrorByIndex | pkg/resource/agent/sdk.go:1310-1325 | for any list of conditions: a terminal error makes the last Terminal condition True with its text, or appends one, and keeps every other condition and every reason |
| Conditions.OtherErrorByIndex | pkg/resource/agent/sdk.go:1326-1344 | any other error makes the last Terminal condition False and the last Recoverable one True, or appends the latter |
| Conditions.SuccessByIndex | pkg/resource/agent/sdk.go:1326-1344 | a success makes both False and appends none |
| Conditions.IsTerminalIff | pkg/resource/agent/sdk.go:1364-1379 | the terminal errors: a "ValidationException" or a TerminalError wrapped any number of times, and the two secret errors |
| Conditions.ReportedError | pkg/resource/agent/manager.go:403-423 | onError returns Terminal for exactly these errors, or if a True Terminal condition is followed by another one, and otherwise the error itself |
| Conditions.TextOfWrapped | pkg/resource/agent/sdk.go:1317-1342 | the message is the text of the innermost error, however often it is wrapped |
| Conditions.BothAreTrueIff | pkg/resource/agent/sdk.go:1310-1325 | both conditions are True after a history iff it ends with a terminal error and the last other event was a failure, or there was none and Recoverable was True before |
| Conditions.BothCanBeTrue | pkg/resource/agent/sdk.go:1310-1325 | for instance after a terminal error that follows another error |
| Conditions.StaysBlocked | pkg/resource/agent/sdk.go:1295-1308 | no event makes or clears a True Terminal condition that is not the last of its type |
| Conditions.TerminalErrorsAreReported | pkg/resource/agent/manager.go:411-420 | onError returns Terminal iff the error is terminal or such a Terminal condition is out of sight |
| Conditions.IsUpdatedIffFound | pkg/resource/agent/sdk.go:1345-1350 | an update is reported iff one of the three conditions is there afterwards |
| Conditions.NoUpdateIsNoChange | pkg/resource/agent/manager.go:433-437 | when onSuccess reports no update there was nothing to change |
| Resources.Resource.UpdateConditions | pkg/resource/agent/sdk.go:1286-1351 | the conditions are edited on a fresh deep copy: the given resource and its conditions stay as they are |
| Resources.Resource.FindConditions | pkg/resource/agent/sdk.go:1295-1308 | the search ends with the last condition of each type |
| Resources.Resource.SetStatusDefaults | pkg/resource/agent/sdk.go:1264-1282 | region, partition, account and an empty list of conditions are set where they are nil |
| Resources.DefaultsAreOnlyFilledIn | pkg/resource/agent/sdk.go:1264-1282 | what is set stays, also when a manager with another configuration comes later |
| Resources.DefaultsComeFromConfig | pkg/resource/agent/sdk.go:1264-1282 | region, partition and account are those of the manager where they were nil, and everything outside the metadata stays |
| Resources.Resource.DeepCopy | apis/v1alpha1/zz_generated.deepcopy.go:588-660 | an equal resource that shares no condition object |
| DeepCopy.CopyStrings | apis/v1alpha1/zz_generated.deepcopy.go:1349-1359 | the copy of a slice of strings, made by its index loop, has the same elements, nil or not, in a new array of new cells |
| DeepCopy.CopyInference | apis/v1alpha1/zz_generated.deepcopy.go:1342-1375 | a copied inference configuration stands for the same value, and every pointer in it is new |
| DeepCopy.CopyPrompt | apis/v1alpha1/zz_generated.deepcopy.go:1738-1775 | the same for a prompt |
| DeepCopy.CopyPrompts | apis/v1alpha1/zz_generated.deepcopy.go:1856-1866 | the same for the slice of prompts, with its index loop |
| DeepCopy.CopyOverride | apis/v1alpha1/zz_generated.deepcopy.go:1849-1867 | the same for a prompt override |
| DeepCopySpec.CopyMemory | apis/v1alpha1/zz_generated.deepcopy.go:1642-1665 | the same for a memory configuration |
| DeepCopySpec.CopyTags | apis/v1alpha1/zz_generated.deepcopy.go:558-574 | the same for the tags, with the loop over the keys |
| DeepCopySpec.Spec.DeepCopyInto | apis/v1alpha1/zz_generated.deepcopy.go:487-575 | the spec written into `out` stands for the same value, all it refers to at any depth is new, and nothing else is written |
| DeepCopyAgent.Status.DeepCopyInto | apis/v1alpha1/zz_generated.deepcopy.go:588-660 | the same for the status |
| DeepCopyAgent.AgentFields.DeepCopy | apis/v1alpha1/zz_generated.deepcopy.go:82-98 | the copy of an agent is new down to the last cell and stands for the same value |
| DeepCopyAgent.AgentFields.HasOneValue | apis/v1alpha1/zz_generated.deepcopy.go:82-88 | an object stands for one value only, so a copy has the value of the original |
| References.ResolveReferences | pkg/resource/agent/references.go:59-75 | the outcome of resolution, on the very resource that was given |
| References.ClearResolvedReferences | pkg/resource/agent/references.go:42-50 | a fresh copy without the ARN if there is a reference |
| References.GetReferencedResourceStateRole | pkg/resource/agent/references.go:128-176 | a role is usable, or the first reason why not: terminal, not synced, no ARN |
| References.ClearUndoesResolve | pkg/resource/agent/references.go:42-75 | clearing after resolving is clearing alone, for every input and every error |
| References.ResolveAgainIff | pkg/resource/agent/references.go:42-88 | resolve, clear, resolve gives the outcome of resolve iff not both a reference and an ARN were set |
| References.SuccessIsRepeatable | pkg/resource/agent/references.go:59-88 | it does so after every success |
| References.ArnComesFromUsableRole | pkg/resource/agent/references.go:94-122 | a reference resolves iff it leads to a role that is not terminal, is synced and has an ARN, and the ARN is that role's |
| References.ResolutionByReason | pkg/resource/agent/references.go:59-176 | the error of a resolution, reason by reason in the order of the checks, and the ARN if there is none |
| References.ResolveKeepsResourceIff | pkg/resource/agent/references.go:54-75 | resolving leaves the given resource as it is iff there is no reference, it does not resolve, or its ARN is already there |
| References.ResolveChangesResource | pkg/resource/agent/references.go:94-122 | a resource with a reference that resolves and no ARN is changed |
| ManagerCache.Factory.ManagerFor | pkg/resource/agent/manager_factory.go:48-79 | a cached manager is returned, otherwise a new one for this very request is stored and returned |
| ManagerCache.KeysAreInjective | pkg/resource/agent/manager_factory.go:61 | the key format is injective when account and region contain no '/' |
| ManagerCache.KeyIsUniqueIff | pkg/resource/agent/manager_factory.go:61 | a request shares its key with no request with plain names but itself iff its own account and region contain no '/' |
| ManagerCache.PlainNamesOf | pkg/resource/agent/manager_factory.go:61 | so every request with a '/' in its account or region collides with one that has none |
| ManagerCache.KeysCollide | pkg/resource/agent/manager_factory.go:61 | for instance with a '/' in a region |
| ManagerCache.InvariantHolds | pkg/resource/agent/manager_factory.go:61-79 | in every interleaving the cache and all calls have managers for their own keys and a writer excludes all others |
| ManagerCache.ReturnsRequestedManager | pkg/resource/agent/manager_factory.go:61-79 | a returned manager is for the requested key, and for the requested account and region if these contain no '/' |
| ManagerCache.CachedKeysStay | pkg/resource/agent/manager_factory.go:69-79 | cached keys never disappear |
| ManagerCache.LaterCallBuildsNothing | pkg/resource/agent/manager_factory.go:62-68 | a call that starts after a call for the same key has returned builds nothing |
| ManagerCache.LaterCallsAgree | pkg/resource/agent/manager_factory.go:62-79 | once no call for a key is between its miss and its store, all later calls return the same manager |
| ManagerCache.LaterCallMayDiffer | pkg/resource/agent/manager_factory.go:69-79 | while one is, there is a continuation in which a later call returns another manager than the cached one |
| ManagerCache.LaterCallsAgreeIff | pkg/resource/agent/manager_factory.go:62-79 | so a cached key has one manager from now on iff no call for it is pending |
| ManagerCache.TwoManagersForOneKey | pkg/resource/agent/manager_factory.go:69-79 | two calls that both miss get two different managers |

## Left out

- Transport, metrics, logging, tracing and contexts of AWS calls: a call is one step of the remote world.
- The ACK runtime's requeue and backoff and its writes to Kubernetes: only the order of a round is used, and a run starts
  from a spec to which `EnsureTags` has already added the default tags.
- Asynchronous `PREPARING` and `VERSIONING` statuses: the code calls Prepare again as long as the status is not
  `PREPARED`, so the bound on writes does not hold there.
- NaN, infinities and the details of rounding: floats are reals with a rounding to float32.
- Error texts other than those carried by API and terminal errors, and the transition times of conditions.
- The order of the keys in `UntagResource`, which the code sorts: the model sends a set.
- `sdkDelete`, `Delete` and their payload: one call without state.
- `ObjectMeta` and `TypeMeta` of a resource: only the namespace is kept, for references.
- `ARNFromName`, descriptor, identifiers, registration and `main`: wiring and accessors.
- The deep copy functions of types that no Agent reaches.
- Pointer structure inside a spec: outside the `DeepCopy` modules a spec is a value, because it is never written through
  a shared pointer; conditions, which are, are objects.
- In the `DeepCopy` modules a struct is written into `out` in one assignment after its fields have been copied, and the
  array of the copied prompts or conditions and the map of the copied tags are made when all elements have been copied.
- The error branch of `newResourceManager`, which never returns an error, the post-create error wrapper, which is only
  installed when there is no error left to come, and the early return of `LateInitialize` for an empty list of fields,
  which is not empty.
- The three response decoders are modelled by one, as their texts are the same, and the check for a second member of the
  executor union, which has only one, is left out of the payload builders.
