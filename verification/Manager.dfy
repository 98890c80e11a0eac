/** The resource manager: sdkFind, sdkCreate and sdkUpdate of pkg/resource/agent/sdk.go and the methods of manager.go.
    Each method is specified by a function of the remote world and the values it is given. */
module Manager {
  import opened Api
  import opened Conditions
  import opened Payloads
  import opened Remote
  import opened Resources
  import Codec
  import Delta
  import Sdk
  import Tags
  import UpdatePayloads

  /** What one resource manager is built with; `round` is `float32(x)` and `sameStrings` SliceStringPEqual. */
  datatype Settings = Settings(cfg: Config, round: real -> real, sameStrings: Delta.SliceKey)

  /** The result of an operation: the world it leaves, and a value or an error. */
  datatype Outcome<+T> = Outcome(world: World, result: Result<T>)

  // ----- The copy that a response is merged into -----

  function Merged(cfg: Config, a: Agent, resp: Sdk.Agent): Agent {
    WithDefaults(cfg, Received(a, resp))
  }

  method MergeIntoCopy(cfg: Config, r: Resource, resp: Sdk.Agent) returns (ko: Resource)
    ensures fresh(ko) && fresh(ko.Objects()) && ko.Distinct()
    ensures ko.View() == Merged(cfg, old(r.View()), resp)
  {
    ghost var before := r.View();
    ko := r.DeepCopy();
    SetFromResponse(ko, resp);
    ghost var received := ko.View();
    assert received == Received(before, resp);
    ko.SetStatusDefaults(cfg);
  }

  // ----- sdkFind -----

  function HasArn(a: Agent): bool {
    a.status.metadata.Some? && a.status.metadata.value.arn.Some?
  }

  /** sdkFind dereferences the ARN: it must be known, or come with the response. */
  predicate CanFind(w: World, a: Agent) {
    || HasArn(a)
    || (a.status.agentID.Some? && a.status.agentID.value in w.agents ==>
          w.agents[a.status.agentID.value].agentArn.Some?)
  }

  function FindError(e: Error): Error {
    if ApiCode(e) == Some(NOT_FOUND_CODE) then NotFound else e
  }

  /** A nil AgentID means that there is nothing to find yet. */
  function FindOutcome(cfg: Config, bk: Backend, w: World, a: Agent): Outcome<Agent>
    requires CanFind(w, a)
  {
    if a.status.agentID.None? then Outcome(w, Err(NotFound)) else
      var get := GetAgent(a.status.agentID);
      var failure := Failure(bk, w, get);
      var w1 := After(bk, w, get);
      if failure.Some? then Outcome(w1, Err(FindError(failure.value))) else
        var ko := Merged(cfg, a, w.agents[a.status.agentID.value]);
        var list := ListTagsForResource(ko.status.metadata.value.arn.value);
        var listFailure := Failure(bk, w1, list);
        var w2 := After(bk, w1, list);
        if listFailure.Some? then Outcome(w2, Err(listFailure.value))
        else Outcome(w2, Ok(ko.(spec := ko.spec.(tags := Tags.FromTagMap(w1.tags[list.listArn])))))
  }

  method SdkFind(cfg: Config, client: Client, r: Resource) returns (latest: Resource?, err: Option<Error>)
    requires CanFind(client.world, r.View())
    modifies client
    ensures client.world == FindOutcome(cfg, client.backend, old(client.world), old(r.View())).world
    ensures Returns(latest, err, FindOutcome(cfg, client.backend, old(client.world), old(r.View())).result)
    ensures latest != null ==> fresh(latest) && fresh(latest.Objects()) && latest.Distinct()
  {
    ghost var before := r.View();
    latest := null;
    if r.agentID.None? {
      return null, Some(NotFound);
    }
    err := client.Invoke(GetAgent(r.agentID));
    if err.Some? {
      if ApiCode(err.value) == Some(NOT_FOUND_CODE) {
        return null, Some(NotFound);
      }
      return;
    }
    var resp := client.world.agents[r.agentID.value];
    assert r.View() == before;
    var ko := MergeIntoCopy(cfg, r, resp);
    ghost var merged := ko.View();
    assert merged == Merged(cfg, before, resp);
    assert ko.metadata == merged.status.metadata;
    var tags := Tags.GetResourceTags(client, ko.metadata.value.arn.value);
    if tags.Err? {
      return null, Some(tags.error);
    }
    assert ko.View() == merged;
    SetTags(ko, tags.value);
    return ko, None;
  }

  /** The Go pair (resource, error) for a result: one of the two is nil. */
  ghost predicate Returns(r: Resource?, err: Option<Error>, result: Result<Agent>)
    reads r, if r == null then {} else r.Objects()
  {
    match result
    case Ok(a) => r != null && err.None? && r.View() == a
    case Err(e) => r == null && err == Some(e)
  }

  method SetTags(ko: Resource, tags: SpecTags)
    modifies ko`spec
    ensures ko.spec == old(ko.spec).(tags := tags)
    ensures ko.View() == old(ko.View()).(spec := ko.spec)
  {
    ko.spec := ko.spec.(tags := tags);
  }

  // ----- sdkCreate -----

  function CreateOutcome(m: Settings, bk: Backend, w: World, a: Agent): Outcome<Agent>
    requires NoNilElements(a.spec)
  {
    var payload := CreatePayload(m.round, a.spec);
    if payload.Err? then Outcome(w, Err(payload.error)) else
      var call := CreateAgent(payload.value);
      var failure := Failure(bk, w, call);
      var w1 := After(bk, w, call);
      if failure.Some? then Outcome(w1, Err(failure.value))
      else Outcome(w1, Ok(Merged(m.cfg, a, w1.agents[bk.newId(|w.log|)])))
  }

  method SdkCreate(m: Settings, client: Client, desired: Resource) returns (created: Resource?, err: Option<Error>)
    requires NoNilElements(desired.spec)
    modifies client
    ensures client.world == CreateOutcome(m, client.backend, old(client.world), old(desired.View())).world
    ensures Returns(created, err, CreateOutcome(m, client.backend, old(client.world), old(desired.View())).result)
    ensures created != null ==> fresh(created) && fresh(created.Objects()) && created.Distinct()
  {
    ghost var before := desired.View();
    var input := NewCreateRequestPayload(m.round, desired);
    if input.Err? {
      return null, Some(input.error);
    }
    var id := client.backend.newId(|client.world.log|);
    err := client.Invoke(CreateAgent(input.value));
    if err.Some? {
      return null, err;
    }
    var resp := client.world.agents[id];
    assert desired.View() == before;
    var ko := MergeIntoCopy(m.cfg, desired, resp);
    assert ko.View() == Merged(m.cfg, before, resp);
    return ko, None;
  }

  // ----- sdkUpdate -----

  function PreparePlan(a: Agent, paths: seq<Delta.Path>): seq<Call>
    requires Delta.DifferentAt(paths, Delta.AtAgentStatus) ==> a.status.agentID.Some?
  {
    if Delta.DifferentAt(paths, Delta.AtAgentStatus) then [PrepareAgent(a.status.agentID.value)] else []
  }

  function TagsPlan(desired: Agent, latest: Agent, paths: seq<Delta.Path>): seq<Call>
    requires Delta.DifferentAt(paths, Delta.AtTags) ==> HasArn(latest)
  {
    if Delta.DifferentAt(paths, Delta.AtTags)
    then Tags.TagPlan(latest.status.metadata.value.arn.value, desired.spec.tags, latest.spec.tags)
    else []
  }

  function FirstPlan(desired: Agent, latest: Agent, paths: seq<Delta.Path>): seq<Call>
    requires Delta.DifferentAt(paths, Delta.AtAgentStatus) ==> desired.status.agentID.Some?
    requires Delta.DifferentAt(paths, Delta.AtTags) ==> HasArn(latest)
  {
    PreparePlan(desired, paths) + TagsPlan(desired, latest, paths)
  }

  predicate NeedsUpdate(paths: seq<Delta.Path>) {
    Delta.DifferentExcept(paths, Delta.AtAgentStatus, Delta.AtTags)
  }

  function FieldsPlan(m: Settings, a: Agent, paths: seq<Delta.Path>): seq<Call>
    requires NoNilElements(a.spec)
  {
    if NeedsUpdate(paths) && UpdatePayload(m.round, a).Ok? then [UpdateAgent(UpdatePayload(m.round, a).value)] else []
  }

  /** What sdkUpdate dereferences. */
  ghost predicate CanUpdate(desired: Agent, latest: Agent, paths: seq<Delta.Path>) {
    && (Delta.DifferentAt(paths, Delta.AtAgentStatus) ==> desired.status.agentID.Some?)
    && (Delta.DifferentAt(paths, Delta.AtTags) ==> HasArn(latest))
    && NoNilElements(desired.spec)
  }

  function UpdateOutcome(m: Settings, bk: Backend, w: World, desired: Agent, latest: Agent, paths: seq<Delta.Path>)
      : Outcome<Agent>
    requires CanUpdate(desired, latest, paths)
  {
    var first := FirstPlan(desired, latest, paths);
    var w1, error := Execute(bk, w, first), ExecuteError(bk, w, first);
    if error.Some? then Outcome(w1, Err(error.value))
    else if !NeedsUpdate(paths) then Outcome(w1, Ok(desired))
    else PutOutcome(m, bk, w1, desired)
  }

  /** The last step: the whole spec is sent, and the answer merged into a copy. */
  function PutOutcome(m: Settings, bk: Backend, w: World, desired: Agent): Outcome<Agent>
    requires NoNilElements(desired.spec)
  {
    var payload := UpdatePayload(m.round, desired);
    if payload.Err? then Outcome(w, Err(payload.error)) else
      var call := UpdateAgent(payload.value);
      var failure := Failure(bk, w, call);
      var w1 := After(bk, w, call);
      if failure.Some? then Outcome(w1, Err(failure.value))
      else Outcome(w1, Ok(Merged(m.cfg, desired, w1.agents[payload.value.agentId.value])))
  }

  /** prepareAgent. */
  method Prepare(client: Client, agentID: string) returns (err: Option<Error>)
    modifies client
    ensures client.world == After(client.backend, old(client.world), PrepareAgent(agentID))
    ensures err == Failure(client.backend, old(client.world), PrepareAgent(agentID))
  {
    err := client.Invoke(PrepareAgent(agentID));
  }

  method SyncTags(client: Client, desired: Resource, latest: Resource) returns (err: Option<Error>)
    requires latest.metadata.Some? && latest.metadata.value.arn.Some?
    modifies client
    ensures var plan := Tags.TagPlan(latest.metadata.value.arn.value, desired.spec.tags, latest.spec.tags);
            && client.world == Execute(client.backend, old(client.world), plan)
            && err == ExecuteError(client.backend, old(client.world), plan)
  {
    err := Tags.SyncResourceTags(client, latest.metadata.value.arn.value, desired.spec.tags, latest.spec.tags);
  }

  method PutFields(m: Settings, client: Client, desired: Resource) returns (updated: Resource?, err: Option<Error>)
    requires NoNilElements(desired.spec)
    modifies client
    ensures client.world == PutOutcome(m, client.backend, old(client.world), old(desired.View())).world
    ensures Returns(updated, err, PutOutcome(m, client.backend, old(client.world), old(desired.View())).result)
    ensures updated != null ==> fresh(updated) && fresh(updated.Objects()) && updated.Distinct()
  {
    ghost var before := desired.View();
    var input := UpdatePayloads.NewUpdateRequestPayload(m.round, desired);
    if input.Err? {
      return null, Some(input.error);
    }
    err := client.Invoke(UpdateAgent(input.value));
    if err.Some? {
      return null, err;
    }
    var resp := client.world.agents[input.value.agentId.value];
    assert desired.View() == before;
    var ko := MergeIntoCopy(m.cfg, desired, resp);
    assert ko.View() == Merged(m.cfg, before, resp);
    return ko, None;
  }

  method SdkUpdate(m: Settings, client: Client, desired: Resource, latest: Resource, delta: Delta.Delta)
      returns (updated: Resource?, err: Option<Error>)
    requires CanUpdate(desired.View(), latest.View(), delta.paths) && desired.Distinct()
    modifies client
    ensures var outcome := UpdateOutcome(m, client.backend, old(client.world), old(desired.View()),
                                         old(latest.View()), delta.paths);
            client.world == outcome.world && Returns(updated, err, outcome.result)
    ensures latest.View() == old(latest.View())
    ensures updated != null ==> updated.Distinct()
    ensures updated != null ==>
              if NeedsUpdate(delta.paths) then fresh(updated) && fresh(updated.Objects()) else updated == desired
  {
    updated, err := RunUpdate(m, client, desired, latest, delta);
    assert latest.View() == old(latest.View()) by {
      NothingChanged(latest);
    }
  }

  /** The three steps of sdkUpdate. */
  method RunUpdate(m: Settings, client: Client, desired: Resource, latest: Resource, delta: Delta.Delta)
      returns (updated: Resource?, err: Option<Error>)
    requires CanUpdate(desired.View(), latest.View(), delta.paths) && desired.Distinct()
    modifies client
    ensures var outcome := UpdateOutcome(m, client.backend, old(client.world), old(desired.View()),
                                         old(latest.View()), delta.paths);
            client.world == outcome.world && Returns(updated, err, outcome.result)
    ensures updated != null ==> updated.Distinct()
    ensures updated != null ==>
              if NeedsUpdate(delta.paths) then fresh(updated) && fresh(updated.Objects()) else updated == desired
  {
    ghost var before := desired.View();
    err := PrepareAndSyncTags(client, desired, latest, delta);
    if err.Some? {
      return null, err;
    }
    assert desired.View() == before;
    if !NeedsUpdate(delta.paths) {
      return desired, None;
    }
    updated, err := PutFields(m, client, desired);
  }

  /** The first two steps of sdkUpdate. */
  method PrepareAndSyncTags(client: Client, desired: Resource, latest: Resource, delta: Delta.Delta)
    returns (err: Option<Error>)
    requires CanUpdate(desired.View(), latest.View(), delta.paths)
    modifies client
    ensures var first := FirstPlan(old(desired.View()), old(latest.View()), delta.paths);
            client.world == Execute(client.backend, old(client.world), first)
            && err == ExecuteError(client.backend, old(client.world), first)
  {
    ghost var prepare := PreparePlan(desired.View(), delta.paths);
    ghost var tags := TagsPlan(desired.View(), latest.View(), delta.paths);
    ExecuteConcat(client.backend, client.world, prepare, tags);
    err := None;
    if Delta.DifferentAt(delta.paths, Delta.AtAgentStatus) {
      err := Prepare(client, desired.agentID.value);
      if err.Some? {
        return;
      }
    }
    if Delta.DifferentAt(delta.paths, Delta.AtTags) {
      err := SyncTags(client, desired, latest);
      if err.Some? {
        return;
      }
    }
  }

  // ----- Errors and successes -----

  lemma ErrorResultIff(cfg: Config, a: Agent, e: Error)
    ensures OnErrorResult(ConditionSeq(a), e)
            == if IsTerminalTrue(ConditionSeq(AfterError(cfg, a, e))) then Terminal else e
  {
  }

  method OnError(cfg: Config, r: Resource, e: Error) returns (res: Resource, err: Option<Error>)
    ensures fresh(res) && fresh(res.Objects()) && res.Distinct()
    ensures res.View() == AfterError(cfg, old(r.View()), e)
    ensures err == Some(OnErrorResult(ConditionSeq(old(r.View())), e))
  {
    ghost var before := r.View();
    res := RecordError(cfg, r, e);
    err := Reported(res, e);
    ErrorResultIff(cfg, before, e);
  }

  /** An error always updates the conditions. */
  method RecordError(cfg: Config, r: Resource, e: Error) returns (res: Resource)
    ensures fresh(res) && fresh(res.Objects()) && res.Distinct()
    ensures res.View() == AfterError(cfg, old(r.View()), e)
  {
    var r1 := r.UpdateConditions(cfg, Some(e));
    assert r1 != null;
    res := r1;
  }

  /** Terminal in place of the error if some Terminal condition is True. */
  method Reported(r: Resource, e: Error) returns (err: Option<Error>)
    ensures err == Some(if IsTerminalTrue(ConditionSeq(r.View())) then Terminal else e)
    ensures r.View() == old(r.View()) && r.Objects() == old(r.Objects()) && r.Distinct() == old(r.Distinct())
  {
    var terminal := HasTrueTerminal(r);
    err := Some(if terminal then Terminal else e);
    NothingChanged(r);
  }

  method HasTrueTerminal(r: Resource) returns (found: bool)
    ensures found <==> IsTerminalTrue(ConditionSeq(r.View()))
  {
    ghost var conds := ConditionSeq(r.View());
    var cs := if r.conditions.Some? then r.conditions.value else [];
    for i := 0 to |cs|
      invariant forall j :: 0 <= j < i ==> !(conds[j].ctype == TerminalCondition && conds[j].status == True)
    {
      if cs[i].c.ctype == TerminalCondition && cs[i].c.status == True {
        return true;
      }
    }
    return false;
  }

  method OnSuccess(cfg: Config, r: Resource) returns (res: Resource)
    requires r.Distinct()
    ensures if IsUpdated(ConditionSeq(old(r.View())), None) then fresh(res) && fresh(res.Objects()) else res == r
    ensures res.Distinct() && res.View() == AfterSuccess(cfg, old(r.View()))
  {
    var r1 := r.UpdateConditions(cfg, None);
    res := if r1 != null then r1 else r;
  }

  // ----- Tags of a resource -----

  function WithTags(a: Agent, tags: SpecTags): Agent {
    a.(spec := a.spec.(tags := tags))
  }

  method MirrorAWSTags(a: Resource, b: Resource?)
    modifies a`spec
    ensures a.View() == if b == null then old(a.View())
                        else WithTags(old(a.View()), Tags.MirrorSpec(old(a.spec.tags), old(b.spec.tags)))
  {
    ghost var before := a.View();
    if b == null {
      return;
    }
    ghost var target := Tags.MirrorSpec(a.spec.tags, b.spec.tags);
    var desiredTags, keyOrder := Tags.ConvertToOrderedACKTags(a.spec.tags);
    var latestTags, _ := Tags.ConvertToOrderedACKTags(b.spec.tags);
    Tags.SyncAWSTags(desiredTags, latestTags);
    var tags := Tags.FromACKTags(desiredTags, keyOrder);
    assert tags == target && a.View() == before;
    SetTags(a, tags);
  }

  /** `defaultTags` are those of ackrt.GetDefaultTags. */
  method EnsureTags(r: Resource, defaultTags: map<string, string>)
    modifies r`spec
    ensures r.View() == WithTags(old(r.View()), Tags.EnsureSpec(old(r.spec.tags), defaultTags))
  {
    var resourceTags, keyOrder := Tags.ConvertToOrderedACKTags(r.spec.tags);
    resourceTags.m := Tags.Merge(resourceTags.m, defaultTags);
    var tags := Tags.FromACKTags(resourceTags, keyOrder);
    SetTags(r, tags);
  }

  method FilterSystemTags(r: Resource, systemTags: seq<string>)
    modifies r`spec
    ensures r.View() == WithTags(old(r.View()), Tags.FilterSpec(old(r.spec.tags), systemTags))
  {
    var resourceTags, keyOrder := Tags.ConvertToOrderedACKTags(r.spec.tags);
    Tags.IgnoreSystemTags(resourceTags, systemTags);
    var tags := Tags.FromACKTags(resourceTags, keyOrder);
    SetTags(r, tags);
  }

  // ----- ReadOne, Create, Update -----

  /** The world, the resource and the error that a method of the resource manager returns. */
  datatype Conclusion = Conclusion(world: World, returned: Agent, error: Option<Error>)

  /** onSuccess of what was found, created or updated, or onError of the fallback. */
  function Concluded(cfg: Config, fallback: Agent, outcome: Outcome<Agent>): Conclusion {
    match outcome.result
    case Ok(a) => Conclusion(outcome.world, AfterSuccess(cfg, a), None)
    case Err(e) =>
      Conclusion(outcome.world, AfterError(cfg, fallback, e), Some(OnErrorResult(ConditionSeq(fallback), e)))
  }

  /** A success that has none of the three conditions: what is returned is the answer itself, not a copy. */
  predicate IsAnsweredAsIs(result: Result<Agent>) {
    result.Ok? && !IsUpdated(ConditionSeq(result.value), None)
  }

  /** The common end of the three methods: no operation returns a resource together with an error. */
  method Conclude(cfg: Config, fallback: Resource, r: Resource?, opErr: Option<Error>, ghost outcome: Outcome<Agent>)
      returns (res: Resource, err: Option<Error>)
    requires Returns(r, opErr, outcome.result) && (r != null ==> r.Distinct())
    ensures var end := Concluded(cfg, old(fallback.View()), outcome);
            res.View() == end.returned && err == end.error
    ensures res.Distinct()
    ensures if IsAnsweredAsIs(outcome.result) then res == r else fresh(res) && fresh(res.Objects())
  {
    if opErr.Some? {
      res, err := OnError(cfg, fallback, opErr.value);
    } else {
      res := OnSuccess(cfg, r);
      err := None;
    }
  }

  function Read(cfg: Config, bk: Backend, w: World, a: Agent): Conclusion
    requires CanFind(w, a)
  {
    Concluded(cfg, a, FindOutcome(cfg, bk, w, a))
  }

  /** What becomes of the resource that ReadOne is given. */
  function ReadInput(cfg: Config, bk: Backend, w: World, a: Agent): Agent
    requires CanFind(w, a)
  {
    Mirrored(a, FindOutcome(cfg, bk, w, a).result)
  }

  function Mirrored(a: Agent, found: Result<Agent>): Agent {
    if found.Ok? then WithTags(a, Tags.MirrorSpec(a.spec.tags, found.value.spec.tags)) else a
  }

  /** Reading writes the `aws:` tags it saw into the spec of the resource it is given. */
  method ReadOne(cfg: Config, client: Client, r: Resource) returns (res: Resource, err: Option<Error>)
    requires CanFind(client.world, r.View())
    modifies client, r`spec
    ensures var end := Read(cfg, client.backend, old(client.world), old(r.View()));
            client.world == end.world && res.View() == end.returned && err == end.error
    ensures r.View() == ReadInput(cfg, client.backend, old(client.world), old(r.View()))
    ensures r.Distinct() == old(r.Distinct())
    ensures fresh(res) && fresh(res.Objects()) && res.Distinct()
  {
    ghost var before := r.View();
    ghost var found := FindOutcome(cfg, client.backend, client.world, before);
    var observed, findErr := SdkFind(cfg, client, r);
    assert r.View() == before;
    res, err := MirrorAndConclude(cfg, r, observed, findErr, found);
  }

  method MirrorAndConclude(cfg: Config, r: Resource, observed: Resource?, findErr: Option<Error>,
                           ghost found: Outcome<Agent>)
      returns (res: Resource, err: Option<Error>)
    requires Returns(observed, findErr, found.result) && (observed != null ==> observed.Distinct() && observed != r)
    modifies r`spec
    ensures var end := Concluded(cfg, old(r.View()), found);
            res.View() == end.returned && err == end.error
    ensures r.View() == Mirrored(old(r.View()), found.result) && r.Distinct() == old(r.Distinct())
    ensures res.Distinct() && (res == observed || (fresh(res) && fresh(res.Objects())))
  {
    MirrorAWSTags(r, observed);
    res, err := Conclude(cfg, r, observed, findErr, found);
    OnlySpecChanged(r);
  }

  function Creating(m: Settings, bk: Backend, w: World, a: Agent): Conclusion
    requires NoNilElements(a.spec)
  {
    Concluded(m.cfg, a, CreateOutcome(m, bk, w, a))
  }

  method Create(m: Settings, client: Client, r: Resource) returns (res: Resource, err: Option<Error>)
    requires NoNilElements(r.spec)
    modifies client
    ensures var end := Creating(m, client.backend, old(client.world), old(r.View()));
            client.world == end.world && res.View() == end.returned && err == end.error
    ensures fresh(res) && fresh(res.Objects()) && res.Distinct()
  {
    ghost var before := r.View();
    ghost var outcome := CreateOutcome(m, client.backend, client.world, before);
    var created, createErr := SdkCreate(m, client, r);
    assert r.View() == before;
    res, err := Conclude(m.cfg, r, created, createErr, outcome);
  }

  function Updating(m: Settings, bk: Backend, w: World, desired: Agent, latest: Agent, paths: seq<Delta.Path>)
      : Conclusion
    requires CanUpdate(desired, latest, paths)
  {
    Concluded(m.cfg, latest, UpdateOutcome(m, bk, w, desired, latest, paths))
  }

  /** The error of an update is recorded on the latest observed resource. When nothing but the status and the tags
      differ and no condition changes, the desired resource itself is returned. */
  method Update(m: Settings, client: Client, desired: Resource, latest: Resource, delta: Delta.Delta)
      returns (res: Resource, err: Option<Error>)
    requires CanUpdate(desired.View(), latest.View(), delta.paths) && desired.Distinct()
    modifies client
    ensures var end := Updating(m, client.backend, old(client.world), old(desired.View()), old(latest.View()),
                                delta.paths);
            client.world == end.world && res.View() == end.returned && err == end.error
    ensures res.Distinct()
    ensures var result := UpdateOutcome(m, client.backend, old(client.world), old(desired.View()), old(latest.View()),
                                        delta.paths).result;
            if IsAnsweredAsIs(result) && !NeedsUpdate(delta.paths) then res == desired
            else fresh(res) && fresh(res.Objects())
  {
    ghost var before := latest.View();
    ghost var outcome := UpdateOutcome(m, client.backend, client.world, desired.View(), before, delta.paths);
    var updated, updateErr := SdkUpdate(m, client, desired, latest, delta);
    res, err := Conclude(m.cfg, latest, updated, updateErr, outcome);
  }

  predicate IsPrepared(a: Agent) {
    a.status.agentStatus == Some(PREPARED)
  }

  method IsSynced(r: Resource) returns (synced: bool)
    ensures synced <==> IsPrepared(r.View())
  {
    if r.agentStatus.None? {
      return false;
    }
    var agentStatusCandidates := ["PREPARED"];
    return r.agentStatus.value in agentStatusCandidates;
  }

  // ----- The calls of an update -----

  /** All the calls that an update of these two resources can make. */
  function UpdatePlan(m: Settings, desired: Agent, latest: Agent, paths: seq<Delta.Path>): seq<Call>
    requires CanUpdate(desired, latest, paths)
  {
    FirstPlan(desired, latest, paths) + FieldsPlan(m, desired, paths)
  }

  /** The position of a write in sdkUpdate; reads and creations have none. */
  function Stage(call: Call): int {
    match call
    case PrepareAgent(_) => 0
    case UntagResource(_, _) => 1
    case TagResource(_, _) => 2
    case UpdateAgent(_) => 3
    case _ => -1
  }

  /** Calls of stages from `lo` up to but not including `hi`, at most one of each and in order. */
  ghost predicate InOrder(plan: seq<Call>, lo: int, hi: int) {
    && (forall i :: 0 <= i < |plan| ==> lo <= Stage(plan[i]) < hi)
    && (forall i, j :: 0 <= i < j < |plan| ==> Stage(plan[i]) < Stage(plan[j]))
  }

  lemma TwoInOrder(untag: seq<Call>, tag: seq<Call>)
    requires InOrder(untag, 1, 2) && InOrder(tag, 2, 3)
    ensures InOrder(untag + tag, 1, 3)
  {
  }

  lemma TagsPlanIsInOrder(desired: Agent, latest: Agent, paths: seq<Delta.Path>)
    requires Delta.DifferentAt(paths, Delta.AtTags) ==> HasArn(latest)
    ensures InOrder(TagsPlan(desired, latest, paths), 1, 3)
  {
    if Delta.DifferentAt(paths, Delta.AtTags) {
      var arn := latest.status.metadata.value.arn.value;
      var from, to := Tags.Normalize(latest.spec.tags), Tags.Normalize(desired.spec.tags);
      var removed, added := Tags.Removed(from, to), Tags.Added(from, to);
      TwoInOrder(if removed != map[] then [UntagResource(arn, removed.Keys)] else [],
                 if added != map[] then [TagResource(arn, added)] else []);
    }
  }

  lemma FieldsPlanIsInOrder(m: Settings, desired: Agent, paths: seq<Delta.Path>)
    requires NoNilElements(desired.spec)
    ensures InOrder(FieldsPlan(m, desired, paths), 3, 4)
  {
  }

  /** An update makes at most one call of each kind, in the order Prepare, Untag, Tag, Update. */
  lemma PlanIsInOrder(m: Settings, desired: Agent, latest: Agent, paths: seq<Delta.Path>)
    requires CanUpdate(desired, latest, paths)
    ensures InOrder(UpdatePlan(m, desired, latest, paths), 0, 4)
  {
    TagsPlanIsInOrder(desired, latest, paths);
    FieldsPlanIsInOrder(m, desired, paths);
    var prepare, tags := PreparePlan(desired, paths), TagsPlan(desired, latest, paths);
    var fields := FieldsPlan(m, desired, paths);
    ThreeInOrder(prepare, tags, fields);
  }

  lemma ThreeInOrder(prepare: seq<Call>, tags: seq<Call>, fields: seq<Call>)
    requires InOrder(prepare, 0, 1) && InOrder(tags, 1, 3) && InOrder(fields, 3, 4)
    ensures InOrder(prepare + tags + fields, 0, 4)
  {
  }

  lemma PutIsFieldsPlan(m: Settings, bk: Backend, w: World, desired: Agent, paths: seq<Delta.Path>)
    requires NoNilElements(desired.spec) && NeedsUpdate(paths)
    ensures var plan, put := FieldsPlan(m, desired, paths), PutOutcome(m, bk, w, desired);
            && put.world == Execute(bk, w, plan)
            && (ExecuteError(bk, w, plan).Some? ==> put.result == Err(ExecuteError(bk, w, plan).value))
            && (ExecuteError(bk, w, plan).None? && plan == [] ==>
                  put.result == Err(UpdatePayload(m.round, desired).error))
            && (ExecuteError(bk, w, plan).None? && plan != [] ==> put.result.Ok?)
  {
  }

  /** Whatever fails, the calls of an update are the part of its plan, in the order Prepare, Untag, Tag, Update,
      that ends with the first failure. An update succeeds iff no call failed and no needed payload was refused; if
      only the status and the tags differ, its result is the desired resource itself. */
  lemma UpdateTrace(m: Settings, bk: Backend, w: World, desired: Agent, latest: Agent, paths: seq<Delta.Path>)
    requires CanUpdate(desired, latest, paths)
    ensures var outcome := UpdateOutcome(m, bk, w, desired, latest, paths);
            var plan := UpdatePlan(m, desired, latest, paths);
            var error := ExecuteError(bk, w, plan);
            && outcome.world == Execute(bk, w, plan)
            && IsTraceOf(w.log, outcome.world.log, plan, error)
            && (error.Some? ==> outcome.result == Err(error.value))
            && (error.None? && !NeedsUpdate(paths) ==> outcome.result == Ok(desired))
            && (error.None? && NeedsUpdate(paths) ==>
                  (outcome.result.Ok? <==> Codec.AllFit(Codec.Numbers(desired.spec))))
  {
    var first, last := FirstPlan(desired, latest, paths), FieldsPlan(m, desired, paths);
    ExecuteConcat(bk, w, first, last);
    ExecuteIsTrace(bk, w, first + last);
    AcceptedPayloadsIff(m.round, desired);
    if ExecuteError(bk, w, first).None? && NeedsUpdate(paths) {
      PutIsFieldsPlan(m, bk, Execute(bk, w, first), desired, paths);
    }
  }

  /** A spec that the payload builder refuses is never sent, neither by a creation nor by an update. */
  lemma RefusedSpecIsNotSent(m: Settings, bk: Backend, w: World, desired: Agent, latest: Agent, paths: seq<Delta.Path>)
    requires CanUpdate(desired, latest, paths) && !Codec.AllFit(Codec.Numbers(desired.spec))
    ensures CreateOutcome(m, bk, w, desired).world == w && CreateOutcome(m, bk, w, desired).result.Err?
    ensures forall call :: call in UpdatePlan(m, desired, latest, paths) ==> !call.UpdateAgent?
  {
    AcceptedPayloadsIff(m.round, desired);
  }

  // ----- What a read finds -----

  function KnownArn(w: World, a: Agent): string
    requires CanFind(w, a) && a.status.agentID.Some? && a.status.agentID.value in w.agents
  {
    var resp := w.agents[a.status.agentID.value];
    if resp.agentArn.Some? then resp.agentArn.value else a.status.metadata.value.arn.value
  }

  /** A read that succeeds makes two calls and returns what the remote agent and its tags decode to. */
  lemma WhatIsFound(cfg: Config, bk: Backend, w: World, a: Agent)
    requires CanFind(w, a)
    ensures var outcome := FindOutcome(cfg, bk, w, a);
            && outcome.world.agents == w.agents && outcome.world.tags == w.tags
            && (outcome.result.Ok? ==>
                  && a.status.agentID.Some? && a.status.agentID.value in w.agents && KnownArn(w, a) in w.tags
                  && var resp := w.agents[a.status.agentID.value];
                     var o := outcome.result.value;
                     && o.spec == Codec.DecodeFields(resp.fields, a.spec).(
                                    tags := Tags.FromTagMap(w.tags[KnownArn(w, a)]))
                     && o.status.agentID == resp.agentId && o.status.agentStatus == Codec.DecodeEnum(resp.agentStatus)
                     && HasArn(o) && o.status.metadata.value.arn == Some(KnownArn(w, a))
                     && ConditionSeq(o) == ConditionSeq(a))
  {
  }

  /** The conditions and the defaults are all that onError and onSuccess change. */
  lemma OnlyConditionsChange(cfg: Config, a: Agent, e: Error)
    ensures SameButConditions(AfterError(cfg, a, e), a) && SameButConditions(AfterSuccess(cfg, a), a)
    ensures ConditionSeq(AfterError(cfg, a, e)) == Updated(ConditionSeq(a), Some(e))
    ensures ConditionSeq(AfterSuccess(cfg, a)) == Updated(ConditionSeq(a), None)
  {
  }

  predicate SameButConditions(a: Agent, b: Agent) {
    && a.namespace == b.namespace && a.spec == b.spec
    && a.status.agentID == b.status.agentID && a.status.agentStatus == b.status.agentStatus
    && a.status.details == b.status.details
    && HasArn(a) == HasArn(b) && (HasArn(b) ==> a.status.metadata.value.arn == b.status.metadata.value.arn)
  }
}
