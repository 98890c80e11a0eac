/** What the operations of the resource manager answer, field by field: the resource that a read, a creation and an
    update return, next to the agent that the service has, the calls they make, and where their errors come from. */
module Answers {
  import opened Api
  import opened Conditions
  import opened Manager
  import opened Remote
  import opened Resources
  import Codec
  import Delta
  import DeltaNames
  import Payloads
  import Sdk
  import Tags
  import Wire

  // ----- An answer merged into a copy -----

  predicate AreAnsweredDetails(d: Details, x: Sdk.Details) {
    && d.agentVersion == x.agentVersion
    && d.clientToken == x.clientToken
    && d.createdAt == x.createdAt
    && Wire.AreReadTexts(d.failureReasons, x.failureReasons)
    && d.preparedAt == x.preparedAt
    && Wire.AreReadTexts(d.recommendedActions, x.recommendedActions)
    && d.updatedAt == x.updatedAt
  }

  /** The ARN of the answer, if it has one, and the configuration of the manager where nothing was known. */
  predicate IsAnsweredMetadata(cfg: Config, before: Option<ResourceMetadata>, arn: Option<string>,
                               after: Option<ResourceMetadata>)
  {
    var known := if before.Some? then before.value else ResourceMetadata(None, None, None, None);
    && after.Some?
    && after.value.arn == (if arn.Some? then arn else known.arn)
    && after.value.region == (if known.region.Some? then known.region else Some(cfg.region))
    && after.value.partition == (if known.partition.Some? then known.partition else Some(cfg.partition))
    && after.value.ownerAccountID == (if known.ownerAccountID.Some? then known.ownerAccountID else Some(cfg.accountID))
  }

  /** `o` is what the resource `a` becomes with the answer `resp`, apart from the tags. */
  ghost predicate IsAnswer(cfg: Config, a: Agent, resp: Sdk.Agent, o: Agent) {
    && o.namespace == a.namespace
    && Wire.AreRead(o.spec, resp.fields)
    && o.spec.agentResourceRoleRef == a.spec.agentResourceRoleRef
    && o.status.agentID == resp.agentId
    && Wire.IsReadEnum(o.status.agentStatus, resp.agentStatus)
    && AreAnsweredDetails(o.status.details, resp.details)
    && IsAnsweredMetadata(cfg, a.status.metadata, resp.agentArn, o.status.metadata)
    && o.status.conditions == Some(ConditionSeq(a))
  }

  lemma MergedIsAnswer(cfg: Config, a: Agent, resp: Sdk.Agent)
    ensures var o := Merged(cfg, a, resp);
            IsAnswer(cfg, a, resp, o) && o.spec == Codec.DecodeFields(resp.fields, a.spec) && o.spec.tags == a.spec.tags
  {
    var o := Merged(cfg, a, resp);
    Wire.ReadIff(o.spec, resp.fields, a.spec);
    Wire.TextsAreReadIff(o.status.details.failureReasons, resp.details.failureReasons);
    Wire.TextsAreReadIff(o.status.details.recommendedActions, resp.details.recommendedActions);
  }

  // ----- Reading -----

  predicate AreTagsOf(t: SpecTags, m: map<string, string>) {
    t.Some? && t.value.Keys == m.Keys && forall k :: k in m ==> t.value[k] == Some(m[k])
  }

  /** A read that succeeds returns the agent that the service has under the id, with the tags under its ARN. */
  lemma FoundAnswer(cfg: Config, bk: Backend, w: World, a: Agent)
    requires CanFind(w, a) && FindOutcome(cfg, bk, w, a).result.Ok?
    ensures var o := FindOutcome(cfg, bk, w, a).result.value;
            && a.status.agentID.Some? && a.status.agentID.value in w.agents
            && var resp := w.agents[a.status.agentID.value];
               && IsAnswer(cfg, a, resp, o)
               && o.spec == Codec.DecodeFields(resp.fields, a.spec).(tags := o.spec.tags)
               && o.status.metadata.value.arn.Some? && o.status.metadata.value.arn.value in w.tags
               && AreTagsOf(o.spec.tags, w.tags[o.status.metadata.value.arn.value])
  {
    MergedIsAnswer(cfg, a, w.agents[a.status.agentID.value]);
  }

  /** The calls of a read, and its error: an error of GetAgent that wraps a ResourceNotFoundException, however often, is
      NotFound, and every other error is returned as it is. */
  lemma FindSteps(cfg: Config, bk: Backend, w: World, a: Agent)
    requires CanFind(w, a)
    ensures var outcome := FindOutcome(cfg, bk, w, a);
            var get := GetAgent(a.status.agentID);
            var failure := Failure(bk, w, get);
            if a.status.agentID.None? then outcome == Outcome(w, Err(NotFound))
            else if failure.Some? then
              && outcome.world == w.(log := w.log + [Remote.Event(get, failure)])
              && outcome.result
                 == Err(if WrapsCode(failure.value, "ResourceNotFoundException") then NotFound else failure.value)
            else
              var w1 := w.(log := w.log + [Remote.Event(get, None)]);
              var arn := w.agents[a.status.agentID.value].agentArn;
              var list := ListTagsForResource(if arn.Some? then arn.value else a.status.metadata.value.arn.value);
              var failure1 := Failure(bk, w1, list);
              && outcome.world == w1.(log := w1.log + [Remote.Event(list, failure1)])
              && if failure1.Some? then outcome.result == Err(failure1.value) else outcome.result.Ok?
  {
    if a.status.agentID.Some? {
      var failure := Failure(bk, w, GetAgent(a.status.agentID));
      if failure.Some? {
        ApiCodeIff(failure.value, "ResourceNotFoundException");
      }
    }
  }

  // ----- Creating -----

  /** A creation that succeeds has sent the spec and its tags, and returns the agent that the service has made. */
  lemma CreatedAnswer(m: Settings, bk: Backend, w: World, a: Agent)
    requires NoNilElements(a.spec) && CreateOutcome(m, bk, w, a).result.Ok?
    ensures var outcome := CreateOutcome(m, bk, w, a);
            var id, arn := bk.newId(|w.log|), bk.newArn(|w.log|);
            && id in outcome.world.agents && arn in outcome.world.tags
            && var resp, o := outcome.world.agents[id], outcome.result.value;
               && IsAnswer(m.cfg, a, resp, o)
               && o.spec == Codec.DecodeFields(resp.fields, a.spec) && o.spec.tags == a.spec.tags
               && resp.agentId == Some(id) && resp.agentArn == Some(arn) && resp.agentStatus == "NOT_PREPARED"
               && Wire.AreSent(m.round, a.spec, resp.fields)
  {
    var payload := Payloads.CreatePayload(m.round, a.spec);
    Wire.SentIff(m.round, a.spec, payload.value.fields);
    MergedIsAnswer(m.cfg, a, CreateOutcome(m, bk, w, a).world.agents[bk.newId(|w.log|)]);
  }

  lemma CreatedTag(m: Settings, bk: Backend, w: World, a: Agent, k: string)
    requires NoNilElements(a.spec) && CreateOutcome(m, bk, w, a).result.Ok?
    ensures var tags := CreateOutcome(m, bk, w, a).world.tags;
            var arn := bk.newArn(|w.log|);
            && arn in tags
            && (k in tags[arn] <==> Tags.Has(a.spec.tags, k))
            && (k in tags[arn] ==> tags[arn][k] == Tags.ValueOf(a.spec.tags, k))
  {
  }

  /** The one call of a creation, and its error: that of the call, or the first number that does not fit. */
  lemma CreateSteps(m: Settings, bk: Backend, w: World, a: Agent)
    requires NoNilElements(a.spec)
    ensures var outcome := CreateOutcome(m, bk, w, a);
            var checks := Wire.SpecChecks(a.spec);
            if exists c :: c in checks && !Wire.Passes(c) then
              outcome.world == w && Wire.IsDecidedBy(outcome.result, checks)
            else
              exists input: Sdk.CreateAgentInput ::
                && Wire.AreSent(m.round, a.spec, input.fields)
                && outcome.world == After(bk, w, CreateAgent(input))
                && (outcome.result.Err? <==> Failure(bk, w, CreateAgent(input)).Some?)
                && (outcome.result.Err? ==> Some(outcome.result.error) == Failure(bk, w, CreateAgent(input)))
  {
    var payload := Payloads.CreatePayload(m.round, a.spec);
    Wire.FirstRefusal(m.round, a.spec);
    if payload.Ok? {
      Wire.SentIff(m.round, a.spec, payload.value.fields);
      assert Wire.AreSent(m.round, a.spec, payload.value.fields);
    }
  }

  // ----- Updating -----

  /** An update of the fields that succeeds has sent the spec, and returns the agent that the service has afterwards. */
  lemma UpdatedAnswer(m: Settings, bk: Backend, w: World, desired: Agent, latest: Agent, paths: seq<Delta.Path>)
    requires CanUpdate(desired, latest, paths) && UpdateOutcome(m, bk, w, desired, latest, paths).result.Ok?
    requires exists i :: 0 <= i < |paths| && paths[i] != Delta.AtAgentStatus && paths[i] != Delta.AtTags
    ensures var outcome := UpdateOutcome(m, bk, w, desired, latest, paths);
            && desired.status.agentID.Some? && desired.status.agentID.value in outcome.world.agents
            && var resp, o := outcome.world.agents[desired.status.agentID.value], outcome.result.value;
               && IsAnswer(m.cfg, desired, resp, o)
               && o.spec == Codec.DecodeFields(resp.fields, desired.spec) && o.spec.tags == desired.spec.tags
               && resp.agentStatus == "NOT_PREPARED" && Wire.AreSent(m.round, desired.spec, resp.fields)
  {
    DeltaNames.QuestionsIff(paths);
    PutAnswer(m, bk, Execute(bk, w, FirstPlan(desired, latest, paths)), desired);
  }

  lemma PutAnswer(m: Settings, bk: Backend, w: World, desired: Agent)
    requires NoNilElements(desired.spec) && PutOutcome(m, bk, w, desired).result.Ok?
    ensures var outcome := PutOutcome(m, bk, w, desired);
            && desired.status.agentID.Some? && desired.status.agentID.value in outcome.world.agents
            && var resp, o := outcome.world.agents[desired.status.agentID.value], outcome.result.value;
               && IsAnswer(m.cfg, desired, resp, o)
               && o.spec == Codec.DecodeFields(resp.fields, desired.spec) && o.spec.tags == desired.spec.tags
               && resp.agentStatus == "NOT_PREPARED" && Wire.AreSent(m.round, desired.spec, resp.fields)
  {
    var payload := Payloads.UpdatePayload(m.round, desired);
    Wire.SentIff(m.round, desired.spec, payload.value.fields);
    MergedIsAnswer(m.cfg, desired, PutOutcome(m, bk, w, desired).world.agents[desired.status.agentID.value]);
  }

  /** An update of no more than the status and the tags returns the desired resource. */
  lemma NothingElseIsUpdated(m: Settings, bk: Backend, w: World, desired: Agent, latest: Agent, paths: seq<Delta.Path>)
    requires CanUpdate(desired, latest, paths) && UpdateOutcome(m, bk, w, desired, latest, paths).result.Ok?
    requires forall i :: 0 <= i < |paths| ==> paths[i] == Delta.AtAgentStatus || paths[i] == Delta.AtTags
    ensures UpdateOutcome(m, bk, w, desired, latest, paths).result.value == desired
  {
    DeltaNames.QuestionsIff(paths);
  }

  /** The calls of an update: for the agent of the desired resource, for the ARN of the latest one, and with the desired
      tags and fields. */
  lemma PlannedCall(m: Settings, desired: Agent, latest: Agent, paths: seq<Delta.Path>, call: Call, k: string)
    requires CanUpdate(desired, latest, paths) && call in UpdatePlan(m, desired, latest, paths)
    ensures match call
            case PrepareAgent(id) => Delta.AtAgentStatus in paths && desired.status.agentID == Some(id)
            case UntagResource(arn, keys) =>
              && Delta.AtTags in paths && HasArn(latest) && latest.status.metadata.value.arn == Some(arn)
              && (k in keys <==> Tags.NeedsUntag(desired.spec.tags, latest.spec.tags, k))
            case TagResource(arn, tags) =>
              && Delta.AtTags in paths && HasArn(latest) && latest.status.metadata.value.arn == Some(arn)
              && (k in tags <==> Tags.NeedsTag(desired.spec.tags, latest.spec.tags, k))
              && (k in tags ==> tags[k] == Tags.ValueOf(desired.spec.tags, k))
            case UpdateAgent(input) =>
              && (exists i :: 0 <= i < |paths| && paths[i] != Delta.AtAgentStatus && paths[i] != Delta.AtTags)
              && input.agentId == desired.status.agentID && Wire.AreSent(m.round, desired.spec, input.fields)
            case _ => false
  {
    DeltaNames.QuestionsIff(paths);
    if call in TagsPlan(desired, latest, paths) {
      Tags.CallByKey(latest.status.metadata.value.arn.value, desired.spec.tags, latest.spec.tags, call, k);
    } else if call in FieldsPlan(m, desired, paths) {
      Wire.SentIff(m.round, desired.spec, call.update.fields);
    }
  }

  ghost predicate Prepares(plan: seq<Call>) {
    exists call :: call in plan && call.PrepareAgent?
  }

  ghost predicate Untags(plan: seq<Call>) {
    exists call :: call in plan && call.UntagResource?
  }

  ghost predicate SetsTags(plan: seq<Call>) {
    exists call :: call in plan && call.TagResource?
  }

  ghost predicate Updates(plan: seq<Call>) {
    exists call :: call in plan && call.UpdateAgent?
  }

  lemma PlansInParts(p: seq<Call>, q: seq<Call>)
    ensures Prepares(p + q) <==> Prepares(p) || Prepares(q)
    ensures Untags(p + q) <==> Untags(p) || Untags(q)
    ensures SetsTags(p + q) <==> SetsTags(p) || SetsTags(q)
    ensures Updates(p + q) <==> Updates(p) || Updates(q)
  {
    assert forall call :: call in p + q <==> call in p || call in q;
  }

  lemma PreparePlanIff(desired: Agent, paths: seq<Delta.Path>)
    requires Delta.DifferentAt(paths, Delta.AtAgentStatus) ==> desired.status.agentID.Some?
    ensures var plan := PreparePlan(desired, paths);
            && (Prepares(plan) <==> Delta.DifferentAt(paths, Delta.AtAgentStatus))
            && !Untags(plan) && !SetsTags(plan) && !Updates(plan)
  {
    if Delta.DifferentAt(paths, Delta.AtAgentStatus) {
      assert PreparePlan(desired, paths)[0].PrepareAgent?;
    }
  }

  lemma TagPlanIff(arn: string, d: SpecTags, l: SpecTags)
    ensures var plan := Tags.TagPlan(arn, d, l);
            && (Untags(plan) <==> exists k :: Tags.NeedsUntag(d, l, k))
            && (SetsTags(plan) <==> exists k :: Tags.NeedsTag(d, l, k))
            && !Prepares(plan) && !Updates(plan)
  {
    Tags.CallsAreMadeIff(arn, d, l);
    forall call | call in Tags.TagPlan(arn, d, l) ensures !call.PrepareAgent? && !call.UpdateAgent? {
      Tags.CallByKey(arn, d, l, call, "");
    }
  }

  lemma TagsPlanIff(desired: Agent, latest: Agent, paths: seq<Delta.Path>)
    requires Delta.DifferentAt(paths, Delta.AtTags) ==> HasArn(latest)
    ensures var plan, d, l := TagsPlan(desired, latest, paths), desired.spec.tags, latest.spec.tags;
            && (Untags(plan) <==> Delta.DifferentAt(paths, Delta.AtTags) && exists k :: Tags.NeedsUntag(d, l, k))
            && (SetsTags(plan) <==> Delta.DifferentAt(paths, Delta.AtTags) && exists k :: Tags.NeedsTag(d, l, k))
            && !Prepares(plan) && !Updates(plan)
  {
    if Delta.DifferentAt(paths, Delta.AtTags) {
      TagPlanIff(latest.status.metadata.value.arn.value, desired.spec.tags, latest.spec.tags);
    }
  }

  lemma FieldsPlanIff(m: Settings, desired: Agent, paths: seq<Delta.Path>)
    requires NoNilElements(desired.spec)
    ensures var plan := FieldsPlan(m, desired, paths);
            && (Updates(plan)
                <==> NeedsUpdate(paths) && forall c :: c in Wire.SpecChecks(desired.spec) ==> Wire.Passes(c))
            && !Prepares(plan) && !Untags(plan) && !SetsTags(plan)
  {
    var payload := Payloads.UpdatePayload(m.round, desired);
    Wire.AcceptedIff(m.round, desired.spec);
    if NeedsUpdate(paths) && payload.Ok? {
      assert FieldsPlan(m, desired, paths)[0].UpdateAgent?;
    }
  }

  /** Each call is planned iff the delta asks for it and there is something to send. */
  lemma PlannedIff(m: Settings, desired: Agent, latest: Agent, paths: seq<Delta.Path>)
    requires CanUpdate(desired, latest, paths)
    ensures var plan, d, l := UpdatePlan(m, desired, latest, paths), desired.spec.tags, latest.spec.tags;
            && (Prepares(plan) <==> Delta.AtAgentStatus in paths)
            && (Untags(plan) <==> Delta.AtTags in paths && exists k :: Tags.NeedsUntag(d, l, k))
            && (SetsTags(plan) <==> Delta.AtTags in paths && exists k :: Tags.NeedsTag(d, l, k))
            && (Updates(plan)
                <==> && (exists i :: 0 <= i < |paths| && paths[i] != Delta.AtAgentStatus && paths[i] != Delta.AtTags)
                     && forall c :: c in Wire.SpecChecks(desired.spec) ==> Wire.Passes(c))
  {
    var prepare, tags := PreparePlan(desired, paths), TagsPlan(desired, latest, paths);
    PlansInParts(prepare + tags, FieldsPlan(m, desired, paths));
    PlansInParts(prepare, tags);
    PreparePlanIff(desired, paths);
    TagsPlanIff(desired, latest, paths);
    FieldsPlanIff(m, desired, paths);
    DeltaNames.QuestionsIff(paths);
  }

  /** When no call fails, an update fails only for a number that does not fit, the first one of the spec. */
  lemma UpdateRefusal(m: Settings, bk: Backend, w: World, desired: Agent, latest: Agent, paths: seq<Delta.Path>)
    requires CanUpdate(desired, latest, paths)
    requires ExecuteError(bk, w, UpdatePlan(m, desired, latest, paths)).None?
    requires exists i :: 0 <= i < |paths| && paths[i] != Delta.AtAgentStatus && paths[i] != Delta.AtTags
    ensures Wire.IsDecidedBy(UpdateOutcome(m, bk, w, desired, latest, paths).result, Wire.SpecChecks(desired.spec))
  {
    var first, last := FirstPlan(desired, latest, paths), FieldsPlan(m, desired, paths);
    ExecuteConcat(bk, w, first, last);
    DeltaNames.QuestionsIff(paths);
    Wire.FirstRefusal(m.round, desired.spec);
    PutIsFieldsPlan(m, bk, Execute(bk, w, first), desired, paths);
  }

  // ----- Recording how it went -----

  /** `o` is `a` with these conditions and the defaults. */
  predicate IsRecord(cfg: Config, a: Agent, conds: seq<Condition>, o: Agent) {
    && o.namespace == a.namespace && o.spec == a.spec
    && o.status.agentID == a.status.agentID && o.status.agentStatus == a.status.agentStatus
    && o.status.details == a.status.details
    && IsAnsweredMetadata(cfg, a.status.metadata, None, o.status.metadata)
    && o.status.conditions == Some(conds)
  }

  /** What a method of the manager returns for the outcome of its operation: an error is recorded on the fallback. A
      success is recorded on what was answered, unless that has none of the three conditions. */
  predicate IsConclusion(cfg: Config, fallback: Agent, outcome: Outcome<Agent>, end: Conclusion) {
    && end.world == outcome.world
    && match outcome.result
       case Ok(o) =>
         && end.error.None?
         && var conds := ConditionSeq(o);
            if HasNone(conds, TerminalCondition) && HasNone(conds, Recoverable) && HasNone(conds, ResourceSynced)
            then end.returned == o
            else IsRecord(cfg, o, Updated(conds, None), end.returned)
       case Err(e) =>
         && end.error == Some(OnErrorResult(ConditionSeq(fallback), e))
         && IsRecord(cfg, fallback, Updated(ConditionSeq(fallback), Some(e)), end.returned)
  }

  lemma ConcludedIsConclusion(cfg: Config, fallback: Agent, outcome: Outcome<Agent>)
    ensures IsConclusion(cfg, fallback, outcome, Concluded(cfg, fallback, outcome))
  {
  }

  /** ReadOne and Create fall back to the resource that they are given. */
  lemma ReadAndCreateConclude(m: Settings, bk: Backend, w: World, a: Agent)
    ensures CanFind(w, a) ==> IsConclusion(m.cfg, a, FindOutcome(m.cfg, bk, w, a), Read(m.cfg, bk, w, a))
    ensures NoNilElements(a.spec) ==> IsConclusion(m.cfg, a, CreateOutcome(m, bk, w, a), Creating(m, bk, w, a))
  {
    if CanFind(w, a) {
      ConcludedIsConclusion(m.cfg, a, FindOutcome(m.cfg, bk, w, a));
    }
    if NoNilElements(a.spec) {
      ConcludedIsConclusion(m.cfg, a, CreateOutcome(m, bk, w, a));
    }
  }

  /** Update falls back to the latest resource, not to the desired one. */
  lemma UpdateConcludes(m: Settings, bk: Backend, w: World, desired: Agent, latest: Agent, paths: seq<Delta.Path>)
    requires CanUpdate(desired, latest, paths)
    ensures IsConclusion(m.cfg, latest, UpdateOutcome(m, bk, w, desired, latest, paths),
                         Updating(m, bk, w, desired, latest, paths))
  {
    ConcludedIsConclusion(m.cfg, latest, UpdateOutcome(m, bk, w, desired, latest, paths));
  }

  /** IsSynced looks for this status alone. */
  lemma IsPreparedIff(a: Agent)
    ensures IsPrepared(a) <==> a.status.agentStatus.Some? && a.status.agentStatus.value == "PREPARED"
  {
  }

  /** Reading mirrors the `aws:` tags that it found into the resource that it is given, and writes nothing else. */
  lemma MirroredInput(cfg: Config, bk: Backend, w: World, a: Agent, k: string)
    requires CanFind(w, a)
    ensures var found, after := FindOutcome(cfg, bk, w, a).result, ReadInput(cfg, bk, w, a);
            && after == a.(spec := a.spec.(tags := after.spec.tags))
            && (found.Err? ==> after == a)
            && (found.Ok? ==>
                  var t, mirrored := a.spec.tags, after.spec.tags;
                  var own := "aws:" <= k && Tags.Has(found.value.spec.tags, k);
                  && (Tags.Has(mirrored, k) <==> Tags.Has(t, k) || own)
                  && (Tags.Has(mirrored, k) ==>
                        mirrored.value[k] == Some(if own then Tags.ValueOf(found.value.spec.tags, k)
                                                  else Tags.ValueOf(t, k))))
  {
    var found := FindOutcome(cfg, bk, w, a).result;
    if found.Ok? {
      Tags.MirroredKey(a.spec.tags, found.value.spec.tags, k);
    }
  }
}
