/** Convergence: what is left to do for an agent, how each successful write shrinks it, how many writes a run can make
    and that two rounds without failures leave nothing to do. */
module Convergence {
  import opened Api
  import opened Manager
  import opened Reconcile
  import opened Remote
  import Agreement
  import Codec
  import Delta
  import Sdk
  import Tags

  /** The user's spec and the agent that it has become. */
  datatype Goal = Goal(m: Settings, spec: AgentSpec, id: string, arn: string)

  /** Nothing that is dereferenced while the spec is sent, read back and compared is nil. */
  ghost predicate IsSafe(g: Goal) {
    NoNilElements(g.spec) && ModesSet(g.spec)
  }

  ghost predicate IsAccepted(g: Goal)
    requires IsSafe(g)
  {
    Codec.EncodeSpec(g.m.round, g.spec).Ok?
  }

  /** Sending the spec makes the remote spec agree with it. */
  ghost predicate IsAgreeable(g: Goal)
    requires IsSafe(g)
  {
    IsAccepted(g) && Agreement.Survives(g.m.round, g.spec)
  }

  predicate Tracks(g: Goal, w: World) {
    IsBound(w, g.id) && w.agents[g.id].agentArn == Some(g.arn)
  }

  // ----- What is left to do -----

  function RemoteSpec(g: Goal, w: World): AgentSpec
    requires Tracks(g, w)
  {
    Codec.DecodeFields(w.agents[g.id].fields, g.spec)
  }

  ghost predicate SpecDiffers(g: Goal, w: World)
    requires Tracks(g, w)
  {
    exists p :: IsFieldPath(p) && Delta.Differs(g.m.sameStrings, g.spec, RemoteSpec(g, w), p)
  }

  predicate IsFieldPath(p: Delta.Path) {
    !p.AtAgentStatus? && !p.AtTags?
  }

  /** The user's tags and the `aws:` tags that the agent has. */
  function TargetTags(g: Goal, w: World): Tags.TagMap
    requires Tracks(g, w)
  {
    Tags.Mirror(Tags.Normalize(g.spec.tags), w.tags[g.arn])
  }

  function StatusOf(g: Goal, w: World): string
    requires Tracks(g, w)
  {
    w.agents[g.id].agentStatus
  }

  /** A status that the detector reports; it takes no notice of an empty one. */
  predicate IsUnprepared(g: Goal, w: World)
    requires Tracks(g, w)
  {
    StatusOf(g, w) != PREPARED && StatusOf(g, w) != ""
  }

  /** The spec differs, and the payload builder does not refuse it. */
  ghost predicate UpdateIsLeft(g: Goal, w: World)
    requires Tracks(g, w) && IsSafe(g)
  {
    SpecDiffers(g, w) && IsAccepted(g)
  }

  /** If there is an update to make, it is the last one. */
  ghost predicate IsTame(g: Goal, w: World)
    requires Tracks(g, w) && IsSafe(g)
  {
    UpdateIsLeft(g, w) ==> IsAgreeable(g)
  }

  datatype Measure = Measure(spec: nat, tags: nat, status: nat)

  predicate Less(x: Measure, y: Measure) {
    x.spec < y.spec || (x.spec == y.spec && (x.tags < y.tags || (x.tags == y.tags && x.status < y.status)))
  }

  ghost function MeasureOf(g: Goal, w: World): Measure
    requires Tracks(g, w)
  {
    Measure(if SpecDiffers(g, w) then 1 else 0,
            |Tags.DiffKeys(w.tags[g.arn], TargetTags(g, w))|,
            if IsUnprepared(g, w) then 1 else 0)
  }

  /** How often each kind of write can still succeed if updates are tame. An update undoes the preparation once. */
  ghost function Budget(g: Goal, w: World, k: Kind): nat
    requires Tracks(g, w) && IsSafe(g)
  {
    match k
    case UpdateKind => if UpdateIsLeft(g, w) then 1 else 0
    case UntagKind => if Tags.Removed(w.tags[g.arn], TargetTags(g, w)) != map[] then 1 else 0
    case TagKind => if Tags.Added(w.tags[g.arn], TargetTags(g, w)) != map[] then 1 else 0
    case PrepareKind => (if IsUnprepared(g, w) then 1 else 0) + (if UpdateIsLeft(g, w) then 1 else 0)
    case _ => 0
  }

  // ----- One write -----

  /** The writes that make sense in a world: each does something that is left to do. */
  ghost predicate IsUseful(g: Goal, w: World, call: Call)
    requires Tracks(g, w) && IsSafe(g)
  {
    var from, to := w.tags[g.arn], TargetTags(g, w);
    match call
    case PrepareAgent(id) => id == g.id && IsUnprepared(g, w)
    case UntagResource(arn, keys) =>
      arn == g.arn && keys == Tags.Removed(from, to).Keys && Tags.Removed(from, to) != map[]
    case TagResource(arn, tags) =>
      arn == g.arn && tags == Tags.Added(from, to) && tags != map[] && Tags.Removed(from, to) == map[]
    case UpdateAgent(input) =>
      input.agentId == Some(g.id) && Codec.EncodeSpec(g.m.round, g.spec) == Api.Ok(input.fields) && SpecDiffers(g, w)
    case _ => false
  }

  lemma SmallerSet<T>(x: set<T>, y: set<T>)
    requires x < y
    ensures |x| < |y|
  {
    assert y == x + (y - x);
    assert y - x != {};
  }

  lemma UntagKeepsMirror(d: Tags.TagMap, remote: Tags.TagMap)
    ensures var to := Tags.Mirror(d, remote);
            Tags.Mirror(d, remote - Tags.Removed(remote, to).Keys) == to
  {
  }

  lemma UntagLeavesAdded(remote: Tags.TagMap, to: Tags.TagMap)
    ensures var rest := remote - Tags.Removed(remote, to).Keys;
            Tags.Removed(rest, to) == map[] && Tags.Added(rest, to) == Tags.Added(remote, to)
  {
  }

  /** Untagging keeps the target, and only the tags to add are left. */
  lemma UntagKeepsTarget(d: Tags.TagMap, remote: Tags.TagMap)
    ensures var to := Tags.Mirror(d, remote);
            var rest := remote - Tags.Removed(remote, to).Keys;
            && Tags.Mirror(d, rest) == to && Tags.Removed(rest, to) == map[]
            && Tags.Added(rest, to) == Tags.Added(remote, to)
  {
    UntagKeepsMirror(d, remote);
    UntagLeavesAdded(remote, Tags.Mirror(d, remote));
  }

  lemma UntagComesCloser(remote: Tags.TagMap, to: Tags.TagMap)
    requires Tags.Removed(remote, to) != map[]
    ensures |Tags.DiffKeys(remote - Tags.Removed(remote, to).Keys, to)| < |Tags.DiffKeys(remote, to)|
  {
    var rest := remote - Tags.Removed(remote, to).Keys;
    var k :| k in Tags.Removed(remote, to);
    assert k in Tags.DiffKeys(remote, to) && k !in Tags.DiffKeys(rest, to);
    SmallerSet(Tags.DiffKeys(rest, to), Tags.DiffKeys(remote, to));
  }

  lemma TargetIsFixed(d: Tags.TagMap, remote: Tags.TagMap)
    ensures var to := Tags.Mirror(d, remote);
            && Tags.Mirror(d, to) == to && Tags.Removed(to, to) == map[] && Tags.Added(to, to) == map[]
            && Tags.DiffKeys(to, to) == {}
  {
  }

  lemma TagReaches(remote: Tags.TagMap, to: Tags.TagMap)
    requires Tags.Removed(remote, to) == map[]
    ensures remote + Tags.Added(remote, to) == to
    ensures Tags.Added(remote, to) != map[] ==> |Tags.DiffKeys(remote, to)| > 0
  {
    forall k | k in remote ensures k in to {
      assert k !in Tags.Removed(remote, to);
    }
    if Tags.Added(remote, to) != map[] {
      var k :| k in Tags.Added(remote, to);
      assert k in Tags.DiffKeys(remote, to);
    }
  }

  /** What one successful write does to the measure and to the budgets. */
  ghost predicate Shrinks(g: Goal, w: World, w': World)
    requires Tracks(g, w) && Tracks(g, w') && IsSafe(g)
  {
    && Less(MeasureOf(g, w'), MeasureOf(g, w))
    && forall k :: k != ReadKind ==> Spent(g, w', k) <= Spent(g, w, k)
  }

  /** The writes of a kind so far and those that can still come. */
  ghost function Spent(g: Goal, w: World, k: Kind): nat
    requires Tracks(g, w) && IsSafe(g)
  {
    Count(w.log, k) + Budget(g, w, k)
  }

  lemma BudgetIsSpent(g: Goal, bk: Backend, w: World, call: Call)
    requires Tracks(g, w) && Tracks(g, After(bk, w, call)) && IsSafe(g) && Failure(bk, w, call).None?
    requires forall k :: k != ReadKind ==>
               Budget(g, After(bk, w, call), k) + (if KindOf(call) == k then 1 else 0) <= Budget(g, w, k)
    ensures forall k :: k != ReadKind ==> Spent(g, After(bk, w, call), k) <= Spent(g, w, k)
  {
  }

  lemma PrepareShrinks(g: Goal, bk: Backend, w: World, call: Call)
    requires Tracks(g, w) && IsSafe(g) && IsUseful(g, w, call) && call.PrepareAgent? && Failure(bk, w, call).None?
    ensures Tracks(g, After(bk, w, call)) && Shrinks(g, w, After(bk, w, call))
  {
  }

  lemma TagCallEffect(g: Goal, bk: Backend, w: World, call: Call)
    requires Tracks(g, w) && Failure(bk, w, call).None?
    requires (call.UntagResource? && call.untagArn == g.arn) || (call.TagResource? && call.tagArn == g.arn)
    ensures var w' := After(bk, w, call);
            && Tracks(g, w') && w'.agents == w.agents
            && w'.tags[g.arn] == (if call.UntagResource? then w.tags[g.arn] - call.keys else w.tags[g.arn] + call.tags)
            && StatusOf(g, w') == StatusOf(g, w) && SpecDiffers(g, w') == SpecDiffers(g, w)
  {
  }

  lemma UntagSpends(g: Goal, bk: Backend, w: World, call: Call, k: Kind)
    requires Tracks(g, w) && IsSafe(g) && IsUseful(g, w, call) && call.UntagResource? && Failure(bk, w, call).None?
    requires k != ReadKind
    ensures Tracks(g, After(bk, w, call))
    ensures Budget(g, After(bk, w, call), k) + (if k == UntagKind then 1 else 0) <= Budget(g, w, k)
  {
    TagCallEffect(g, bk, w, call);
    UntagKeepsTarget(Tags.Normalize(g.spec.tags), w.tags[g.arn]);
  }

  lemma UntagShrinks(g: Goal, bk: Backend, w: World, call: Call)
    requires Tracks(g, w) && IsSafe(g) && IsUseful(g, w, call) && call.UntagResource? && Failure(bk, w, call).None?
    ensures Tracks(g, After(bk, w, call)) && Shrinks(g, w, After(bk, w, call))
  {
    TagCallEffect(g, bk, w, call);
    UntagKeepsTarget(Tags.Normalize(g.spec.tags), w.tags[g.arn]);
    UntagComesCloser(w.tags[g.arn], TargetTags(g, w));
    forall k | k != ReadKind
      ensures Budget(g, After(bk, w, call), k) + (if KindOf(call) == k then 1 else 0) <= Budget(g, w, k)
    {
      UntagSpends(g, bk, w, call, k);
    }
    BudgetIsSpent(g, bk, w, call);
  }

  lemma TagShrinks(g: Goal, bk: Backend, w: World, call: Call)
    requires Tracks(g, w) && IsSafe(g) && IsUseful(g, w, call) && call.TagResource? && Failure(bk, w, call).None?
    ensures Tracks(g, After(bk, w, call)) && Shrinks(g, w, After(bk, w, call))
  {
    TagCallEffect(g, bk, w, call);
    TagReaches(w.tags[g.arn], TargetTags(g, w));
    TargetIsFixed(Tags.Normalize(g.spec.tags), w.tags[g.arn]);
    BudgetIsSpent(g, bk, w, call);
  }

  /** Nothing differs iff the canonical specs are equal: neither the status nor the tags are fields. */
  lemma SpecDiffersIff(g: Goal, w: World)
    requires Tracks(g, w)
    ensures SpecDiffers(g, w)
            <==> Delta.Canonical(g.m.sameStrings, RemoteSpec(g, w)) != Delta.Canonical(g.m.sameStrings, g.spec)
  {
    Delta.AgreeIffSameCanonical(g.m.sameStrings, g.spec, RemoteSpec(g, w));
    if !SpecDiffers(g, w) {
      forall p ensures !Delta.Differs(g.m.sameStrings, g.spec, RemoteSpec(g, w), p) {
        assert IsFieldPath(p) || p.AtAgentStatus? || p.AtTags?;
      }
    }
  }

  /** A spec that has been stored still differs iff it does not survive being sent. */
  lemma StoredSpecDiffersIff(g: Goal, w: World)
    requires Tracks(g, w) && IsSafe(g) && Codec.EncodeSpec(g.m.round, g.spec) == Api.Ok(w.agents[g.id].fields)
    ensures SpecDiffers(g, w) <==> !Agreement.Survives(g.m.round, g.spec)
  {
    SpecDiffersIff(g, w);
    Agreement.PayloadAgreesIff(g.m.round, g.m.sameStrings, g.spec);
  }

  /** In normal form not even a field that the detector skips is lost. */
  lemma StoredSpecAgrees(g: Goal, w: World)
    requires Tracks(g, w) && Codec.NormalForm(g.m.round, g.spec)
    requires Codec.EncodeSpec(g.m.round, g.spec) == Api.Ok(w.agents[g.id].fields)
    ensures RemoteSpec(g, w) == g.spec && !SpecDiffers(g, w)
  {
    Agreement.NormalFormSurvives(g.m.round, g.spec);
    Codec.RoundTripIffFaithful(g.m.round, g.spec, g.spec);
    StoredSpecDiffersIff(g, w);
  }

  predicate HasEmptyEnum(p: PromptConfiguration) {
    || p.parserMode == Some("") || p.promptCreationMode == Some("")
    || p.promptState == Some("") || p.promptType == Some("")
  }

  /** An enum that the detector looks at is present and empty. */
  ghost predicate ComparesEmptyEnum(s: AgentSpec) {
    || s.agentCollaboration == Some("") || s.orchestrationType == Some("")
    || exists i :: 0 <= i < |Prompts(s)| && Delta.IsLive(Prompts(s)[i]) && HasEmptyEnum(Prompts(s)[i].value)
  }

  lemma DecodedPromptsHaveNoEmptyEnum(g: Goal, w: World, p: Option<PromptConfiguration>)
    requires Tracks(g, w) && p in Delta.Live(Prompts(RemoteSpec(g, w)))
    ensures p.Some? && !HasEmptyEnum(p.value)
  {
    var ps := Prompts(RemoteSpec(g, w));
    var i :| 0 <= i < |ps| && ps[i] == p;
    var xs := w.agents[g.id].fields.promptOverride.value.promptConfigurations.value;
    assert ps[i] == Some(Codec.DecodePrompt(xs[i]));
  }

  lemma {:induction false} LiveHas(ps: seq<Option<PromptConfiguration>>, i: nat)
    requires i < |ps| && Delta.IsLive(ps[i])
    ensures ps[i] in Delta.Live(ps)
  {
    var n := |ps| - 1;
    if i < n {
      LiveHas(ps[..n], i);
    }
  }

  /** A compared enum that is present and empty never agrees, whatever is stored: it is read back as nil. */
  lemma EmptyEnumNeverAgrees(g: Goal, w: World)
    requires Tracks(g, w) && ComparesEmptyEnum(g.spec)
    ensures SpecDiffers(g, w)
  {
    SpecDiffersIff(g, w);
    if !SpecDiffers(g, w) {
      var i :| 0 <= i < |Prompts(g.spec)| && Delta.IsLive(Prompts(g.spec)[i]) && HasEmptyEnum(Prompts(g.spec)[i].value);
      LiveHas(Prompts(g.spec), i);
      assert Delta.CanonicalOverride(RemoteSpec(g, w)) == Delta.CanonicalOverride(g.spec);
      DecodedPromptsHaveNoEmptyEnum(g, w, Prompts(g.spec)[i]);
    }
  }

  lemma UpdateEffect(g: Goal, bk: Backend, w: World, call: Call)
    requires Tracks(g, w) && IsSafe(g) && IsUseful(g, w, call) && call.UpdateAgent? && Failure(bk, w, call).None?
    ensures var w' := After(bk, w, call);
            && Tracks(g, w') && w'.tags == w.tags && StatusOf(g, w') == NOT_PREPARED
            && (SpecDiffers(g, w') <==> !IsAgreeable(g))
  {
    EncodedModesIff(g.m.round, g.spec);
    StoredSpecDiffersIff(g, After(bk, w, call));
  }

  lemma UpdateShrinks(g: Goal, bk: Backend, w: World, call: Call)
    requires Tracks(g, w) && IsSafe(g) && IsUseful(g, w, call) && call.UpdateAgent? && Failure(bk, w, call).None?
    requires IsAgreeable(g)
    ensures Tracks(g, After(bk, w, call)) && Shrinks(g, w, After(bk, w, call))
  {
    UpdateEffect(g, bk, w, call);
    BudgetIsSpent(g, bk, w, call);
  }

  /** Every successful useful write strictly decreases the measure and uses up a budget. */
  lemma UsefulWriteShrinks(g: Goal, bk: Backend, w: World, call: Call)
    requires Tracks(g, w) && IsSafe(g) && IsTame(g, w) && IsUseful(g, w, call) && Failure(bk, w, call).None?
    ensures Tracks(g, After(bk, w, call)) && Shrinks(g, w, After(bk, w, call))
  {
    match call
    case PrepareAgent(_) => PrepareShrinks(g, bk, w, call);
    case UntagResource(_, _) => UntagShrinks(g, bk, w, call);
    case TagResource(_, _) => TagShrinks(g, bk, w, call);
    case UpdateAgent(_) => UpdateShrinks(g, bk, w, call);
  }

  // ----- The writes of one update -----

  /** Each call of the plan is useful in the world in which it is made. */
  ghost predicate IsUsefulPlan(g: Goal, bk: Backend, w: World, plan: seq<Call>)
    requires Tracks(g, w) && IsSafe(g)
    decreases |plan|
  {
    plan != [] ==>
      && IsUseful(g, w, plan[0])
      && (Failure(bk, w, plan[0]).None? ==>
            Tracks(g, After(bk, w, plan[0])) && IsUsefulPlan(g, bk, After(bk, w, plan[0]), plan[1..]))
  }

  /** Each call that succeeds, before the first that does not, shrinks the measure. */
  ghost predicate ShrinksAlong(g: Goal, bk: Backend, w: World, plan: seq<Call>)
    requires Tracks(g, w) && IsSafe(g)
    decreases |plan|
  {
    plan != [] && Failure(bk, w, plan[0]).None? ==>
      var w' := After(bk, w, plan[0]);
      Tracks(g, w') && Shrinks(g, w, w') && ShrinksAlong(g, bk, w', plan[1..])
  }

  lemma FailedCallChangesNothing(g: Goal, bk: Backend, w: World, call: Call, k: Kind)
    requires Tracks(g, w) && IsSafe(g) && Failure(bk, w, call).Some?
    ensures Tracks(g, After(bk, w, call)) && Spent(g, After(bk, w, call), k) == Spent(g, w, k)
  {
  }

  lemma {:induction false} UsefulPlanShrinks(g: Goal, bk: Backend, w: World, plan: seq<Call>)
    requires Tracks(g, w) && IsSafe(g) && IsTame(g, w) && IsUsefulPlan(g, bk, w, plan)
    ensures ShrinksAlong(g, bk, w, plan)
    decreases |plan|
  {
    if plan != [] && Failure(bk, w, plan[0]).None? {
      UsefulWriteShrinks(g, bk, w, plan[0]);
      UsefulPlanShrinks(g, bk, After(bk, w, plan[0]), plan[1..]);
    }
  }

  lemma {:induction false} ShrinkingSpendsBudgets(g: Goal, bk: Backend, w: World, plan: seq<Call>, k: Kind)
    requires Tracks(g, w) && IsSafe(g) && ShrinksAlong(g, bk, w, plan) && k != ReadKind
    ensures Tracks(g, Execute(bk, w, plan)) && Spent(g, Execute(bk, w, plan), k) <= Spent(g, w, k)
    decreases |plan|
  {
    if plan != [] {
      if Failure(bk, w, plan[0]).None? {
        ShrinkingSpendsBudgets(g, bk, After(bk, w, plan[0]), plan[1..], k);
      } else {
        FailedCallChangesNothing(g, bk, w, plan[0], k);
      }
    }
  }

  // ----- What no failure can change -----

  /** Left alone, the agent ends up as desired: a spec that differs can be made to agree, and one that does not differ
      comes with a status. */
  ghost predicate CanSettle(g: Goal, w: World)
    requires Tracks(g, w) && IsSafe(g)
  {
    if SpecDiffers(g, w) then IsAgreeable(g) else StatusOf(g, w) != ""
  }

  ghost predicate Keeps(g: Goal, w: World, w': World)
    requires Tracks(g, w) && IsSafe(g)
  {
    && Tracks(g, w')
    && (CanSettle(g, w') <==> CanSettle(g, w))
    && (IsTame(g, w) ==> IsTame(g, w'))
  }

  lemma UsefulCallKeeps(g: Goal, bk: Backend, w: World, call: Call)
    requires Tracks(g, w) && IsSafe(g) && IsUseful(g, w, call)
    ensures Keeps(g, w, After(bk, w, call))
  {
    var w' := After(bk, w, call);
    if Failure(bk, w, call).Some? {
      assert RemoteSpec(g, w') == RemoteSpec(g, w);
    } else {
      match call
      case PrepareAgent(_) => assert RemoteSpec(g, w') == RemoteSpec(g, w);
      case UntagResource(_, _) => TagCallEffect(g, bk, w, call);
      case TagResource(_, _) => TagCallEffect(g, bk, w, call);
      case UpdateAgent(_) => UpdateEffect(g, bk, w, call);
    }
  }

  lemma {:induction false} UsefulPlanKeeps(g: Goal, bk: Backend, w: World, plan: seq<Call>)
    requires Tracks(g, w) && IsSafe(g) && IsUsefulPlan(g, bk, w, plan)
    ensures Keeps(g, w, Execute(bk, w, plan))
    decreases |plan|
  {
    if plan != [] {
      UsefulCallKeeps(g, bk, w, plan[0]);
      if Failure(bk, w, plan[0]).None? {
        UsefulPlanKeeps(g, bk, After(bk, w, plan[0]), plan[1..]);
      }
    }
  }

  /** The `aws:` tags that the agent has in the first world keep their values. */
  ghost predicate KeepsAwsTags(g: Goal, w: World, w': World)
    requires Tracks(g, w)
  {
    && Tracks(g, w')
    && forall key :: key in w.tags[g.arn] && Tags.IsAws(key) ==>
         key in w'.tags[g.arn] && w'.tags[g.arn][key] == w.tags[g.arn][key]
  }

  lemma UsefulCallKeepsAwsTags(g: Goal, bk: Backend, w: World, call: Call)
    requires Tracks(g, w) && IsSafe(g) && IsUseful(g, w, call)
    ensures KeepsAwsTags(g, w, After(bk, w, call))
  {
    var from, to := w.tags[g.arn], TargetTags(g, w);
    UsefulCallKeeps(g, bk, w, call);
    forall key | key in from && Tags.IsAws(key) ensures key !in Tags.Removed(from, to) && key !in Tags.Added(from, to) {
    }
    if Failure(bk, w, call).None? && (call.UntagResource? || call.TagResource?) {
      TagCallEffect(g, bk, w, call);
    }
  }

  lemma {:induction false} UsefulPlanKeepsAwsTags(g: Goal, bk: Backend, w: World, plan: seq<Call>)
    requires Tracks(g, w) && IsSafe(g) && IsUsefulPlan(g, bk, w, plan)
    ensures KeepsAwsTags(g, w, Execute(bk, w, plan))
    decreases |plan|
  {
    if plan != [] {
      UsefulCallKeepsAwsTags(g, bk, w, plan[0]);
      if Failure(bk, w, plan[0]).None? {
        UsefulPlanKeepsAwsTags(g, bk, After(bk, w, plan[0]), plan[1..]);
      }
    }
  }

  // ----- Everything that is left to do -----

  ghost function FieldsLeft(g: Goal, w: World): seq<Call>
    requires Tracks(g, w) && IsSafe(g)
  {
    if UpdateIsLeft(g, w)
    then [UpdateAgent(Sdk.UpdateAgentInput(Some(g.id), Codec.EncodeSpec(g.m.round, g.spec).value))]
    else []
  }

  ghost function TagLeft(g: Goal, w: World): seq<Call>
    requires Tracks(g, w) && IsSafe(g)
  {
    var added := Tags.Added(w.tags[g.arn], TargetTags(g, w));
    (if added != map[] then [TagResource(g.arn, added)] else []) + FieldsLeft(g, w)
  }

  ghost function UntagLeft(g: Goal, w: World): seq<Call>
    requires Tracks(g, w) && IsSafe(g)
  {
    var removed := Tags.Removed(w.tags[g.arn], TargetTags(g, w));
    (if removed != map[] then [UntagResource(g.arn, removed.Keys)] else []) + TagLeft(g, w)
  }

  /** Everything that is left to do, in the order of sdkUpdate. */
  ghost function Remaining(g: Goal, w: World): seq<Call>
    requires Tracks(g, w) && IsSafe(g)
  {
    (if IsUnprepared(g, w) then [PrepareAgent(g.id)] else []) + UntagLeft(g, w)
  }

  ghost predicate HasTargetTags(g: Goal, w: World)
    requires Tracks(g, w)
  {
    Tags.Removed(w.tags[g.arn], TargetTags(g, w)) == map[] && Tags.Added(w.tags[g.arn], TargetTags(g, w)) == map[]
  }

  /** The plan is useful to its end. When none of it fails the tags are as they should be, and the spec differs
      afterwards only if it did before and cannot be made to agree. */
  ghost predicate Completes(g: Goal, bk: Backend, w: World, plan: seq<Call>, unprepared: bool)
    requires Tracks(g, w) && IsSafe(g)
  {
    && IsUsefulPlan(g, bk, w, plan)
    && (ExecuteError(bk, w, plan).None? ==>
          var w' := Execute(bk, w, plan);
          && Tracks(g, w') && HasTargetTags(g, w')
          && (SpecDiffers(g, w') <==> SpecDiffers(g, w) && !IsAgreeable(g))
          && (IsUnprepared(g, w') ==> unprepared)
          && (StatusOf(g, w') == "" <==> StatusOf(g, w) == "" && !UpdateIsLeft(g, w)))
  }

  lemma FieldsComplete(g: Goal, bk: Backend, w: World)
    requires Tracks(g, w) && IsSafe(g) && HasTargetTags(g, w)
    ensures Completes(g, bk, w, FieldsLeft(g, w), IsUnprepared(g, w) || UpdateIsLeft(g, w))
  {
    if UpdateIsLeft(g, w) {
      var call := FieldsLeft(g, w)[0];
      if Failure(bk, w, call).None? {
        UpdateEffect(g, bk, w, call);
      }
    }
  }

  lemma TagsComplete(g: Goal, bk: Backend, w: World)
    requires Tracks(g, w) && IsSafe(g) && Tags.Removed(w.tags[g.arn], TargetTags(g, w)) == map[]
    ensures Completes(g, bk, w, TagLeft(g, w), IsUnprepared(g, w) || UpdateIsLeft(g, w))
  {
    var plan, added := TagLeft(g, w), Tags.Added(w.tags[g.arn], TargetTags(g, w));
    if added == map[] {
      assert plan == FieldsLeft(g, w);
      FieldsComplete(g, bk, w);
    } else if Failure(bk, w, plan[0]).None? {
      var w' := After(bk, w, plan[0]);
      TagCallEffect(g, bk, w, plan[0]);
      TagReaches(w.tags[g.arn], TargetTags(g, w));
      TargetIsFixed(Tags.Normalize(g.spec.tags), w.tags[g.arn]);
      assert plan[1..] == FieldsLeft(g, w');
      FieldsComplete(g, bk, w');
    }
  }

  lemma UntagCompletes(g: Goal, bk: Backend, w: World)
    requires Tracks(g, w) && IsSafe(g)
    ensures Completes(g, bk, w, UntagLeft(g, w), IsUnprepared(g, w) || UpdateIsLeft(g, w))
  {
    var plan, removed := UntagLeft(g, w), Tags.Removed(w.tags[g.arn], TargetTags(g, w));
    if removed == map[] {
      assert plan == TagLeft(g, w);
      TagsComplete(g, bk, w);
    } else if Failure(bk, w, plan[0]).None? {
      var w' := After(bk, w, plan[0]);
      TagCallEffect(g, bk, w, plan[0]);
      UntagKeepsTarget(Tags.Normalize(g.spec.tags), w.tags[g.arn]);
      assert plan[1..] == TagLeft(g, w');
      TagsComplete(g, bk, w');
    }
  }

  /** When none of it fails, the agent is unprepared afterwards only if its spec had to be updated. */
  lemma RemainingCompletes(g: Goal, bk: Backend, w: World)
    requires Tracks(g, w) && IsSafe(g)
    ensures Completes(g, bk, w, Remaining(g, w), UpdateIsLeft(g, w))
  {
    var plan := Remaining(g, w);
    if !IsUnprepared(g, w) {
      assert plan == UntagLeft(g, w);
      UntagCompletes(g, bk, w);
    } else if Failure(bk, w, plan[0]).None? {
      var w' := After(bk, w, plan[0]);
      PrepareShrinks(g, bk, w, plan[0]);
      assert RemoteSpec(g, w') == RemoteSpec(g, w);
      assert plan[1..] == UntagLeft(g, w');
      UntagCompletes(g, bk, w');
    }
  }

  // ----- One round -----

  ghost predicate Pursues(g: Goal, st: State) {
    IsSafe(g) && st.a.spec == g.spec && st.a.status.agentID == Some(g.id) && Tracks(g, st.w)
  }

  lemma PursuingIsReady(g: Goal, st: State)
    requires Pursues(g, st)
    ensures Ready(st) && CanFind(st.w, st.a)
  {
  }

  /** What is compared: the desired spec with the target tags, and the remote spec with the remote tags. */
  ghost predicate IsComparison(g: Goal, w: World, desired: Agent, latest: Agent)
    requires Tracks(g, w)
  {
    && desired.spec == g.spec.(tags := Tags.FromTagMap(TargetTags(g, w))) && desired.status.agentID == Some(g.id)
    && latest.spec == RemoteSpec(g, w).(tags := Tags.FromTagMap(w.tags[g.arn])) && latest.status.agentID == Some(g.id)
    && latest.status.agentStatus == Codec.DecodeEnum(StatusOf(g, w))
    && HasArn(latest) && latest.status.metadata.value.arn == Some(g.arn)
  }

  lemma ReadCompares(g: Goal, bk: Backend, st: State)
    requires Pursues(g, st) && CanFind(st.w, st.a)
    ensures var read := Read(g.m.cfg, bk, st.w, st.a);
            && read.world.agents == st.w.agents && read.world.tags == st.w.tags
            && (read.error.None? ==> IsComparison(g, st.w, ReadInput(g.m.cfg, bk, st.w, st.a), read.returned))
  {
    WhatIsFound(g.m.cfg, bk, st.w, st.a);
    var found := FindOutcome(g.m.cfg, bk, st.w, st.a).result;
    if found.Ok? {
      OnlyConditionsChange(g.m.cfg, found.value, NotFound);
      Tags.NormalizeFromTagMap(st.w.tags[g.arn]);
    }
  }

  lemma TagsAreNoField(key: Delta.SliceKey, s: AgentSpec, tags: SpecTags, p: Delta.Path)
    requires p != Delta.AtTags
    ensures Delta.Lookup(key, s.(tags := tags), p) == Delta.Lookup(key, s, p)
  {
  }

  lemma AtTheTop(paths: seq<Delta.Path>, p: Delta.Path)
    requires p.AtAgentStatus? || p.AtTags?
    ensures Delta.DifferentAt(paths, p) <==> p in paths
    ensures NeedsUpdate(paths) <==> exists q :: q in paths && IsFieldPath(q)
  {
    assert forall q: Delta.Path, r: Delta.Path | r.AtAgentStatus? || r.AtTags? :: Delta.IsWithin(q, r) <==> q == r;
    forall q | q in paths && IsFieldPath(q) ensures NeedsUpdate(paths) {
      var i :| 0 <= i < |paths| && paths[i] == q;
      assert !Delta.IsWithin(paths[i], Delta.AtAgentStatus) && !Delta.IsWithin(paths[i], Delta.AtTags);
    }
    if NeedsUpdate(paths) {
      var i :| 0 <= i < |paths|
               && !Delta.IsWithin(paths[i], Delta.AtAgentStatus) && !Delta.IsWithin(paths[i], Delta.AtTags);
      assert paths[i] in paths && IsFieldPath(paths[i]);
    }
    if p in paths {
      var i :| 0 <= i < |paths| && paths[i] == p;
      assert Delta.IsWithin(paths[i], p);
    }
  }

  lemma FieldsDifferIff(g: Goal, w: World, desired: Agent, latest: Agent, p: Delta.Path)
    requires Tracks(g, w) && IsComparison(g, w, desired, latest) && IsFieldPath(p)
    ensures p in Delta.DeltaPaths(g.m.sameStrings, Some(desired), Some(latest))
            <==> Delta.Differs(g.m.sameStrings, g.spec, RemoteSpec(g, w), p)
  {
    Delta.DeltaIsExact(g.m.sameStrings, desired, latest, p);
    TagsAreNoField(g.m.sameStrings, g.spec, desired.spec.tags, p);
    TagsAreNoField(g.m.sameStrings, RemoteSpec(g, w), latest.spec.tags, p);
  }

  /** The three questions that sdkUpdate asks of the delta. */
  lemma DeltaAnswers(g: Goal, w: World, desired: Agent, latest: Agent)
    requires Tracks(g, w) && IsComparison(g, w, desired, latest)
    ensures var paths := Delta.DeltaPaths(g.m.sameStrings, Some(desired), Some(latest));
            && (Delta.DifferentAt(paths, Delta.AtAgentStatus) <==> IsUnprepared(g, w))
            && (Delta.DifferentAt(paths, Delta.AtTags) <==> TargetTags(g, w) != w.tags[g.arn])
            && (NeedsUpdate(paths) <==> SpecDiffers(g, w))
  {
    var paths := Delta.DeltaPaths(g.m.sameStrings, Some(desired), Some(latest));
    AtTheTop(paths, Delta.AtAgentStatus);
    AtTheTop(paths, Delta.AtTags);
    Delta.DeltaIsExact(g.m.sameStrings, desired, latest, Delta.AtAgentStatus);
    Delta.DeltaIsExact(g.m.sameStrings, desired, latest, Delta.AtTags);
    Tags.NormalizeFromTagMap(TargetTags(g, w));
    Tags.NormalizeFromTagMap(w.tags[g.arn]);
    forall p | IsFieldPath(p) ensures p in paths <==> Delta.Differs(g.m.sameStrings, g.spec, RemoteSpec(g, w), p) {
      FieldsDifferIff(g, w, desired, latest, p);
    }
  }

  lemma TagPlanIsLeft(g: Goal, w: World)
    requires Tracks(g, w) && IsSafe(g)
    ensures UntagLeft(g, w)
            == Tags.TagPlan(g.arn, Tags.FromTagMap(TargetTags(g, w)), Tags.FromTagMap(w.tags[g.arn])) + FieldsLeft(g, w)
    ensures TargetTags(g, w) == w.tags[g.arn] ==> UntagLeft(g, w) == FieldsLeft(g, w)
  {
    var to, from := TargetTags(g, w), w.tags[g.arn];
    Tags.NormalizeFromTagMap(to);
    Tags.NormalizeFromTagMap(from);
    var untag := if Tags.Removed(from, to) != map[] then [UntagResource(g.arn, Tags.Removed(from, to).Keys)] else [];
    var tag := if Tags.Added(from, to) != map[] then [TagResource(g.arn, Tags.Added(from, to))] else [];
    assert untag + (tag + FieldsLeft(g, w)) == (untag + tag) + FieldsLeft(g, w);
    if to == from {
      Tags.NoCallsIffSameTags(g.arn, Tags.FromTagMap(to), Tags.FromTagMap(from));
    }
  }

  lemma PayloadIsLeft(g: Goal, w: World, desired: Agent, latest: Agent)
    requires Tracks(g, w) && IsSafe(g) && IsComparison(g, w, desired, latest)
    ensures NoNilElements(desired.spec)
    ensures FieldsPlan(g.m, desired, Delta.DeltaPaths(g.m.sameStrings, Some(desired), Some(latest))) == FieldsLeft(g, w)
  {
    DeltaAnswers(g, w, desired, latest);
    var own := WithTags(desired, g.spec.tags);
    assert own.spec == g.spec && WithTags(own, desired.spec.tags) == desired;
    TagsDoNotMatter(g.m.round, own, desired.spec.tags);
  }

  lemma ComparisonCanBeUpdated(g: Goal, w: World, desired: Agent, latest: Agent)
    requires Tracks(g, w) && IsSafe(g) && IsComparison(g, w, desired, latest)
    ensures CanUpdate(desired, latest, Delta.DeltaPaths(g.m.sameStrings, Some(desired), Some(latest)))
  {
    PayloadIsLeft(g, w, desired, latest);
  }

  lemma PreparationIsLeft(g: Goal, w: World, desired: Agent, latest: Agent)
    requires Tracks(g, w) && IsComparison(g, w, desired, latest)
    ensures PreparePlan(desired, Delta.DeltaPaths(g.m.sameStrings, Some(desired), Some(latest)))
            == if IsUnprepared(g, w) then [PrepareAgent(g.id)] else []
  {
    DeltaAnswers(g, w, desired, latest);
  }

  lemma TagCallsAreLeft(g: Goal, w: World, desired: Agent, latest: Agent)
    requires Tracks(g, w) && IsSafe(g) && IsComparison(g, w, desired, latest)
    ensures var paths := Delta.DeltaPaths(g.m.sameStrings, Some(desired), Some(latest));
            TagsPlan(desired, latest, paths) + FieldsLeft(g, w) == UntagLeft(g, w)
  {
    DeltaAnswers(g, w, desired, latest);
    TagPlanIsLeft(g, w);
    if TargetTags(g, w) == w.tags[g.arn] {
      assert [] + FieldsLeft(g, w) == FieldsLeft(g, w);
    }
  }

  /** An update plans exactly what is left to do. */
  lemma UpdateDoesWhatIsLeft(g: Goal, w: World, desired: Agent, latest: Agent)
    requires Tracks(g, w) && IsSafe(g) && IsComparison(g, w, desired, latest)
    requires CanUpdate(desired, latest, Delta.DeltaPaths(g.m.sameStrings, Some(desired), Some(latest)))
    ensures var paths := Delta.DeltaPaths(g.m.sameStrings, Some(desired), Some(latest));
            UpdatePlan(g.m, desired, latest, paths) == Remaining(g, w)
  {
    var paths := Delta.DeltaPaths(g.m.sameStrings, Some(desired), Some(latest));
    PreparationIsLeft(g, w, desired, latest);
    TagCallsAreLeft(g, w, desired, latest);
    PayloadIsLeft(g, w, desired, latest);
    PlanInParts(PreparePlan(desired, paths), TagsPlan(desired, latest, paths), FieldsLeft(g, w));
  }

  lemma PlanInParts(prepare: seq<Call>, tags: seq<Call>, fields: seq<Call>)
    ensures (prepare + tags) + fields == prepare + (tags + fields)
  {
  }
}
