/** What holds over whole runs, whatever fails on the way: bounded writes, and which agents settle. */
module Runs {
  import opened Api
  import opened Conditions
  import opened Convergence
  import opened Manager
  import opened Reconcile
  import opened Remote
  import opened Resources
  import Agreement
  import Codec
  import Delta
  import Payloads
  import Tags

  // ----- Rounds for a created agent -----

  lemma SameRemote(g: Goal, w: World, w': World)
    requires Tracks(g, w) && IsSafe(g) && w'.agents == w.agents && w'.tags == w.tags
    ensures Tracks(g, w') && Remaining(g, w') == Remaining(g, w)
    ensures SpecDiffers(g, w') == SpecDiffers(g, w) && StatusOf(g, w') == StatusOf(g, w)
    ensures TargetTags(g, w') == TargetTags(g, w)
    ensures forall k :: Budget(g, w', k) == Budget(g, w, k)
  {
    assert RemoteSpec(g, w') == RemoteSpec(g, w);
    assert SpecDiffers(g, w') == SpecDiffers(g, w);
  }

  /** The detector has nothing to report. */
  ghost predicate IsDone(g: Goal, w: World)
    requires Tracks(g, w)
  {
    !IsUnprepared(g, w) && HasTargetTags(g, w) && !SpecDiffers(g, w)
  }

  lemma TargetTagsIff(g: Goal, w: World)
    requires Tracks(g, w)
    ensures HasTargetTags(g, w) <==> TargetTags(g, w) == w.tags[g.arn]
  {
    var to, from := TargetTags(g, w), w.tags[g.arn];
    if HasTargetTags(g, w) {
      Tags.UntagThenTag(from, to);
    }
  }

  /** A refused payload is the one difference that leaves nothing to do. */
  lemma NothingLeftIff(g: Goal, w: World)
    requires Tracks(g, w) && IsSafe(g)
    ensures Remaining(g, w) == [] <==> !IsUnprepared(g, w) && HasTargetTags(g, w) && !UpdateIsLeft(g, w)
  {
  }

  lemma EmptyDeltaIff(g: Goal, w: World, desired: Agent, latest: Agent)
    requires Tracks(g, w) && IsComparison(g, w, desired, latest)
    ensures Delta.DeltaPaths(g.m.sameStrings, Some(desired), Some(latest)) == [] <==> IsDone(g, w)
  {
    var paths := Delta.DeltaPaths(g.m.sameStrings, Some(desired), Some(latest));
    DeltaAnswers(g, w, desired, latest);
    TargetTagsIff(g, w);
    AtTheTop(paths, Delta.AtAgentStatus);
    AtTheTop(paths, Delta.AtTags);
    if paths != [] {
      assert paths[0] in paths;
    }
  }

  /** After a read that succeeds, a round makes the writes that are left, up to the first failure. */
  lemma RoundDoesWhatIsLeft(g: Goal, bk: Backend, st: State)
    requires Pursues(g, st) && Ready(st) && CanFind(st.w, st.a) && Read(g.m.cfg, bk, st.w, st.a).error.None?
    ensures var w := Read(g.m.cfg, bk, st.w, st.a).world;
            Tracks(g, w) && Round(g.m, bk, st).w == Execute(bk, w, Remaining(g, w))
  {
    var read, desired := Read(g.m.cfg, bk, st.w, st.a), ReadInput(g.m.cfg, bk, st.w, st.a);
    ReadCompares(g, bk, st);
    SameRemote(g, st.w, read.world);
    assert RemoteSpec(g, read.world) == RemoteSpec(g, st.w);
    ComparisonCanBeUpdated(g, read.world, desired, read.returned);
    UpdateDoesWhatIsLeft(g, read.world, desired, read.returned);
    EmptyDeltaIff(g, read.world, desired, read.returned);
    NothingLeftIff(g, read.world);
    ReadIsSafe(g.m, bk, st);
    var paths := Compared(g.m, desired, read.returned);
    UpdateTrace(g.m, bk, read.world, desired, read.returned, paths);
  }

  ghost predicate HasSpentNoMore(g: Goal, w: World, w': World)
    requires Tracks(g, w) && Tracks(g, w') && IsSafe(g)
  {
    forall k :: k != ReadKind ==> Spent(g, w', k) <= Spent(g, w, k)
  }

  lemma ReadSpendsNothing(g: Goal, bk: Backend, st: State)
    requires Pursues(g, st) && CanFind(st.w, st.a)
    ensures var w := Read(g.m.cfg, bk, st.w, st.a).world;
            Keeps(g, st.w, w) && HasSpentNoMore(g, st.w, w)
  {
    ReadCompares(g, bk, st);
    SameRemote(g, st.w, Read(g.m.cfg, bk, st.w, st.a).world);
    forall k | k != ReadKind ensures Count(Read(g.m.cfg, bk, st.w, st.a).world.log, k) == Count(st.w.log, k) {
      ReadIsCountedAsRead(g.m.cfg, bk, st.w, st.a, k);
    }
  }

  /** Every write that succeeds in a round strictly decreases the measure, and no budget is overdrawn. */
  lemma RoundShrinks(g: Goal, bk: Backend, st: State)
    requires Pursues(g, st) && Ready(st) && CanFind(st.w, st.a) && Read(g.m.cfg, bk, st.w, st.a).error.None?
    requires IsTame(g, st.w)
    ensures var w := Read(g.m.cfg, bk, st.w, st.a).world;
            var w' := Round(g.m, bk, st).w;
            && Tracks(g, w) && ShrinksAlong(g, bk, w, Remaining(g, w))
            && Tracks(g, w') && HasSpentNoMore(g, w, w')
  {
    var w := Read(g.m.cfg, bk, st.w, st.a).world;
    RoundDoesWhatIsLeft(g, bk, st);
    ReadSpendsNothing(g, bk, st);
    RemainingCompletes(g, bk, w);
    UsefulPlanShrinks(g, bk, w, Remaining(g, w));
    ShrinkingSpendsBudgets(g, bk, w, Remaining(g, w), UpdateKind);
    forall k | k != ReadKind ensures Spent(g, Execute(bk, w, Remaining(g, w)), k) <= Spent(g, w, k) {
      ShrinkingSpendsBudgets(g, bk, w, Remaining(g, w), k);
    }
  }

  lemma NotDeniedReadIsKept(g: Goal, bk: Backend, st: State)
    requires Pursues(g, st) && Ready(st) && CanFind(st.w, st.a) && !IsDenied(bk, st)
    requires Read(g.m.cfg, bk, st.w, st.a).error.Some?
    ensures Round(g.m, bk, st).w == Read(g.m.cfg, bk, st.w, st.a).world
  {
    NotFoundIff(g.m.cfg, bk, st);
  }

  lemma RoundKeepsWorld(g: Goal, bk: Backend, st: State)
    requires Pursues(g, st) && Ready(st) && !IsDenied(bk, st)
    ensures Keeps(g, st.w, Round(g.m, bk, st).w)
    ensures IsTame(g, st.w) ==> HasSpentNoMore(g, st.w, Round(g.m, bk, st).w)
  {
    PursuingIsReady(g, st);
    ReadSpendsNothing(g, bk, st);
    var w := Read(g.m.cfg, bk, st.w, st.a).world;
    if Read(g.m.cfg, bk, st.w, st.a).error.None? {
      RoundDoesWhatIsLeft(g, bk, st);
      RemainingCompletes(g, bk, w);
      UsefulPlanKeeps(g, bk, w, Remaining(g, w));
      if IsTame(g, st.w) {
        RoundShrinks(g, bk, st);
      }
    } else {
      NotDeniedReadIsKept(g, bk, st);
    }
  }

  /** A round that is not denied never loses the agent and does not change whether it can settle, whatever fails; and if
      updates are tame, it never spends more than is budgeted. */
  lemma RoundPursues(g: Goal, bk: Backend, st: State, st': State)
    requires Pursues(g, st) && IsRound(g.m, bk, st, st') && !IsDenied(bk, st)
    ensures Pursues(g, st') && Keeps(g, st.w, st'.w)
    ensures IsTame(g, st.w) ==> HasSpentNoMore(g, st.w, st'.w)
  {
    RoundKeepsWorld(g, bk, st);
    RoundFollows(g.m, bk, st);
  }

  // ----- The round that creates -----

  predicate IsWriteKind(k: Kind) {
    k != ReadKind && k != CreateKind
  }

  lemma OwnTagsAreTarget(d: Tags.TagMap)
    ensures Tags.Mirror(d, d) == d && Tags.Removed(d, d) == map[] && Tags.Added(d, d) == map[]
  {
  }

  function Born(m: Settings, bk: Backend, w: World, a: Agent): Goal {
    Goal(m, a.spec, bk.newId(|w.log|), bk.newArn(|w.log|))
  }

  lemma CreationIsTracked(m: Settings, bk: Backend, w: World, a: Agent)
    requires NoNilElements(a.spec) && ModesSet(a.spec) && CreateOutcome(m, bk, w, a).result.Ok?
    ensures var g, outcome := Born(m, bk, w, a), CreateOutcome(m, bk, w, a);
            && Tracks(g, outcome.world) && outcome.result.value.status.agentID == Some(g.id)
            && Codec.EncodeSpec(m.round, a.spec) == Api.Ok(outcome.world.agents[g.id].fields)
            && outcome.world.tags[g.arn] == Tags.Normalize(a.spec.tags) && StatusOf(g, outcome.world) == NOT_PREPARED
    ensures forall k :: IsWriteKind(k) ==> Count(CreateOutcome(m, bk, w, a).world.log, k) == Count(w.log, k)
  {
    CreationBinds(m, bk, w, a);
    var call := CreateAgent(Payloads.CreatePayload(m.round, a.spec).value);
    forall k | IsWriteKind(k) ensures Count(After(bk, w, call).log, k) == Count(w.log, k) {
      CountAfter(bk, w, call, k);
    }
  }

  /** Right after its creation an agent has its tags, is to be prepared, and agrees with the spec iff it can. */
  ghost predicate IsNewborn(g: Goal, w: World) {
    && IsSafe(g) && Tracks(g, w) && IsAccepted(g) && HasTargetTags(g, w) && StatusOf(g, w) == NOT_PREPARED
    && (SpecDiffers(g, w) <==> !IsAgreeable(g))
  }

  lemma CreationMakesNewborn(m: Settings, bk: Backend, w: World, a: Agent)
    requires NoNilElements(a.spec) && ModesSet(a.spec) && CreateOutcome(m, bk, w, a).result.Ok?
    ensures IsNewborn(Born(m, bk, w, a), CreateOutcome(m, bk, w, a).world)
  {
    var g, w' := Born(m, bk, w, a), CreateOutcome(m, bk, w, a).world;
    CreationIsTracked(m, bk, w, a);
    StoredSpecDiffersIff(g, w');
    OwnTagsAreTarget(w'.tags[g.arn]);
  }

  lemma FailedCreationWritesNothing(m: Settings, bk: Backend, w: World, a: Agent, k: Kind)
    requires NoNilElements(a.spec) && CreateOutcome(m, bk, w, a).result.Err? && IsWriteKind(k)
    ensures Count(CreateOutcome(m, bk, w, a).world.log, k) == Count(w.log, k)
  {
  }

  /** A round for an agent that does not exist yet makes no write but the creation. */
  lemma UncreatedRound(m: Settings, bk: Backend, st: State, st': State)
    requires IsRound(m, bk, st, st') && !IsCreated(st)
    ensures forall k :: IsWriteKind(k) ==> Count(st'.w.log, k) == Count(st.w.log, k)
    ensures IsCreated(st') ==>
              var g := Born(m, bk, st.w, st.a);
              Pursues(g, st') && IsNewborn(g, st'.w) && !IsBlocked(ConditionSeq(st.a))
    ensures !IsCreated(st') ==> (IsBlocked(ConditionSeq(st'.a)) <==> IsBlocked(ConditionSeq(st.a)))
  {
    var read := Read(m.cfg, bk, st.w, st.a);
    NotFoundIff(m.cfg, bk, st);
    OnlyConditionsChange(m.cfg, st.a, NotFound);
    StaysBlocked(ConditionSeq(st.a), Failed(NotFound));
    if read.error == Some(NotFound) {
      var outcome := CreateOutcome(m, bk, st.w, st.a);
      if outcome.result.Ok? {
        CreationMakesNewborn(m, bk, st.w, st.a);
        CreationIsTracked(m, bk, st.w, st.a);
        OnlyConditionsChange(m.cfg, outcome.result.value, NotFound);
      } else {
        OnlyConditionsChange(m.cfg, st.a, outcome.result.error);
        StaysBlocked(ConditionSeq(st.a), Failed(outcome.result.error));
        forall k | IsWriteKind(k) ensures Count(outcome.world.log, k) == Count(st.w.log, k) {
          FailedCreationWritesNothing(m, bk, st.w, st.a, k);
        }
      }
    }
  }

  // ----- Bounded writes -----

  function GoalOf(m: Settings, st: State): Goal
    requires Ready(st) && IsCreated(st)
  {
    var id := st.a.status.agentID.value;
    Goal(m, st.a.spec, id, st.w.agents[id].agentArn.value)
  }

  /** The first update, if there is one to come, is the last one: none is made because the builder refuses it, because
      nothing differs or because the agent cannot be created, or the spec survives being sent. */
  ghost predicate UpdatesAreTame(m: Settings, st: State)
    requires Ready(st)
  {
    if IsCreated(st) then IsTame(GoalOf(m, st), st.w)
    else
      !IsBlocked(ConditionSeq(st.a)) && Codec.EncodeSpec(m.round, st.a.spec).Ok? ==>
        Agreement.Survives(m.round, st.a.spec)
  }

  function Limit(k: Kind): nat {
    if k == PrepareKind then 2 else 1
  }

  ghost predicate IsWithinLimits(g: Goal, first: State, st: State) {
    && Pursues(g, st) && IsTame(g, st.w)
    && forall k :: IsWriteKind(k) ==> Spent(g, st.w, k) <= Count(first.w.log, k) + Limit(k)
  }

  ghost predicate HasWrittenNothing(m: Settings, first: State, st: State) {
    && Ready(st) && st.a.spec == first.a.spec && UpdatesAreTame(m, st)
    && forall k :: IsWriteKind(k) ==> Count(st.w.log, k) == Count(first.w.log, k)
  }

  /** Where a run stands: before the creation nothing has been written, and after it the writes so far and the budgets
      are within the limits. */
  ghost predicate StandsAt(m: Settings, g: Goal, first: State, st: State) {
    if IsCreated(st) then g.m == m && IsWithinLimits(g, first, st) else HasWrittenNothing(m, first, st)
  }

  lemma NewbornIsWithinLimits(g: Goal, first: State, st: State)
    requires Pursues(g, st) && IsNewborn(g, st.w) && IsAgreeable(g)
    requires forall k :: IsWriteKind(k) ==> Count(st.w.log, k) == Count(first.w.log, k)
    ensures IsWithinLimits(g, first, st)
  {
  }

  lemma ComesWithinLimits(m: Settings, bk: Backend, first: State, st: State, st': State)
    requires HasWrittenNothing(m, first, st) && IsRound(m, bk, st, st') && !IsCreated(st)
    ensures StandsAt(m, Born(m, bk, st.w, st.a), first, st') == true
  {
    UncreatedRound(m, bk, st, st');
    RoundStaysReady(m, bk, st);
    if IsCreated(st') {
      NewbornIsWithinLimits(Born(m, bk, st.w, st.a), first, st');
    }
  }

  lemma StaysWithinLimits(g: Goal, bk: Backend, first: State, st: State, st': State)
    requires IsWithinLimits(g, first, st) && IsRound(g.m, bk, st, st') && !IsDenied(bk, st)
    ensures IsWithinLimits(g, first, st')
  {
    RoundPursues(g, bk, st, st');
  }

  lemma NextStandsAt(m: Settings, bk: Backend, states: seq<State>, g: Goal, i: nat) returns (g': Goal)
    requires IsRun(m, bk, states) && i + 1 < |states| && !IsDeniedAt(bk, states, i)
    requires StandsAt(m, g, states[0], states[i])
    ensures StandsAt(m, g', states[0], states[i + 1])
  {
    assert IsRoundAt(m, bk, states, i);
    if IsCreated(states[i]) {
      StaysWithinLimits(g, bk, states[0], states[i], states[i + 1]);
      g' := g;
    } else {
      ComesWithinLimits(m, bk, states[0], states[i], states[i + 1]);
      g' := Born(m, bk, states[i].w, states[i].a);
    }
  }

  lemma {:induction false} RunStandsAt(m: Settings, bk: Backend, states: seq<State>, n: nat) returns (g: Goal)
    requires IsRun(m, bk, states) && IsNeverDenied(bk, states) && n < |states|
    requires Ready(states[0]) && UpdatesAreTame(m, states[0])
    ensures StandsAt(m, g, states[0], states[n])
  {
    if n == 0 {
      g := if IsCreated(states[0]) then GoalOf(m, states[0]) else Born(m, bk, states[0].w, states[0].a);
    } else {
      g := RunStandsAt(m, bk, states, n - 1);
      g := NextStandsAt(m, bk, states, g, n - 1);
    }
  }

  /** In every run in which the service never denies the agent, and whichever calls fail, at most one CreateAgent, one
      UpdateAgent, one UntagResource, one TagResource and two PrepareAgent calls succeed if updates are tame. */
  lemma WritesAreBounded(m: Settings, bk: Backend, states: seq<State>, n: nat, k: Kind)
    requires IsRun(m, bk, states) && IsNeverDenied(bk, states) && n < |states| && k != ReadKind
    requires Ready(states[0]) && UpdatesAreTame(m, states[0])
    ensures Count(states[n].w.log, k) - Count(states[0].w.log, k) <= Limit(k)
  {
    if k == CreateKind {
      AtMostOneCreation(m, bk, states, 0, n);
    } else {
      var g := RunStandsAt(m, bk, states, n);
    }
  }

  // ----- Tags that AWS owns -----

  lemma RoundKeepsAwsTags(g: Goal, bk: Backend, st: State, st': State)
    requires Pursues(g, st) && IsRound(g.m, bk, st, st') && !IsDenied(bk, st)
    ensures KeepsAwsTags(g, st.w, st'.w)
  {
    PursuingIsReady(g, st);
    ReadCompares(g, bk, st);
    var w := Read(g.m.cfg, bk, st.w, st.a).world;
    if Read(g.m.cfg, bk, st.w, st.a).error.None? {
      RoundDoesWhatIsLeft(g, bk, st);
      RemainingCompletes(g, bk, w);
      UsefulPlanKeepsAwsTags(g, bk, w, Remaining(g, w));
    } else {
      NotDeniedReadIsKept(g, bk, st);
    }
  }

  lemma NextKeepsAwsTags(m: Settings, bk: Backend, states: seq<State>, g: Goal, i: nat, j: nat)
    requires IsRun(m, bk, states) && j + 1 < |states| && i < |states| && !IsDeniedAt(bk, states, j)
    requires g.m == m && Tracks(g, states[i].w)
    requires Pursues(g, states[j]) && KeepsAwsTags(g, states[i].w, states[j].w)
    ensures Pursues(g, states[j + 1]) == true && KeepsAwsTags(g, states[i].w, states[j + 1].w)
  {
    assert IsRoundAt(m, bk, states, j);
    RoundPursues(g, bk, states[j], states[j + 1]);
    RoundKeepsAwsTags(g, bk, states[j], states[j + 1]);
  }

  /** In every run in which the service never denies the agent, and whichever calls fail, an `aws:` tag that the agent
      has keeps its value for good, whatever tags the user asks for. */
  lemma {:induction false} AwsTagsStay(m: Settings, bk: Backend, states: seq<State>, i: nat, j: nat)
    requires IsRun(m, bk, states) && IsNeverDenied(bk, states) && i <= j < |states|
    requires Ready(states[i]) && IsCreated(states[i])
    ensures var g := GoalOf(m, states[i]);
            Pursues(g, states[j]) == true && KeepsAwsTags(g, states[i].w, states[j].w)
    decreases j
  {
    if i < j {
      AwsTagsStay(m, bk, states, i, j - 1);
      NextKeepsAwsTags(m, bk, states, GoalOf(m, states[i]), i, j - 1);
    }
  }
}
