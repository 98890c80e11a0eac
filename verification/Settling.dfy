/** Which agents settle, exactly, and what happens to the others. Here and in `Runs` and `Reconcile`, `P == true` says
    what `P` says, to a verifier that takes it as a whole and not conjunct by conjunct. */
module Settling {
  import opened Api
  import opened Conditions
  import opened Convergence
  import opened Manager
  import opened Reconcile
  import opened Remote
  import opened Resources
  import opened Runs
  import Agreement
  import Codec
  import Delta
  import Tags

  /** Nothing to do: the read succeeds, its delta is empty and IsSynced reports true. */
  ghost predicate IsSettled(m: Settings, bk: Backend, st: State) {
    && Ready(st) && CanFind(st.w, st.a)
    && var read := Read(m.cfg, bk, st.w, st.a);
       && read.error.None? && CanCompare(m, ReadInput(m.cfg, bk, st.w, st.a), read.returned)
       && Compared(m, ReadInput(m.cfg, bk, st.w, st.a), read.returned) == []
       && IsPrepared(read.returned)
  }

  /** Who settles when calls succeed. An agent that exists must come with a status if its spec does not differ, and
      otherwise have a spec whose payload is accepted and survives; an agent that does not exist yet must have such a
      spec and no Terminal condition that hides the NotFound. */
  ghost predicate CanSettleFrom(m: Settings, st: State)
    requires Ready(st)
  {
    if IsCreated(st) then CanSettle(GoalOf(m, st), st.w)
    else
      && !IsBlocked(ConditionSeq(st.a))
      && Codec.EncodeSpec(m.round, st.a.spec).Ok? && Agreement.Survives(m.round, st.a.spec)
  }

  // ----- Nothing changes who can settle -----

  lemma RoundKeepsSettling(m: Settings, bk: Backend, st: State, st': State)
    requires IsRound(m, bk, st, st') && !IsDenied(bk, st)
    ensures Ready(st') && (CanSettleFrom(m, st') <==> CanSettleFrom(m, st))
  {
    RoundStaysReady(m, bk, st);
    if IsCreated(st) {
      RoundPursues(GoalOf(m, st), bk, st, st');
    } else {
      UncreatedRound(m, bk, st, st');
    }
  }

  lemma NextKeepsSettling(m: Settings, bk: Backend, states: seq<State>, i: nat)
    requires IsRun(m, bk, states) && i + 1 < |states| && !IsDeniedAt(bk, states, i)
    ensures Ready(states[i]) && Ready(states[i + 1])
    ensures CanSettleFrom(m, states[i + 1]) <==> CanSettleFrom(m, states[i])
  {
    assert IsRoundAt(m, bk, states, i);
    RoundKeepsSettling(m, bk, states[i], states[i + 1]);
  }

  lemma {:induction false} RunKeepsSettling(m: Settings, bk: Backend, states: seq<State>, n: nat)
    requires IsRun(m, bk, states) && IsNeverDenied(bk, states) && n < |states| && Ready(states[0])
    ensures Ready(states[n]) == true && CanSettleFrom(m, states[n]) == CanSettleFrom(m, states[0])
  {
    if n > 0 {
      RunKeepsSettling(m, bk, states, n - 1);
      NextKeepsSettling(m, bk, states, n - 1);
    }
  }

  // ----- Only who can settle is settled -----

  lemma SettledIsDone(g: Goal, bk: Backend, st: State)
    requires Pursues(g, st) && Ready(st) && CanFind(st.w, st.a) && Read(g.m.cfg, bk, st.w, st.a).error.None?
    ensures IsSettled(g.m, bk, st) <==> IsDone(g, st.w) && StatusOf(g, st.w) == PREPARED
  {
    ReadCompares(g, bk, st);
    ReadIsSafe(g.m, bk, st);
    EmptyDeltaIff(g, st.w, ReadInput(g.m.cfg, bk, st.w, st.a), Read(g.m.cfg, bk, st.w, st.a).returned);
  }

  lemma SettledCanSettle(m: Settings, bk: Backend, st: State)
    requires IsSettled(m, bk, st)
    ensures CanSettleFrom(m, st)
  {
    if IsCreated(st) {
      SettledIsDone(GoalOf(m, st), bk, st);
    }
  }

  // ----- Rounds without failures -----

  ghost predicate NoFailuresFrom(bk: Backend, n: nat) {
    forall i :: i >= n ==> bk.fails(i).None?
  }

  lemma ReadSucceeds(g: Goal, bk: Backend, st: State)
    requires Pursues(g, st) && CanFind(st.w, st.a) && NoFailuresFrom(bk, |st.w.log|)
    ensures Read(g.m.cfg, bk, st.w, st.a).error.None? && !IsDenied(bk, st)
    ensures |Read(g.m.cfg, bk, st.w, st.a).world.log| >= |st.w.log|
  {
  }

  /** With a read that succeeds, settled means that nothing is left to do and the agent is prepared. */
  lemma SettledIff(g: Goal, bk: Backend, st: State)
    requires Pursues(g, st) && NoFailuresFrom(bk, |st.w.log|)
    ensures IsSettled(g.m, bk, st) <==> IsDone(g, st.w) && StatusOf(g, st.w) == PREPARED
  {
    PursuingIsReady(g, st);
    ReadSucceeds(g, bk, st);
    SettledIsDone(g, bk, st);
  }

  lemma {:induction false} UsefulPlanSucceeds(g: Goal, bk: Backend, w: World, plan: seq<Call>)
    requires Tracks(g, w) && IsSafe(g) && IsUsefulPlan(g, bk, w, plan) && NoFailuresFrom(bk, |w.log|)
    ensures ExecuteError(bk, w, plan).None? && |Execute(bk, w, plan).log| >= |w.log|
    decreases |plan|
  {
    if plan != [] {
      assert Failure(bk, w, plan[0]).None?;
      UsefulPlanSucceeds(g, bk, After(bk, w, plan[0]), plan[1..]);
    }
  }

  lemma PlannedAfter(first: seq<Call>, rest: seq<Call>, k: Kind)
    requires |first| <= 1 && (first != [] ==> KindOf(first[0]) != k)
    ensures Planned(first + rest, k) == Planned(rest, k)
  {
    PlannedInParts(first, rest, k);
  }

  lemma TagLeftUpdates(g: Goal, w: World)
    requires Tracks(g, w) && IsSafe(g)
    ensures Planned(TagLeft(g, w), UpdateKind) == Planned(FieldsLeft(g, w), UpdateKind)
  {
    var added := Tags.Added(w.tags[g.arn], TargetTags(g, w));
    var first := if added != map[] then [TagResource(g.arn, added)] else [];
    PlannedAfter(first, FieldsLeft(g, w), UpdateKind);
    assert TagLeft(g, w) == first + FieldsLeft(g, w);
  }

  lemma UntagLeftUpdates(g: Goal, w: World)
    requires Tracks(g, w) && IsSafe(g)
    ensures Planned(UntagLeft(g, w), UpdateKind) == Planned(FieldsLeft(g, w), UpdateKind)
  {
    TagLeftUpdates(g, w);
    var removed := Tags.Removed(w.tags[g.arn], TargetTags(g, w));
    var first := if removed != map[] then [UntagResource(g.arn, removed.Keys)] else [];
    PlannedAfter(first, TagLeft(g, w), UpdateKind);
    assert UntagLeft(g, w) == first + TagLeft(g, w);
  }

  lemma RemainingUpdates(g: Goal, w: World)
    requires Tracks(g, w) && IsSafe(g)
    ensures Planned(Remaining(g, w), UpdateKind) == if UpdateIsLeft(g, w) then 1 else 0
  {
    UntagLeftUpdates(g, w);
    PlannedAfter(if IsUnprepared(g, w) then [PrepareAgent(g.id)] else [], UntagLeft(g, w), UpdateKind);
  }

  /** What a round without failures leaves: the target tags, a spec that differs only if it did and cannot be made to
      agree, and an agent that is unprepared only after an update. */
  ghost predicate IsGood(g: Goal, st: State, st': State)
    requires Pursues(g, st)
  {
    && Pursues(g, st') && HasTargetTags(g, st'.w) && |st'.w.log| >= |st.w.log|
    && (SpecDiffers(g, st'.w) <==> SpecDiffers(g, st.w) && !IsAgreeable(g))
    && (IsUnprepared(g, st'.w) ==> UpdateIsLeft(g, st.w))
    && (StatusOf(g, st'.w) == "" <==> StatusOf(g, st.w) == "" && !UpdateIsLeft(g, st.w))
    && Count(st'.w.log, UpdateKind) == Count(st.w.log, UpdateKind) + (if UpdateIsLeft(g, st.w) then 1 else 0)
  }

  lemma GoodRound(g: Goal, bk: Backend, st: State, st': State)
    requires Pursues(g, st) && IsRound(g.m, bk, st, st') && NoFailuresFrom(bk, |st.w.log|)
    ensures IsGood(g, st, st')
  {
    PursuingIsReady(g, st);
    ReadSucceeds(g, bk, st);
    RoundPursues(g, bk, st, st');
    RoundDoesWhatIsLeft(g, bk, st);
    var w := Read(g.m.cfg, bk, st.w, st.a).world;
    ReadCompares(g, bk, st);
    SameRemote(g, st.w, w);
    RemainingCompletes(g, bk, w);
    UsefulPlanSucceeds(g, bk, w, Remaining(g, w));
    RemainingUpdates(g, w);
    ExecutedAsPlanned(bk, w, Remaining(g, w), UpdateKind);
    ReadIsCountedAsRead(g.m.cfg, bk, st.w, st.a, UpdateKind);
  }

  // ----- Who can settle does -----

  /** At most the preparation is left to do. */
  ghost predicate IsFinishing(g: Goal, st: State) {
    Pursues(g, st) && HasTargetTags(g, st.w) && !SpecDiffers(g, st.w) && StatusOf(g, st.w) != ""
  }

  lemma GoodCreation(m: Settings, bk: Backend, st: State, st': State)
    requires IsRound(m, bk, st, st') && !IsCreated(st) && NoFailuresFrom(bk, |st.w.log|)
    requires !IsBlocked(ConditionSeq(st.a))
    requires Codec.EncodeSpec(m.round, st.a.spec).Ok?
    ensures var g := Born(m, bk, st.w, st.a);
            Pursues(g, st') && IsNewborn(g, st'.w) && |st'.w.log| >= |st.w.log|
  {
    NotFoundIff(m.cfg, bk, st);
    UncreatedRound(m, bk, st, st');
    CreationBinds(m, bk, st.w, st.a);
    OnlyConditionsChange(m.cfg, CreateOutcome(m, bk, st.w, st.a).result.value, NotFound);
  }

  lemma FirstGoodRound(m: Settings, bk: Backend, x: State, y: State) returns (g: Goal)
    requires IsRound(m, bk, x, y) && CanSettleFrom(m, x) && NoFailuresFrom(bk, |x.w.log|)
    ensures g.m == m && IsFinishing(g, y) && |y.w.log| >= |x.w.log|
  {
    if IsCreated(x) {
      g := GoalOf(m, x);
      GoodRound(g, bk, x, y);
    } else {
      g := Born(m, bk, x.w, x.a);
      GoodCreation(m, bk, x, y);
    }
  }

  lemma FinishingSettles(g: Goal, bk: Backend, y: State, z: State)
    requires IsFinishing(g, y) && IsRound(g.m, bk, y, z) && NoFailuresFrom(bk, |y.w.log|)
    ensures IsFinishing(g, z) && |z.w.log| >= |y.w.log| && IsSettled(g.m, bk, z)
  {
    GoodRound(g, bk, y, z);
    SettledIff(g, bk, z);
  }

  lemma NextIsFinishing(m: Settings, bk: Backend, states: seq<State>, i: nat) returns (g: Goal)
    requires IsRun(m, bk, states) && i + 1 < |states| && NoFailuresFrom(bk, |states[i].w.log|)
    requires Ready(states[i]) && CanSettleFrom(m, states[i])
    ensures g.m == m && IsFinishing(g, states[i + 1]) && |states[i + 1].w.log| >= |states[i].w.log|
  {
    assert IsRoundAt(m, bk, states, i);
    g := FirstGoodRound(m, bk, states[i], states[i + 1]);
  }

  lemma NextSettles(m: Settings, bk: Backend, states: seq<State>, g: Goal, i: nat)
    requires IsRun(m, bk, states) && i + 1 < |states| && NoFailuresFrom(bk, |states[i].w.log|)
    requires g.m == m && IsFinishing(g, states[i])
    ensures IsSettled(m, bk, states[i + 1])
  {
    assert IsRoundAt(m, bk, states, i);
    FinishingSettles(g, bk, states[i], states[i + 1]);
  }

  lemma NextStaysFinishing(m: Settings, bk: Backend, states: seq<State>, g: Goal, i: nat)
    requires IsRun(m, bk, states) && i + 1 < |states| && NoFailuresFrom(bk, |states[i].w.log|)
    requires g.m == m && IsFinishing(g, states[i])
    ensures IsFinishing(g, states[i + 1]) && |states[i + 1].w.log| >= |states[i].w.log|
  {
    assert IsRoundAt(m, bk, states, i);
    FinishingSettles(g, bk, states[i], states[i + 1]);
  }

  lemma {:induction false} StaysFinishing(m: Settings, bk: Backend, states: seq<State>, g: Goal, i: nat, j: nat)
    requires IsRun(m, bk, states) && i <= j < |states| && NoFailuresFrom(bk, |states[i].w.log|)
    requires g.m == m && IsFinishing(g, states[i])
    ensures IsFinishing(g, states[j]) && |states[j].w.log| >= |states[i].w.log|
    decreases j
  {
    if i < j {
      StaysFinishing(m, bk, states, g, i, j - 1);
      NextStaysFinishing(m, bk, states, g, j - 1);
    }
  }

  /** From a state that can settle, two rounds without failures are enough, for good. */
  lemma Converges(m: Settings, bk: Backend, states: seq<State>, n: nat, j: nat)
    requires IsRun(m, bk, states) && n + 2 <= j < |states| && NoFailuresFrom(bk, |states[n].w.log|)
    requires Ready(states[n]) && CanSettleFrom(m, states[n])
    ensures IsSettled(m, bk, states[j])
  {
    var g := NextIsFinishing(m, bk, states, n);
    StaysFinishing(m, bk, states, g, n + 1, j - 1);
    NextSettles(m, bk, states, g, j - 1);
  }

  /** A run that starts in a state that cannot settle is never settled, whatever fails or does not. */
  lemma NeverSettles(m: Settings, bk: Backend, states: seq<State>, j: nat)
    requires IsRun(m, bk, states) && IsNeverDenied(bk, states) && j < |states|
    requires Ready(states[0]) && !CanSettleFrom(m, states[0])
    ensures !IsSettled(m, bk, states[j])
  {
    RunKeepsSettling(m, bk, states, j);
    if IsSettled(m, bk, states[j]) {
      SettledCanSettle(m, bk, states[j]);
    }
  }

  /** In every run in which the service never denies the agent: from two rounds after the last failure on, whatever
      failed before, the agent is settled iff the state that the run started from can settle. */
  lemma SettlesIff(m: Settings, bk: Backend, states: seq<State>, n: nat, j: nat)
    requires IsRun(m, bk, states) && IsNeverDenied(bk, states) && Ready(states[0])
    requires n + 2 <= j < |states| && NoFailuresFrom(bk, |states[n].w.log|)
    ensures IsSettled(m, bk, states[j]) <==> CanSettleFrom(m, states[0])
  {
    RunKeepsSettling(m, bk, states, n);
    if CanSettleFrom(m, states[0]) {
      Converges(m, bk, states, n, j);
    } else {
      NeverSettles(m, bk, states, j);
    }
  }

  // ----- Updates for ever -----

  /** The payload is accepted, but the spec does not survive it. */
  ghost predicate IsRestless(g: Goal, st: State) {
    Pursues(g, st) && UpdateIsLeft(g, st.w) && !IsAgreeable(g)
  }

  /** Still restless after `n` rounds without failures, each of which has made one more update. */
  ghost predicate IsRestlessSince(g: Goal, first: State, n: nat, st: State) {
    && IsRestless(g, st) && |st.w.log| >= |first.w.log|
    && Count(st.w.log, UpdateKind) == Count(first.w.log, UpdateKind) + n
  }

  lemma StaysRestless(g: Goal, bk: Backend, first: State, n: nat, st: State, st': State)
    requires IsRestlessSince(g, first, n, st) && IsRound(g.m, bk, st, st') && NoFailuresFrom(bk, |first.w.log|)
    ensures IsRestlessSince(g, first, n + 1, st')
  {
    GoodRound(g, bk, st, st');
  }

  lemma RestlessAtFirst(states: seq<State>, g: Goal, i: nat, n: nat)
    requires n == 0 && i < |states| && IsRestless(g, states[i])
    ensures IsRestlessSince(g, states[i], n, states[i + n]) == true
  {
  }

  lemma NextIsRestless(bk: Backend, states: seq<State>, g: Goal, i: nat, n: nat)
    requires IsRun(g.m, bk, states) && 0 < n && i + n < |states| && NoFailuresFrom(bk, |states[i].w.log|)
    requires IsRestlessSince(g, states[i], n - 1, states[i + n - 1]) == true
    ensures IsRestlessSince(g, states[i], n, states[i + n]) == true
  {
    assert IsRoundAt(g.m, bk, states, i + n - 1);
    StaysRestless(g, bk, states[i], n - 1, states[i + n - 1], states[i + n]);
  }

  lemma {:induction false} RunIsRestless(bk: Backend, states: seq<State>, g: Goal, i: nat, n: nat)
    requires IsRun(g.m, bk, states) && i + n < |states| && NoFailuresFrom(bk, |states[i].w.log|)
    requires IsRestless(g, states[i]) == true
    ensures IsRestlessSince(g, states[i], n, states[i + n]) == true
    decreases n
  {
    if n == 0 {
      RestlessAtFirst(states, g, i, n);
    } else {
      RunIsRestless(bk, states, g, i, n - 1);
      NextIsRestless(bk, states, g, i, n);
    }
  }

  /** Then every round in which nothing fails makes one more UpdateAgent call succeed. */
  lemma UpdatesForEver(m: Settings, bk: Backend, states: seq<State>, g: Goal, i: nat, j: nat)
    requires IsRun(m, bk, states) && i <= j < |states| && NoFailuresFrom(bk, |states[i].w.log|)
    requires g.m == m && IsRestless(g, states[i])
    ensures IsRestless(g, states[j]) && |states[j].w.log| >= |states[i].w.log|
    ensures Count(states[j].w.log, UpdateKind) == Count(states[i].w.log, UpdateKind) + (j - i)
  {
    RunIsRestless(bk, states, g, i, j - i);
  }

  lemma NextIsBornRestless(m: Settings, bk: Backend, states: seq<State>)
    requires IsRun(m, bk, states) && |states| > 1 && NoFailuresFrom(bk, |states[0].w.log|)
    requires Ready(states[0]) && !IsCreated(states[0]) && !IsBlocked(ConditionSeq(states[0].a))
    requires Codec.EncodeSpec(m.round, states[0].a.spec).Ok? && !Agreement.Survives(m.round, states[0].a.spec)
    ensures IsRestless(Born(m, bk, states[0].w, states[0].a), states[1]) && |states[1].w.log| >= |states[0].w.log|
    ensures Count(states[1].w.log, UpdateKind) == Count(states[0].w.log, UpdateKind)
  {
    assert IsRoundAt(m, bk, states, 0);
    GoodCreation(m, bk, states[0], states[1]);
    UncreatedRound(m, bk, states[0], states[1]);
  }

  /** In particular an agent that is created with such a spec is updated in every round after its creation. */
  lemma CreatedAgentIsUpdatedForEver(m: Settings, bk: Backend, states: seq<State>, j: nat)
    requires IsRun(m, bk, states) && 1 <= j < |states| && NoFailuresFrom(bk, |states[0].w.log|)
    requires Ready(states[0]) && !IsCreated(states[0]) && !IsBlocked(ConditionSeq(states[0].a))
    requires Codec.EncodeSpec(m.round, states[0].a.spec).Ok? && !Agreement.Survives(m.round, states[0].a.spec)
    ensures Count(states[j].w.log, UpdateKind) == Count(states[0].w.log, UpdateKind) + (j - 1)
  {
    NextIsBornRestless(m, bk, states);
    UpdatesForEver(m, bk, states, Born(m, bk, states[0].w, states[0].a), 1, j);
  }

  // ----- Bounded exactly if tame -----

  lemma NoFailuresNoDenials(m: Settings, bk: Backend, states: seq<State>)
    requires IsRun(m, bk, states) && NoFailuresFrom(bk, 0)
    ensures IsNeverDenied(bk, states)
  {
    forall i | 0 <= i < |states| - 1 ensures !IsDeniedAt(bk, states, i) {
      assert IsRoundAt(m, bk, states, i);
      if IsCreated(states[i]) {
        DeniedIff(bk, states[i]);
      }
    }
  }

  function Updates(st: State): nat {
    Count(st.w.log, UpdateKind)
  }

  /** A run in which updates are not tame and nothing fails makes a second update. */
  lemma WildRunUpdatesTwice(m: Settings, bk: Backend, states: seq<State>)
    requires IsRun(m, bk, states) && |states| == 4 && NoFailuresFrom(bk, 0)
    requires Ready(states[0]) && !UpdatesAreTame(m, states[0])
    ensures Updates(states[3]) >= Updates(states[0]) + 2
  {
    if IsCreated(states[0]) {
      UpdatesForEver(m, bk, states, GoalOf(m, states[0]), 0, 3);
    } else {
      CreatedAgentIsUpdatedForEver(m, bk, states, 3);
    }
  }

  ghost predicate IsUndeniedRun(m: Settings, bk: Backend, states: seq<State>, st: State) {
    IsRun(m, bk, states) && IsNeverDenied(bk, states) && states[0] == st
  }

  lemma TameRunUpdatesOnce(m: Settings, bk: Backend, states: seq<State>, st: State)
    requires Ready(st) && UpdatesAreTame(m, st) && IsUndeniedRun(m, bk, states, st)
    ensures Updates(states[|states| - 1]) <= Updates(st) + 1
  {
    WritesAreBounded(m, bk, states, |states| - 1, UpdateKind);
  }

  lemma WildRun(m: Settings, st: State) returns (bk: Backend, states: seq<State>)
    requires Ready(st) && !UpdatesAreTame(m, st)
    ensures IsUndeniedRun(m, bk, states, st) && Updates(states[|states| - 1]) > Updates(st) + 1
  {
    bk := Backend(_ => None, _ => "agent", _ => "arn");
    states := RunsGoOn(m, bk, st, 3);
    NoFailuresNoDenials(m, bk, states);
    WildRunUpdatesTwice(m, bk, states);
  }

  /** The exact condition for updates to be bounded: they are tame iff in no run from here in which the service never
      denies the agent, whatever fails, a second UpdateAgent succeeds. */
  lemma UpdatesAreTameIff(m: Settings, st: State)
    requires Ready(st)
    ensures UpdatesAreTame(m, st)
            <==> forall bk: Backend, states: seq<State> :: IsUndeniedRun(m, bk, states, st) ==>
                   Updates(states[|states| - 1]) <= Updates(st) + 1
  {
    if UpdatesAreTame(m, st) {
      forall bk: Backend, states: seq<State> | IsUndeniedRun(m, bk, states, st)
        ensures Updates(states[|states| - 1]) <= Updates(st) + 1
      {
        TameRunUpdatesOnce(m, bk, states, st);
      }
    } else {
      var bk, states := WildRun(m, st);
    }
  }

  /** Without a second condition of a type nothing is hidden: an agent that does not exist yet can settle iff its
      payload is accepted and its spec survives. */
  lemma UniqueStartCanSettleIff(m: Settings, st: State)
    requires Ready(st) && !IsCreated(st) && Unique(ConditionSeq(st.a))
    ensures CanSettleFrom(m, st)
            <==> Codec.EncodeSpec(m.round, st.a.spec).Ok? && Agreement.Survives(m.round, st.a.spec)
  {
    UniqueIsNotBlocked(ConditionSeq(st.a));
  }

  // ----- The hypotheses can be met -----

  const EMPTY_SPEC: AgentSpec :=
    AgentSpec(None, None, None, None, None, None, None, None, None, None, None, None, None, None, None)

  const EMPTY_STATUS: AgentStatus :=
    AgentStatus(None, None, None, None, Details(None, None, None, None, None, None, None))

  lemma EmptySpecSurvives(m: Settings)
    ensures NoNilElements(EMPTY_SPEC) && ModesSet(EMPTY_SPEC)
    ensures Codec.EncodeSpec(m.round, EMPTY_SPEC).Ok? && Agreement.Survives(m.round, EMPTY_SPEC)
  {
  }

  /** Runs from an agent that does not exist yet, of a service that never fails. */
  lemma ExampleRun(m: Settings, spec: AgentSpec, n: nat) returns (bk: Backend, states: seq<State>)
    requires NoNilElements(spec) && ModesSet(spec)
    ensures IsRun(m, bk, states) && |states| == n + 1 && IsNeverDenied(bk, states) && NoFailuresFrom(bk, 0)
    ensures states[0] == State(Agent("default", spec, EMPTY_STATUS), World(map[], map[], []))
  {
    bk := Backend(_ => None, _ => "agent", _ => "arn");
    states := RunsGoOn(m, bk, State(Agent("default", spec, EMPTY_STATUS), World(map[], map[], [])), n);
    NoFailuresNoDenials(m, bk, states);
  }

  /** An agent without fields, created by a service that never fails, is settled after two rounds and stays so. */
  lemma ExampleSettles(m: Settings, n: nat) returns (bk: Backend, states: seq<State>)
    requires n >= 2
    ensures IsRun(m, bk, states) && |states| == n + 1 && Ready(states[0]) && !IsCreated(states[0])
    ensures IsNeverDenied(bk, states) && NoFailuresFrom(bk, 0) && IsSettled(m, bk, states[n])
  {
    EmptySpecSurvives(m);
    bk, states := ExampleRun(m, EMPTY_SPEC, n);
    Converges(m, bk, states, 0, n);
  }

  const WARM_INFERENCE := InferenceConfiguration(None, None, Some(0.7), None, None)

  const WARM_PROMPT :=
    PromptConfiguration(None, None, Some(WARM_INFERENCE), None, Some("OVERRIDDEN"), None, Some("ORCHESTRATION"))

  /** One prompt that is compared, with a temperature of 0.7. */
  const WARM_SPEC := EMPTY_SPEC.(promptOverride := Some(PromptOverrideConfiguration(None, Some([Some(WARM_PROMPT)]))))

  lemma WarmSpecIsAccepted(m: Settings)
    requires forall x :: Agreement.IsDyadic(m.round(x))
    ensures NoNilElements(WARM_SPEC) && ModesSet(WARM_SPEC)
    ensures Codec.EncodeSpec(m.round, WARM_SPEC).Ok? && !Agreement.Survives(m.round, WARM_SPEC)
  {
    assert Prompts(WARM_SPEC) == [Some(WARM_PROMPT)];
    assert Codec.AllFit(Codec.Numbers(WARM_SPEC)) by {
      forall n | n in Codec.Numbers(WARM_SPEC) ensures n == Codec.Fraction(0.7) {
        assert n in Codec.PromptNumbers(WARM_PROMPT);
      }
    }
    Codec.AcceptedIffAllNumbersFit(m.round, WARM_SPEC);
    Agreement.SevenTenthsDoesNotSurvive(m.round, WARM_SPEC, 0);
  }

  /** An agent with such a prompt, created by a service that never fails, is updated in every later round. */
  lemma ExampleUpdatesForEver(m: Settings, n: nat) returns (bk: Backend, states: seq<State>)
    requires n >= 1 && forall x :: Agreement.IsDyadic(m.round(x))
    ensures IsRun(m, bk, states) && |states| == n + 1 && Ready(states[0]) && !IsCreated(states[0])
    ensures IsNeverDenied(bk, states) && NoFailuresFrom(bk, 0) && Updates(states[n]) == n - 1
  {
    WarmSpecIsAccepted(m);
    bk, states := ExampleRun(m, WARM_SPEC, n);
    CreatedAgentIsUpdatedForEver(m, bk, states, n);
  }

  // ----- Conditions along a run -----

  lemma ConcludedIsUnique(cfg: Config, fallback: Agent, outcome: Outcome<Agent>)
    requires Unique(ConditionSeq(fallback))
    requires outcome.result.Ok? ==> Unique(ConditionSeq(outcome.result.value))
    ensures Unique(ConditionSeq(Concluded(cfg, fallback, outcome).returned))
  {
    match outcome.result
    case Ok(a) =>
      OnlyConditionsChange(cfg, a, NotFound);
      StepEffect(ConditionSeq(a), Succeeded);
    case Err(e) =>
      OnlyConditionsChange(cfg, fallback, e);
      StepEffect(ConditionSeq(fallback), Failed(e));
  }

  lemma UpdateKeepsConditions(m: Settings, bk: Backend, w: World, desired: Agent, latest: Agent, paths: seq<Delta.Path>)
    requires CanUpdate(desired, latest, paths)
    ensures var outcome := UpdateOutcome(m, bk, w, desired, latest, paths);
            outcome.result.Ok? ==> ConditionSeq(outcome.result.value) == ConditionSeq(desired)
  {
  }

  lemma CreationKeepsConditions(m: Settings, bk: Backend, w: World, a: Agent)
    requires NoNilElements(a.spec)
    ensures var outcome := CreateOutcome(m, bk, w, a);
            outcome.result.Ok? ==> ConditionSeq(outcome.result.value) == ConditionSeq(a)
  {
  }

  lemma ReadKeepsUnique(m: Settings, bk: Backend, st: State)
    requires CanFind(st.w, st.a) && Unique(ConditionSeq(st.a))
    ensures Unique(ConditionSeq(Read(m.cfg, bk, st.w, st.a).returned))
    ensures ConditionSeq(ReadInput(m.cfg, bk, st.w, st.a)) == ConditionSeq(st.a)
  {
    WhatIsFound(m.cfg, bk, st.w, st.a);
    ConcludedIsUnique(m.cfg, st.a, FindOutcome(m.cfg, bk, st.w, st.a));
  }

  lemma UpdateKeepsUnique(m: Settings, bk: Backend, w: World, desired: Agent, latest: Agent, paths: seq<Delta.Path>)
    requires CanUpdate(desired, latest, paths)
    requires Unique(ConditionSeq(desired)) && Unique(ConditionSeq(latest))
    ensures Unique(ConditionSeq(Updating(m, bk, w, desired, latest, paths).returned))
  {
    UpdateKeepsConditions(m, bk, w, desired, latest, paths);
    ConcludedIsUnique(m.cfg, latest, UpdateOutcome(m, bk, w, desired, latest, paths));
  }

  lemma CreationKeepsUnique(m: Settings, bk: Backend, w: World, a: Agent)
    requires NoNilElements(a.spec) && Unique(ConditionSeq(a))
    ensures Unique(ConditionSeq(Creating(m, bk, w, a).returned))
  {
    CreationKeepsConditions(m, bk, w, a);
    ConcludedIsUnique(m.cfg, a, CreateOutcome(m, bk, w, a));
  }

  /** The reconciler never produces a second Terminal or Recoverable condition. */
  lemma RoundKeepsUnique(m: Settings, bk: Backend, st: State, st': State)
    requires IsRound(m, bk, st, st') && Unique(ConditionSeq(st.a))
    ensures Unique(ConditionSeq(st'.a))
  {
    ReadIsSafe(m, bk, st);
    ReadKeepsUnique(m, bk, st);
    var read, desired := Read(m.cfg, bk, st.w, st.a), ReadInput(m.cfg, bk, st.w, st.a);
    if read.error == Some(NotFound) {
      CreationKeepsUnique(m, bk, read.world, st.a);
    } else if read.error.None? {
      UpdateKeepsUnique(m, bk, read.world, desired, read.returned, Compared(m, desired, read.returned));
    }
  }

  lemma NextIsUnique(m: Settings, bk: Backend, states: seq<State>, i: nat)
    requires IsRun(m, bk, states) && i + 1 < |states| && Unique(ConditionSeq(states[i].a))
    ensures Unique(ConditionSeq(states[i + 1].a))
  {
    assert IsRoundAt(m, bk, states, i);
    RoundKeepsUnique(m, bk, states[i], states[i + 1]);
  }

  lemma {:induction false} RunKeepsUnique(m: Settings, bk: Backend, states: seq<State>, n: nat)
    requires IsRun(m, bk, states) && Unique(ConditionSeq(states[0].a)) && n < |states|
    ensures Unique(ConditionSeq(states[n].a))
  {
    if n > 0 {
      RunKeepsUnique(m, bk, states, n - 1);
      NextIsUnique(m, bk, states, n - 1);
    }
  }
}
