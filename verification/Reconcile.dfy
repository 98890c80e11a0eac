/** Reconciliation as rounds: read the agent, create it if it was not found, otherwise compare and update. The order is
    that of the ACK runtime, which keeps the status a method returns and leaves the user's spec alone. */
module Reconcile {
  import opened Api
  import opened Conditions
  import opened Manager
  import opened Remote
  import opened Resources
  import Codec
  import Delta
  import Payloads
  import Sdk
  import Tags

  /** The stored resource, that is the user's spec with the status kept so far, and the remote world. */
  datatype State = State(a: Agent, w: World)

  // ----- States in which nothing that the code dereferences is nil -----

  predicate HasModes(f: Sdk.Fields) {
    f.promptOverride.Some? && f.promptOverride.value.promptConfigurations.Some? ==>
      forall i :: 0 <= i < |f.promptOverride.value.promptConfigurations.value| ==>
        f.promptOverride.value.promptConfigurations.value[i].promptCreationMode != ""
  }

  /** The service knows the agent under this id, with an ARN that has tags. */
  predicate IsBound(w: World, id: string) {
    && id in w.agents && w.agents[id].agentId == Some(id)
    && w.agents[id].agentArn.Some? && w.agents[id].agentArn.value in w.tags
    && HasModes(w.agents[id].fields)
  }

  ghost predicate Ready(st: State) {
    && NoNilElements(st.a.spec) && ModesSet(st.a.spec)
    && (st.a.status.agentID.Some? ==> IsBound(st.w, st.a.status.agentID.value))
  }

  /** What the drift detector dereferences of a returned agent is there iff no creation mode was sent as "". */
  lemma DecodedModesIff(f: Sdk.Fields, prior: AgentSpec)
    ensures ModesPresent(Codec.DecodeFields(f, prior)) <==> HasModes(f)
  {
    if f.promptOverride.Some? && f.promptOverride.value.promptConfigurations.Some? {
      var xs := f.promptOverride.value.promptConfigurations.value;
      var ps := Prompts(Codec.DecodeFields(f, prior));
      assert ps == Codec.DecodePrompts(xs);
      forall i | 0 <= i < |xs| ensures ps[i].value.promptCreationMode.Some? <==> xs[i].promptCreationMode != "" {
      }
    }
  }

  /** For every spec whose numbers fit: the payload has all creation modes iff each is present and not "". */
  lemma EncodedModesIff(round: real -> real, s: AgentSpec)
    requires NoNilElements(s) && Codec.EncodeSpec(round, s).Ok?
    ensures HasModes(Codec.EncodeSpec(round, s).value) <==> ModesSet(s)
  {
    if s.promptOverride.Some? && s.promptOverride.value.promptConfigurations.Some? {
      var ps := Prompts(s);
      var xs := Codec.EncodePrompts(round, ps).value;
      forall i | 0 <= i < |xs|
        ensures xs[i].promptCreationMode != "" <==>
                  ps[i].value.promptCreationMode.Some? && ps[i].value.promptCreationMode != Some("")
      {
        assert Codec.EncodePrompt(round, ps[i].value) == Ok(xs[i]);
      }
    } else {
      assert Prompts(s) == [];
    }
  }

  /** Tags play no part in the prompts, the numbers and the payload of an update. */
  lemma TagsDoNotMatter(round: real -> real, a: Agent, tags: SpecTags)
    requires NoNilElements(a.spec)
    ensures NoNilElements(WithTags(a, tags).spec)
    ensures ModesPresent(WithTags(a, tags).spec) == ModesPresent(a.spec)
    ensures ModesSet(WithTags(a, tags).spec) == ModesSet(a.spec)
    ensures Codec.EncodeSpec(round, WithTags(a, tags).spec) == Codec.EncodeSpec(round, a.spec)
  {
    assert Prompts(WithTags(a, tags).spec) == Prompts(a.spec);
    assert MemoryTypes(WithTags(a, tags).spec) == MemoryTypes(a.spec);
  }

  // ----- A round -----

  function Kept(a: Agent, returned: Agent): Agent {
    a.(status := returned.status)
  }

  /** What a round may do after a read that succeeded. */
  ghost predicate CanCompare(m: Settings, desired: Agent, latest: Agent) {
    && ModesPresent(desired.spec) && ModesPresent(latest.spec)
    && CanUpdate(desired, latest, Delta.DeltaPaths(m.sameStrings, Some(desired), Some(latest)))
  }

  function Compared(m: Settings, desired: Agent, latest: Agent): seq<Delta.Path>
    requires CanCompare(m, desired, latest)
  {
    Delta.DeltaPaths(m.sameStrings, Some(desired), Some(latest))
  }

  lemma ReadIsSafe(m: Settings, bk: Backend, st: State)
    requires Ready(st)
    ensures CanFind(st.w, st.a)
    ensures var read := Read(m.cfg, bk, st.w, st.a);
            read.error.None? ==> CanCompare(m, ReadInput(m.cfg, bk, st.w, st.a), read.returned)
  {
    WhatIsFound(m.cfg, bk, st.w, st.a);
    var found := FindOutcome(m.cfg, bk, st.w, st.a).result;
    if found.Ok? {
      var o := found.value;
      OnlyConditionsChange(m.cfg, o, NotFound);
      TagsDoNotMatter(m.round, st.a, Tags.MirrorSpec(st.a.spec.tags, o.spec.tags));
      var f := st.w.agents[st.a.status.agentID.value].fields;
      DecodedModesIff(f, st.a.spec);
      assert Prompts(o.spec) == Prompts(Codec.DecodeFields(f, st.a.spec));
    }
  }

  function Round(m: Settings, bk: Backend, st: State): State
    requires Ready(st)
  {
    ReadIsSafe(m, bk, st);
    var read := Read(m.cfg, bk, st.w, st.a);
    if read.error == Some(NotFound) then
      var end := Creating(m, bk, read.world, st.a);
      State(Kept(st.a, end.returned), end.world)
    else if read.error.Some? then
      State(Kept(st.a, read.returned), read.world)
    else
      var desired := ReadInput(m.cfg, bk, st.w, st.a);
      var paths := Compared(m, desired, read.returned);
      if paths == [] then State(Kept(st.a, read.returned), read.world)
      else
        var end := Updating(m, bk, read.world, desired, read.returned, paths);
        State(Kept(st.a, end.returned), end.world)
  }

  /** The round as the reconciler runs it on the objects: ReadOne mirrors tags into the desired resource, which is
      the one that is compared and updated afterwards. */
  method RunRound(m: Settings, client: Client, desired: Resource) returns (res: Resource)
    requires Ready(State(desired.View(), client.world)) && desired.Distinct() && Delta.KeepsLength(m.sameStrings)
    modifies client, desired`spec
    ensures State(Kept(old(desired.View()), res.View()), client.world)
            == Round(m, client.backend, old(State(desired.View(), client.world)))
  {
    ghost var a, w := desired.View(), client.world;
    ReadIsSafe(m, client.backend, State(a, w));
    var latest, err := ReadOne(m.cfg, client, desired);
    if err == Some(NotFound) {
      var createErr;
      res, createErr := Create(m, client, desired);
      return;
    }
    if err.Some? {
      return latest;
    }
    res := CompareAndUpdate(m, client, desired, latest);
  }

  method CompareAndUpdate(m: Settings, client: Client, desired: Resource, latest: Resource) returns (res: Resource)
    requires desired.Distinct() && Delta.KeepsLength(m.sameStrings) && CanCompare(m, desired.View(), latest.View())
    modifies client
    ensures var paths := Compared(m, old(desired.View()), old(latest.View()));
            var end := Updating(m, client.backend, old(client.world), old(desired.View()), old(latest.View()), paths);
            if paths == [] then res.View() == old(latest.View()) && client.world == old(client.world)
            else res.View() == end.returned && client.world == end.world
  {
    ghost var d, l := desired.View(), latest.View();
    var delta := Delta.NewResourceDelta(m.sameStrings, desired, latest);
    assert desired.View() == d && latest.View() == l;
    if delta.paths == [] {
      return latest;
    }
    var err;
    res, err := Update(m, client, desired, latest, delta);
  }

  /** One step of a run: from a state in which nothing is nil, a round leads to the next state. */
  ghost predicate IsRound(m: Settings, bk: Backend, before: State, after: State) {
    Ready(before) && after == Round(m, bk, before)
  }

  ghost predicate IsRun(m: Settings, bk: Backend, states: seq<State>) {
    states != [] && forall i :: 0 <= i < |states| - 1 ==> IsRoundAt(m, bk, states, i)
  }

  ghost predicate IsRoundAt(m: Settings, bk: Backend, states: seq<State>, i: nat)
    requires i < |states| - 1
  {
    IsRound(m, bk, states[i], states[i + 1])
  }

  // ----- Counting calls -----

  datatype Kind = ReadKind | CreateKind | PrepareKind | UntagKind | TagKind | UpdateKind

  function KindOf(call: Call): Kind {
    match call
    case GetAgent(_) => ReadKind
    case ListTagsForResource(_) => ReadKind
    case CreateAgent(_) => CreateKind
    case PrepareAgent(_) => PrepareKind
    case UntagResource(_, _) => UntagKind
    case TagResource(_, _) => TagKind
    case UpdateAgent(_) => UpdateKind
  }

  /** The number of calls of a kind that succeeded. */
  function Count(log: seq<Remote.Event>, k: Kind): nat {
    if log == [] then 0
    else
      var last := log[|log| - 1];
      Count(log[..|log| - 1], k) + if KindOf(last.call) == k && last.failure.None? then 1 else 0
  }

  lemma CountAfter(bk: Backend, w: World, call: Call, k: Kind)
    ensures Count(After(bk, w, call).log, k)
            == Count(w.log, k) + if KindOf(call) == k && Failure(bk, w, call).None? then 1 else 0
  {
  }

  lemma ReadIsCountedAsRead(cfg: Config, bk: Backend, w: World, a: Agent, k: Kind)
    requires CanFind(w, a) && k != ReadKind
    ensures Count(FindOutcome(cfg, bk, w, a).world.log, k) == Count(w.log, k)
  {
  }

  /** The calls of a kind in a plan; all of them are counted if none fails. */
  function Planned(plan: seq<Call>, k: Kind): nat {
    if plan == [] then 0 else (if KindOf(plan[0]) == k then 1 else 0) + Planned(plan[1..], k)
  }

  lemma {:induction false} PlannedInParts(p: seq<Call>, q: seq<Call>, k: Kind)
    ensures Planned(p + q, k) == Planned(p, k) + Planned(q, k)
  {
    if p == [] {
      assert p + q == q;
    } else {
      assert (p + q)[1..] == p[1..] + q;
      PlannedInParts(p[1..], q, k);
    }
  }

  lemma {:induction false} ExecutedAsPlanned(bk: Backend, w: World, plan: seq<Call>, k: Kind)
    requires ExecuteError(bk, w, plan).None?
    ensures Count(Execute(bk, w, plan).log, k) == Count(w.log, k) + Planned(plan, k)
    decreases |plan|
  {
    if plan != [] {
      CountAfter(bk, w, plan[0], k);
      ExecutedAsPlanned(bk, After(bk, w, plan[0]), plan[1..], k);
    }
  }

  // ----- What the calls of an update leave alone -----

  predicate IsHarmless(call: Call) {
    !call.CreateAgent? && (call.UpdateAgent? ==> HasModes(call.update.fields))
  }

  lemma HarmlessCall(bk: Backend, w: World, call: Call, id: string)
    requires IsHarmless(call) && IsBound(w, id)
    ensures IsBound(After(bk, w, call), id) && After(bk, w, call).agents[id].agentArn == w.agents[id].agentArn
    ensures Count(After(bk, w, call).log, CreateKind) == Count(w.log, CreateKind)
  {
  }

  lemma {:induction false} HarmlessPlan(bk: Backend, w: World, plan: seq<Call>, id: string)
    requires (forall call :: call in plan ==> IsHarmless(call)) && IsBound(w, id)
    ensures IsBound(Execute(bk, w, plan), id)
    ensures Count(Execute(bk, w, plan).log, CreateKind) == Count(w.log, CreateKind)
    decreases |plan|
  {
    if plan != [] {
      HarmlessCall(bk, w, plan[0], id);
      HarmlessPlan(bk, After(bk, w, plan[0]), plan[1..], id);
    }
  }

  lemma FirstPlanIsHarmless(desired: Agent, latest: Agent, paths: seq<Delta.Path>)
    requires Delta.DifferentAt(paths, Delta.AtAgentStatus) ==> desired.status.agentID.Some?
    requires Delta.DifferentAt(paths, Delta.AtTags) ==> HasArn(latest)
    ensures forall call :: call in FirstPlan(desired, latest, paths) ==> IsHarmless(call)
  {
    TagsPlanIsInOrder(desired, latest, paths);
  }

  lemma FieldsPlanIsHarmless(m: Settings, desired: Agent, paths: seq<Delta.Path>)
    requires NoNilElements(desired.spec) && ModesSet(desired.spec)
    ensures forall call :: call in FieldsPlan(m, desired, paths) ==> IsHarmless(call)
  {
    if Codec.EncodeSpec(m.round, desired.spec).Ok? {
      EncodedModesIff(m.round, desired.spec);
    }
  }

  lemma UpdateIsHarmless(m: Settings, desired: Agent, latest: Agent, paths: seq<Delta.Path>)
    requires CanUpdate(desired, latest, paths) && ModesSet(desired.spec)
    ensures forall call :: call in UpdatePlan(m, desired, latest, paths) ==> IsHarmless(call)
  {
    FirstPlanIsHarmless(desired, latest, paths);
    FieldsPlanIsHarmless(m, desired, paths);
  }

  // ----- What a round keeps -----

  lemma CreationBinds(m: Settings, bk: Backend, w: World, a: Agent)
    requires NoNilElements(a.spec) && ModesSet(a.spec)
    ensures var outcome := CreateOutcome(m, bk, w, a);
            if outcome.result.Ok? then
              && outcome.result.value.status.agentID == Some(bk.newId(|w.log|))
              && IsBound(outcome.world, bk.newId(|w.log|))
              && Count(outcome.world.log, CreateKind) == Count(w.log, CreateKind) + 1
            else
              && Count(outcome.world.log, CreateKind) == Count(w.log, CreateKind)
              && outcome.world.agents == w.agents && outcome.world.tags == w.tags
  {
    var payload := Payloads.CreatePayload(m.round, a.spec);
    if payload.Ok? {
      CountAfter(bk, w, CreateAgent(payload.value), CreateKind);
      EncodedModesIff(m.round, a.spec);
    }
  }

  lemma UpdateKeepsIdentity(m: Settings, bk: Backend, w: World, desired: Agent, latest: Agent, paths: seq<Delta.Path>,
                            id: string)
    requires CanUpdate(desired, latest, paths) && ModesSet(desired.spec)
    requires desired.status.agentID == Some(id) && IsBound(w, id)
    ensures var outcome := UpdateOutcome(m, bk, w, desired, latest, paths);
            && IsBound(outcome.world, id)
            && Count(outcome.world.log, CreateKind) == Count(w.log, CreateKind)
            && (outcome.result.Ok? ==> outcome.result.value.status.agentID == Some(id))
  {
    UpdateTrace(m, bk, w, desired, latest, paths);
    UpdateIsHarmless(m, desired, latest, paths);
    HarmlessPlan(bk, w, UpdatePlan(m, desired, latest, paths), id);
  }

  predicate IsCreated(st: State) {
    st.a.status.agentID.Some?
  }

  /** GetAgent fails because it does not know an agent whose id is known here. */
  predicate IsDenied(bk: Backend, st: State) {
    && IsCreated(st)
    && var failure := Failure(bk, st.w, GetAgent(st.a.status.agentID));
       failure.Some? && ApiCode(failure.value) == Some(NOT_FOUND_CODE)
  }

  /** No other failure makes a read end in NotFound. */
  lemma NotFoundIff(cfg: Config, bk: Backend, st: State)
    requires CanFind(st.w, st.a)
    ensures FindOutcome(cfg, bk, st.w, st.a).result == Err(NotFound) <==> !IsCreated(st) || IsDenied(bk, st)
    ensures Read(cfg, bk, st.w, st.a).error == Some(NotFound)
            <==> (!IsCreated(st) || IsDenied(bk, st)) && !IsBlocked(ConditionSeq(st.a))
  {
    var found := FindOutcome(cfg, bk, st.w, st.a).result;
    if found.Err? {
      TerminalErrorsAreReported(ConditionSeq(st.a), found.error);
    }
  }

  ghost predicate RoundKeeps(bk: Backend, st: State, st': State) {
    && Ready(st') && st'.a.spec == st.a.spec && st'.a.namespace == st.a.namespace
    && (!IsDenied(bk, st) ==>
          && (IsCreated(st) ==> st'.a.status.agentID == st.a.status.agentID)
          && Count(st'.w.log, CreateKind)
             == Count(st.w.log, CreateKind) + if !IsCreated(st) && IsCreated(st') then 1 else 0)
  }

  lemma ConcludedKeepsId(cfg: Config, fallback: Agent, outcome: Outcome<Agent>, id: string)
    requires fallback.status.agentID == Some(id)
    requires outcome.result.Ok? ==> outcome.result.value.status.agentID == Some(id)
    ensures Concluded(cfg, fallback, outcome).returned.status.agentID == Some(id)
  {
  }

  lemma UpdatingKeepsIdentity(m: Settings, bk: Backend, w: World, desired: Agent, latest: Agent, paths: seq<Delta.Path>,
                              id: string)
    requires CanUpdate(desired, latest, paths) && ModesSet(desired.spec)
    requires desired.status.agentID == Some(id) && latest.status.agentID == Some(id) && IsBound(w, id)
    ensures var end := Updating(m, bk, w, desired, latest, paths);
            && end.returned.status.agentID == Some(id) && IsBound(end.world, id)
            && Count(end.world.log, CreateKind) == Count(w.log, CreateKind)
  {
    UpdateKeepsIdentity(m, bk, w, desired, latest, paths, id);
    ConcludedKeepsId(m.cfg, latest, UpdateOutcome(m, bk, w, desired, latest, paths), id);
  }

  /** After a read that succeeds, the known agent is compared with itself. */
  lemma ReadKeepsIdentity(m: Settings, bk: Backend, st: State)
    requires Ready(st) && CanFind(st.w, st.a) && Read(m.cfg, bk, st.w, st.a).error.None?
    ensures var read, desired := Read(m.cfg, bk, st.w, st.a), ReadInput(m.cfg, bk, st.w, st.a);
            && IsCreated(st) && IsBound(read.world, st.a.status.agentID.value) && ModesSet(desired.spec)
            && desired.status.agentID == st.a.status.agentID && read.returned.status.agentID == st.a.status.agentID
            && Count(read.world.log, CreateKind) == Count(st.w.log, CreateKind)
  {
    WhatIsFound(m.cfg, bk, st.w, st.a);
    ReadIsCountedAsRead(m.cfg, bk, st.w, st.a, CreateKind);
    var o := FindOutcome(m.cfg, bk, st.w, st.a).result.value;
    OnlyConditionsChange(m.cfg, o, NotFound);
    TagsDoNotMatter(m.round, st.a, Tags.MirrorSpec(st.a.spec.tags, o.spec.tags));
  }

  lemma RoundAfterUpdate(m: Settings, bk: Backend, st: State)
    requires Ready(st) && CanFind(st.w, st.a) && Read(m.cfg, bk, st.w, st.a).error.None?
    ensures RoundKeeps(bk, st, Round(m, bk, st))
  {
    ReadIsSafe(m, bk, st);
    ReadKeepsIdentity(m, bk, st);
    var read, desired := Read(m.cfg, bk, st.w, st.a), ReadInput(m.cfg, bk, st.w, st.a);
    var id, paths := st.a.status.agentID.value, Compared(m, desired, read.returned);
    UpdatingKeepsIdentity(m, bk, read.world, desired, read.returned, paths, id);
  }

  lemma RoundAfterNotFound(m: Settings, bk: Backend, st: State)
    requires Ready(st) && CanFind(st.w, st.a) && Read(m.cfg, bk, st.w, st.a).error == Some(NotFound)
    ensures RoundKeeps(bk, st, Round(m, bk, st))
  {
    WhatIsFound(m.cfg, bk, st.w, st.a);
    NotFoundIff(m.cfg, bk, st);
    ReadIsCountedAsRead(m.cfg, bk, st.w, st.a, CreateKind);
    var w := Read(m.cfg, bk, st.w, st.a).world;
    CreationBinds(m, bk, w, st.a);
    var outcome := CreateOutcome(m, bk, w, st.a);
    match outcome.result
    case Ok(a) => OnlyConditionsChange(m.cfg, a, NotFound);
    case Err(e) => OnlyConditionsChange(m.cfg, st.a, e);
  }

  lemma RoundAfterError(m: Settings, bk: Backend, st: State)
    requires Ready(st) && CanFind(st.w, st.a) && Read(m.cfg, bk, st.w, st.a).error.Some?
    requires Read(m.cfg, bk, st.w, st.a).error != Some(NotFound)
    ensures RoundKeeps(bk, st, Round(m, bk, st))
  {
    WhatIsFound(m.cfg, bk, st.w, st.a);
    NotFoundIff(m.cfg, bk, st);
    ReadIsCountedAsRead(m.cfg, bk, st.w, st.a, CreateKind);
    var found := FindOutcome(m.cfg, bk, st.w, st.a);
    OnlyConditionsChange(m.cfg, st.a, found.result.error);
  }

  /** A round never reaches a state in which the code would dereference nil, and unless the service denies the
      agent it keeps a known id and creates an agent exactly when it learns one. */
  lemma RoundStaysReady(m: Settings, bk: Backend, st: State)
    requires Ready(st)
    ensures CanFind(st.w, st.a) && RoundKeeps(bk, st, Round(m, bk, st))
  {
    ReadIsSafe(m, bk, st);
    if Read(m.cfg, bk, st.w, st.a).error.None? {
      RoundAfterUpdate(m, bk, st);
    } else if Read(m.cfg, bk, st.w, st.a).error == Some(NotFound) {
      RoundAfterNotFound(m, bk, st);
    } else {
      RoundAfterError(m, bk, st);
    }
  }

  // ----- At most one creation -----

  /** In no state of the run does the service deny the agent: nobody deletes it. All other calls may fail with any
      error, also with this one. */
  ghost predicate IsNeverDenied(bk: Backend, states: seq<State>) {
    forall i :: 0 <= i < |states| - 1 ==> !IsDeniedAt(bk, states, i)
  }

  ghost predicate IsDeniedAt(bk: Backend, states: seq<State>, i: nat)
    requires i < |states|
  {
    IsDenied(bk, states[i])
  }

  /** From one state to a later one a known AgentID stays as it is, and CreateAgent succeeds exactly once if an
      AgentID is learnt and never otherwise. */
  ghost predicate Follows(before: State, after: State) {
    && (IsCreated(before) ==> after.a.status.agentID == before.a.status.agentID)
    && Count(after.w.log, CreateKind) - Count(before.w.log, CreateKind)
       == (if !IsCreated(before) && IsCreated(after) then 1 else 0)
    && after.a.spec == before.a.spec
  }

  lemma RoundFollows(m: Settings, bk: Backend, st: State)
    requires Ready(st) && !IsDenied(bk, st)
    ensures Follows(st, Round(m, bk, st))
  {
    RoundStaysReady(m, bk, st);
  }

  lemma RoundKeepsFollowing(m: Settings, bk: Backend, x: State, y: State, z: State)
    requires Follows(x, y) && IsRound(m, bk, y, z) && !IsDenied(bk, y)
    ensures Follows(x, z)
  {
    RoundFollows(m, bk, y);
  }

  lemma NextFollows(m: Settings, bk: Backend, states: seq<State>, first: State, i: nat)
    requires IsRun(m, bk, states) && IsNeverDenied(bk, states) && i + 1 < |states| && Follows(first, states[i])
    ensures Follows(first, states[i + 1])
  {
    assert IsRoundAt(m, bk, states, i) && !IsDeniedAt(bk, states, i);
    RoundKeepsFollowing(m, bk, first, states[i], states[i + 1]);
  }

  /** Over any stretch of any run and whatever fails, an agent is created at most once and its id never changes. */
  lemma {:induction false} AtMostOneCreation(m: Settings, bk: Backend, states: seq<State>, i: nat, j: nat)
    requires IsRun(m, bk, states) && IsNeverDenied(bk, states) && i <= j < |states|
    ensures Follows(states[i], states[j])
    decreases j
  {
    if i < j {
      AtMostOneCreation(m, bk, states, i, j - 1);
      NextFollows(m, bk, states, states[i], j - 1);
    }
  }

  /** A run never gets stuck: from a ready state there are runs of every length. */
  lemma {:induction false} RunsGoOn(m: Settings, bk: Backend, st: State, n: nat) returns (states: seq<State>)
    requires Ready(st)
    ensures IsRun(m, bk, states) && |states| == n + 1 && states[0] == st && Ready(states[n])
  {
    if n == 0 {
      states := [st];
    } else {
      var before := RunsGoOn(m, bk, st, n - 1);
      states := Extended(m, bk, before);
    }
  }

  lemma RoundIsReady(m: Settings, bk: Backend, st: State, st': State)
    requires IsRound(m, bk, st, st')
    ensures Ready(st')
  {
    RoundStaysReady(m, bk, st);
  }

  lemma SameRound(m: Settings, bk: Backend, states: seq<State>, longer: seq<State>, i: nat)
    requires i < |states| - 1 && states <= longer && IsRoundAt(m, bk, states, i)
    ensures IsRoundAt(m, bk, longer, i)
  {
    assert longer[i] == states[i] && longer[i + 1] == states[i + 1];
  }

  lemma LastRound(m: Settings, bk: Backend, states: seq<State>)
    requires |states| > 1 && IsRound(m, bk, states[|states| - 2], states[|states| - 1])
    ensures IsRoundAt(m, bk, states, |states| - 2)
  {
  }

  lemma Extended(m: Settings, bk: Backend, before: seq<State>) returns (states: seq<State>)
    requires IsRun(m, bk, before) && Ready(before[|before| - 1])
    ensures IsRun(m, bk, states) && |states| == |before| + 1 && states[0] == before[0] && Ready(states[|before|])
  {
    var last := before[|before| - 1];
    var next := Round(m, bk, last);
    RoundIsReady(m, bk, last, next);
    states := before + [next];
    forall i | 0 <= i < |before| ensures IsRoundAt(m, bk, states, i) == true {
      if i < |before| - 1 {
        SameRound(m, bk, before, states, i);
      } else {
        LastRound(m, bk, states);
      }
    }
  }

  /** The number of the CreateAgent call, if this round makes one. */
  function CreationNumber(st: State): nat {
    if IsCreated(st) then |st.w.log| + 1 else |st.w.log|
  }

  /** When a round creates: the agent is unknown or denied, no condition hides the NotFound, the numbers of the spec fit
      and CreateAgent does not fail. */
  ghost predicate WillCreate(m: Settings, bk: Backend, st: State)
    requires Ready(st)
  {
    && (!IsCreated(st) || IsDenied(bk, st)) && !IsBlocked(ConditionSeq(st.a))
    && Codec.AllFit(Codec.Numbers(st.a.spec)) && bk.fails(CreationNumber(st)).None?
  }

  /** So of an agent that exists a second one is created exactly by a denial: the hypothesis is needed. */
  lemma RoundCreatesIff(m: Settings, bk: Backend, st: State)
    requires Ready(st)
    ensures Count(Round(m, bk, st).w.log, CreateKind)
            == Count(st.w.log, CreateKind) + (if WillCreate(m, bk, st) then 1 else 0)
  {
    ReadIsSafe(m, bk, st);
    NotFoundIff(m.cfg, bk, st);
    var read := Read(m.cfg, bk, st.w, st.a);
    if read.error == Some(NotFound) {
      ReadIsCountedAsRead(m.cfg, bk, st.w, st.a, CreateKind);
      Payloads.AcceptedPayloadsIff(m.round, st.a);
      CreationBinds(m, bk, read.world, st.a);
      CreationSucceedsIff(m, bk, read.world, st.a);
      assert |read.world.log| == CreationNumber(st);
    } else {
      RoundStaysReady(m, bk, st);
    }
  }

  lemma CreationSucceedsIff(m: Settings, bk: Backend, w: World, a: Agent)
    requires NoNilElements(a.spec)
    ensures CreateOutcome(m, bk, w, a).result.Ok? <==> Codec.AllFit(Codec.Numbers(a.spec)) && bk.fails(|w.log|).None?
  {
    Payloads.AcceptedPayloadsIff(m.round, a);
  }

  /** The error that denies an agent that the service knows is an injected one. */
  lemma DeniedIff(bk: Backend, st: State)
    requires Ready(st) && IsCreated(st)
    ensures IsDenied(bk, st)
            <==> bk.fails(|st.w.log|).Some? && ApiCode(bk.fails(|st.w.log|).value) == Some(NOT_FOUND_CODE)
  {
  }

  // ----- Creation modes that are "" -----

  /** Right after its creation an agent is read back with the creation modes that the drift detector dereferences iff
      every one in the spec is present and not "": otherwise the next comparison dereferences nil. */
  lemma CreatedAgentIsComparableIff(m: Settings, bk: Backend, w: World, a: Agent)
    requires NoNilElements(a.spec) && CreateOutcome(m, bk, w, a).result.Ok?
    ensures var outcome := CreateOutcome(m, bk, w, a);
            var kept := Kept(a, outcome.result.value);
            && CanFind(outcome.world, kept)
            && var found := FindOutcome(m.cfg, bk, outcome.world, kept).result;
               found.Ok? ==> (ModesPresent(found.value.spec) <==> ModesSet(a.spec))
  {
    var outcome := CreateOutcome(m, bk, w, a);
    var kept := Kept(a, outcome.result.value);
    var f := Codec.EncodeSpec(m.round, a.spec).value;
    EncodedModesIff(m.round, a.spec);
    DecodedModesIff(f, a.spec);
    WhatIsFound(m.cfg, bk, outcome.world, kept);
    var found := FindOutcome(m.cfg, bk, outcome.world, kept).result;
    if found.Ok? {
      assert Prompts(found.value.spec) == Prompts(Codec.DecodeFields(f, a.spec));
    }
  }
}
