/** The drift detector: pkg/resource/agent/delta.go and the comparisons of hooks.go. */
module Delta {
  import opened Api
  import opened Resources
  import opened Tags
  import Remote

  /** The places a delta can name. `Parent` gives the dotted paths of delta.go: AtLambda is
      "Spec.CustomOrchestration.Executor.Lambda". AtAgentStatus is the virtual "Spec.AgentStatus" and
      Nowhere the path "" of a missing resource. */
  datatype Path =
    | Nowhere
    | AtAgentStatus
    | AtPromptOverride | AtOverrideLambda | AtPromptConfigurations
    | AtAgentCollaboration | AtAgentName | AtRoleARN | AtRoleRef
    | AtCustomOrchestration | AtExecutor | AtLambda
    | AtEncryptionKey | AtDescription | AtFoundationModel
    | AtGuardrail | AtGuardrailIdentifier | AtGuardrailVersion
    | AtIdleSessionTTL | AtInstruction
    | AtMemory | AtEnabledMemoryTypes | AtSessionSummary | AtMaxRecentSessions | AtStorageDays
    | AtOrchestrationType
    | AtTags

  function Parent(p: Path): Option<Path> {
    match p
    case AtOverrideLambda => Some(AtPromptOverride)
    case AtPromptConfigurations => Some(AtPromptOverride)
    case AtExecutor => Some(AtCustomOrchestration)
    case AtLambda => Some(AtExecutor)
    case AtGuardrailIdentifier => Some(AtGuardrail)
    case AtGuardrailVersion => Some(AtGuardrail)
    case AtEnabledMemoryTypes => Some(AtMemory)
    case AtSessionSummary => Some(AtMemory)
    case AtMaxRecentSessions => Some(AtSessionSummary)
    case AtStorageDays => Some(AtMemory)
    case _ => None
  }

  function Depth(p: Path): nat {
    match p
    case AtLambda => 2
    case AtMaxRecentSessions => 2
    case _ => if Parent(p).Some? then 1 else 0
  }

  /** Path.Contains: the subject's segments are a prefix of the path's. */
  predicate IsWithin(p: Path, subject: Path)
    decreases Depth(p)
  {
    p == subject || (Parent(p).Some? && IsWithin(Parent(p).value, subject))
  }

  predicate DifferentAt(paths: seq<Path>, subject: Path) {
    exists i :: 0 <= i < |paths| && IsWithin(paths[i], subject)
  }

  predicate DifferentExcept(paths: seq<Path>, subject1: Path, subject2: Path) {
    exists i :: 0 <= i < |paths| && !IsWithin(paths[i], subject1) && !IsWithin(paths[i], subject2)
  }

  const PROMPT_PATHS: seq<Path> := [AtPromptOverride, AtOverrideLambda, AtPromptConfigurations]
  const NAME_PATHS: seq<Path> := [AtAgentCollaboration, AtAgentName, AtRoleARN, AtRoleRef]
  const ORCHESTRATION_PATHS: seq<Path> := [AtCustomOrchestration, AtExecutor, AtLambda]
  const MODEL_PATHS: seq<Path> := [AtEncryptionKey, AtDescription, AtFoundationModel]
  const GUARDRAIL_PATHS: seq<Path> := [AtGuardrail, AtGuardrailIdentifier, AtGuardrailVersion]
  const SESSION_PATHS: seq<Path> := [AtIdleSessionTTL, AtInstruction]
  const MEMORY_PATHS: seq<Path> :=
    [AtMemory, AtEnabledMemoryTypes, AtSessionSummary, AtMaxRecentSessions, AtStorageDays]
  const TYPE_PATHS: seq<Path> := [AtOrchestrationType]
  const FIRST_PATHS: seq<Path> := PROMPT_PATHS + NAME_PATHS + ORCHESTRATION_PATHS + MODEL_PATHS + GUARDRAIL_PATHS
  const LAST_PATHS: seq<Path> := SESSION_PATHS + MEMORY_PATHS + TYPE_PATHS + [AtTags]
  const SPEC_PATHS: seq<Path> := FIRST_PATHS + LAST_PATHS

  // ----- What a spec holds at a path -----

  /** Missing: an ancestor is nil. Nil: the pointer itself is nil. Record: a struct with paths of its own. */
  datatype Cell =
    | Missing
    | Nil
    | Record
    | Str(str: string)
    | Num(num: int)
    | Ref(ref: Option<ReferenceWrapper>)
    | Strings(strings: seq<Option<string>>)
    | PromptList(prompts: seq<Option<PromptConfiguration>>)
    | TagCell(tags: TagMap)

  function StrCell(v: Option<string>): Cell {
    if v.Some? then Str(v.value) else Nil
  }

  function NumCell(v: Option<Int64>): Cell {
    if v.Some? then Num(v.value) else Nil
  }

  /** A prompt that takes part in the comparison: not nil and not in DEFAULT mode. */
  predicate IsLive(p: Option<PromptConfiguration>) {
    p.Some? && p.value.promptCreationMode != Some("DEFAULT")
  }

  function Live(ps: seq<Option<PromptConfiguration>>): (r: seq<Option<PromptConfiguration>>)
    ensures forall i :: 0 <= i < |r| ==> IsLive(r[i]) && r[i] in ps
  {
    if ps == [] then []
    else Live(ps[..|ps| - 1]) + if IsLive(ps[|ps| - 1]) then [ps[|ps| - 1]] else []
  }

  /** ackcompare.SliceStringPEqual is an equivalence of which only this is known: it never relates lists of
      different lengths. It is given by its classes: two lists are equal iff they have the same key. */
  type SliceKey = seq<Option<string>> -> seq<Option<string>>

  ghost predicate KeepsLength(key: SliceKey) {
    forall xs :: |key(xs)| == |xs|
  }

  function Lookup(key: SliceKey, s: AgentSpec, p: Path): Cell {
    match p
    case Nowhere => Missing
    case AtAgentStatus => Missing
    case AtPromptOverride => if s.promptOverride.Some? then Record else Nil
    case AtOverrideLambda => if s.promptOverride.Some? then StrCell(s.promptOverride.value.overrideLambda) else Missing
    case AtPromptConfigurations => if s.promptOverride.Some? then PromptList(Live(Prompts(s))) else Missing
    case AtAgentCollaboration => StrCell(s.agentCollaboration)
    case AtAgentName => StrCell(s.agentName)
    case AtRoleARN => StrCell(s.agentResourceRoleARN)
    case AtRoleRef => Ref(s.agentResourceRoleRef)
    case AtCustomOrchestration => if s.customOrchestration.Some? then Record else Nil
    case AtExecutor =>
      if s.customOrchestration.None? then Missing
      else if s.customOrchestration.value.executor.Some? then Record else Nil
    case AtLambda =>
      if s.customOrchestration.None? || s.customOrchestration.value.executor.None? then Missing
      else StrCell(s.customOrchestration.value.executor.value.lambda)
    case AtEncryptionKey => StrCell(s.customerEncryptionKeyARN)
    case AtDescription => StrCell(s.description)
    case AtFoundationModel => StrCell(s.foundationModel)
    case AtGuardrail => if s.guardrail.Some? then Record else Nil
    case AtGuardrailIdentifier => if s.guardrail.Some? then StrCell(s.guardrail.value.identifier) else Missing
    case AtGuardrailVersion => if s.guardrail.Some? then StrCell(s.guardrail.value.version) else Missing
    case AtIdleSessionTTL => NumCell(s.idleSessionTTLInSeconds)
    case AtInstruction => StrCell(s.instruction)
    case AtMemory => if s.memory.Some? then Record else Nil
    case AtEnabledMemoryTypes => if s.memory.Some? then Strings(key(MemoryTypes(s))) else Missing
    case AtSessionSummary =>
      if s.memory.None? then Missing
      else if s.memory.value.sessionSummary.Some? then Record else Nil
    case AtMaxRecentSessions =>
      if s.memory.None? || s.memory.value.sessionSummary.None? then Missing
      else NumCell(s.memory.value.sessionSummary.value.maxRecentSessions)
    case AtStorageDays => if s.memory.Some? then NumCell(s.memory.value.storageDays) else Missing
    case AtOrchestrationType => StrCell(s.orchestrationType)
    case AtTags => TagCell(Normalize(s.tags))
  }

  /** The specs first part ways here: every ancestor is there on both sides, and the values differ. */
  predicate Differs(key: SliceKey, a: AgentSpec, b: AgentSpec, p: Path) {
    var x, y := Lookup(key, a, p), Lookup(key, b, p);
    !x.Missing? && !y.Missing? && x != y
  }

  function AddIf(paths: seq<Path>, condition: bool, p: Path): seq<Path> {
    if condition then paths + [p] else paths
  }

  /** `found` followed by the paths of the list at which the specs differ, in order. */
  function Collect(key: SliceKey, a: AgentSpec, b: AgentSpec, found: seq<Path>, ps: seq<Path>): seq<Path>
    decreases |ps|
  {
    if ps == [] then found
    else Collect(key, a, b, AddIf(found, Differs(key, a, b, ps[0]), ps[0]), ps[1..])
  }

  function StatusPaths(latestStatus: Option<string>): seq<Path> {
    if latestStatus.Some? && latestStatus.value != Remote.PREPARED then [AtAgentStatus] else []
  }

  /** The whole delta: a status that is not PREPARED, then every differing path of the spec. */
  function DeltaPaths(key: SliceKey, a: Option<Agent>, b: Option<Agent>): seq<Path> {
    if a.None? && b.None? then []
    else if a.None? || b.None? then [Nowhere]
    else Collect(key, a.value.spec, b.value.spec, StatusPaths(b.value.status.agentStatus), SPEC_PATHS)
  }

  // ----- Facts about Collect -----

  lemma {:induction false} CollectConcat(key: SliceKey, a: AgentSpec, b: AgentSpec, found: seq<Path>, ps: seq<Path>,
                                         qs: seq<Path>)
    ensures Collect(key, a, b, found, ps + qs) == Collect(key, a, b, Collect(key, a, b, found, ps), qs)
    decreases |ps|
  {
    if ps == [] {
      assert ps + qs == qs;
    } else {
      assert (ps + qs)[1..] == ps[1..] + qs;
      CollectConcat(key, a, b, AddIf(found, Differs(key, a, b, ps[0]), ps[0]), ps[1..], qs);
    }
  }

  lemma Collect1(key: SliceKey, a: AgentSpec, b: AgentSpec, found: seq<Path>, p: Path)
    ensures Collect(key, a, b, found, [p]) == AddIf(found, Differs(key, a, b, p), p)
  {
  }

  lemma Collect3(key: SliceKey, a: AgentSpec, b: AgentSpec, found: seq<Path>, p: Path, q: Path, r: Path)
    ensures var f1 := AddIf(found, Differs(key, a, b, p), p);
            var f2 := AddIf(f1, Differs(key, a, b, q), q);
            Collect(key, a, b, found, [p, q, r]) == AddIf(f2, Differs(key, a, b, r), r)
  {
    assert [p, q, r] == [p] + [q] + [r];
    CollectConcat(key, a, b, found, [p] + [q], [r]);
    CollectConcat(key, a, b, found, [p], [q]);
  }

  lemma Collect5(key: SliceKey, a: AgentSpec, b: AgentSpec, found: seq<Path>, p: Path, q: Path, r: Path, s: Path,
                 t: Path)
    ensures var f1 := AddIf(found, Differs(key, a, b, p), p);
            var f2 := AddIf(f1, Differs(key, a, b, q), q);
            var f3 := AddIf(f2, Differs(key, a, b, r), r);
            var f4 := AddIf(f3, Differs(key, a, b, s), s);
            Collect(key, a, b, found, [p, q, r, s, t]) == AddIf(f4, Differs(key, a, b, t), t)
  {
    assert [p, q, r, s, t] == [p, q, r] + [s] + [t];
    CollectConcat(key, a, b, found, [p, q, r] + [s], [t]);
    CollectConcat(key, a, b, found, [p, q, r], [s]);
    Collect3(key, a, b, found, p, q, r);
  }

  lemma {:induction false} CollectMember(key: SliceKey, a: AgentSpec, b: AgentSpec, found: seq<Path>, ps: seq<Path>,
                                         p: Path)
    ensures p in Collect(key, a, b, found, ps) <==> p in found || (p in ps && Differs(key, a, b, p))
    decreases |ps|
  {
    if ps != [] {
      CollectMember(key, a, b, AddIf(found, Differs(key, a, b, ps[0]), ps[0]), ps[1..], p);
    }
  }

  // ----- The comparison as delta.go runs it -----

  class Delta {
    var paths: seq<Path>

    constructor ()
      ensures paths == []
    {
      paths := [];
    }

    method Add(p: Path)
      modifies this
      ensures paths == old(paths) + [p]
    {
      paths := paths + [p];
    }
  }

  predicate HasNilDifference<T>(x: Option<T>, y: Option<T>) {
    x.None? != y.None?
  }

  method CompareStatus(delta: Delta, latestStatus: Option<string>)
    modifies delta
    ensures delta.paths == old(delta.paths) + StatusPaths(latestStatus)
  {
    if latestStatus.Some? && latestStatus.value != Remote.PREPARED {
      delta.Add(AtAgentStatus);
    }
  }

  /** The block that delta.go repeats for every pointer to a scalar. */
  method ComparePointer<T(==)>(delta: Delta, p: Path, x: Option<T>, y: Option<T>)
    modifies delta
    ensures delta.paths == AddIf(old(delta.paths), x != y, p)
  {
    if HasNilDifference(x, y) {
      delta.Add(p);
    } else if x.Some? && y.Some? {
      if x.value != y.value {
        delta.Add(p);
      }
    }
  }

  method LivePrompts(s: AgentSpec) returns (live: seq<Option<PromptConfiguration>>)
    requires ModesPresent(s)
    ensures live == Live(Prompts(s))
  {
    var ps := Prompts(s);
    live := [];
    for i := 0 to |ps|
      invariant live == Live(ps[..i])
    {
      assert ps[..i + 1][..i] == ps[..i];
      if ps[i].Some? && ps[i].value.promptCreationMode.value != "DEFAULT" {
        live := live + [ps[i]];
      }
    }
    assert ps[..|ps|] == ps;
  }

  method ComparePromptOverride(key: SliceKey, delta: Delta, a: AgentSpec, b: AgentSpec)
    requires ModesPresent(a) && ModesPresent(b)
    modifies delta
    ensures delta.paths == Collect(key, a, b, old(delta.paths), PROMPT_PATHS)
  {
    Collect3(key, a, b, delta.paths, AtPromptOverride, AtOverrideLambda, AtPromptConfigurations);
    if HasNilDifference(a.promptOverride, b.promptOverride) {
      delta.Add(AtPromptOverride);
    } else if a.promptOverride.Some? && b.promptOverride.Some? {
      var x, y := a.promptOverride.value.overrideLambda, b.promptOverride.value.overrideLambda;
      ComparePointer(delta, AtOverrideLambda, x, y);
      var desiredLive := LivePrompts(a);
      var latestLive := LivePrompts(b);
      if |desiredLive| != |latestLive| {
        delta.Add(AtPromptConfigurations);
      } else if |desiredLive| > 0 {
        if desiredLive != latestLive {
          delta.Add(AtPromptConfigurations);
        }
      }
    }
  }

  method CompareNames(key: SliceKey, delta: Delta, a: AgentSpec, b: AgentSpec)
    modifies delta
    ensures delta.paths == Collect(key, a, b, old(delta.paths), NAME_PATHS)
  {
    ghost var before := delta.paths;
    ComparePointer(delta, AtAgentCollaboration, a.agentCollaboration, b.agentCollaboration);
    Collect1(key, a, b, before, AtAgentCollaboration);
    Collect3(key, a, b, delta.paths, AtAgentName, AtRoleARN, AtRoleRef);
    CollectConcat(key, a, b, before, [AtAgentCollaboration], [AtAgentName, AtRoleARN, AtRoleRef]);
    ComparePointer(delta, AtAgentName, a.agentName, b.agentName);
    ComparePointer(delta, AtRoleARN, a.agentResourceRoleARN, b.agentResourceRoleARN);
    if a.agentResourceRoleRef != b.agentResourceRoleRef {
      delta.Add(AtRoleRef);
    }
  }

  method CompareOrchestration(key: SliceKey, delta: Delta, a: AgentSpec, b: AgentSpec)
    modifies delta
    ensures delta.paths == Collect(key, a, b, old(delta.paths), ORCHESTRATION_PATHS)
  {
    Collect3(key, a, b, delta.paths, AtCustomOrchestration, AtExecutor, AtLambda);
    if HasNilDifference(a.customOrchestration, b.customOrchestration) {
      delta.Add(AtCustomOrchestration);
    } else if a.customOrchestration.Some? && b.customOrchestration.Some? {
      var x, y := a.customOrchestration.value.executor, b.customOrchestration.value.executor;
      if HasNilDifference(x, y) {
        delta.Add(AtExecutor);
      } else if x.Some? && y.Some? {
        ComparePointer(delta, AtLambda, x.value.lambda, y.value.lambda);
      }
    }
  }

  method CompareModel(key: SliceKey, delta: Delta, a: AgentSpec, b: AgentSpec)
    modifies delta
    ensures delta.paths == Collect(key, a, b, old(delta.paths), MODEL_PATHS)
  {
    Collect3(key, a, b, delta.paths, AtEncryptionKey, AtDescription, AtFoundationModel);
    ComparePointer(delta, AtEncryptionKey, a.customerEncryptionKeyARN, b.customerEncryptionKeyARN);
    ComparePointer(delta, AtDescription, a.description, b.description);
    ComparePointer(delta, AtFoundationModel, a.foundationModel, b.foundationModel);
  }

  method CompareGuardrail(key: SliceKey, delta: Delta, a: AgentSpec, b: AgentSpec)
    modifies delta
    ensures delta.paths == Collect(key, a, b, old(delta.paths), GUARDRAIL_PATHS)
  {
    Collect3(key, a, b, delta.paths, AtGuardrail, AtGuardrailIdentifier, AtGuardrailVersion);
    if HasNilDifference(a.guardrail, b.guardrail) {
      delta.Add(AtGuardrail);
    } else if a.guardrail.Some? && b.guardrail.Some? {
      ComparePointer(delta, AtGuardrailIdentifier, a.guardrail.value.identifier, b.guardrail.value.identifier);
      ComparePointer(delta, AtGuardrailVersion, a.guardrail.value.version, b.guardrail.value.version);
    }
  }

  method CompareSession(key: SliceKey, delta: Delta, a: AgentSpec, b: AgentSpec)
    modifies delta
    ensures delta.paths == Collect(key, a, b, old(delta.paths), SESSION_PATHS)
  {
    ghost var before := delta.paths;
    Collect1(key, a, b, before, AtIdleSessionTTL);
    ComparePointer(delta, AtIdleSessionTTL, a.idleSessionTTLInSeconds, b.idleSessionTTLInSeconds);
    Collect1(key, a, b, delta.paths, AtInstruction);
    CollectConcat(key, a, b, before, [AtIdleSessionTTL], [AtInstruction]);
    ComparePointer(delta, AtInstruction, a.instruction, b.instruction);
  }

  method CompareMemoryTypes(key: SliceKey, delta: Delta, a: AgentSpec, b: AgentSpec)
    requires KeepsLength(key)
    modifies delta
    ensures delta.paths == AddIf(old(delta.paths), key(MemoryTypes(a)) != key(MemoryTypes(b)), AtEnabledMemoryTypes)
  {
    var x, y := MemoryTypes(a), MemoryTypes(b);
    if |x| != |y| {
      delta.Add(AtEnabledMemoryTypes);
    } else if |x| > 0 {
      if key(x) != key(y) {
        delta.Add(AtEnabledMemoryTypes);
      }
    } else {
      assert x == y;
    }
  }

  method CompareSessionSummary(key: SliceKey, delta: Delta, a: AgentSpec, b: AgentSpec)
    requires a.memory.Some? && b.memory.Some?
    modifies delta
    ensures delta.paths == AddIf(AddIf(old(delta.paths), Differs(key, a, b, AtSessionSummary), AtSessionSummary),
                                 Differs(key, a, b, AtMaxRecentSessions), AtMaxRecentSessions)
  {
    var x, y := a.memory.value.sessionSummary, b.memory.value.sessionSummary;
    if HasNilDifference(x, y) {
      delta.Add(AtSessionSummary);
    } else if x.Some? && y.Some? {
      ComparePointer(delta, AtMaxRecentSessions, x.value.maxRecentSessions, y.value.maxRecentSessions);
    }
  }

  lemma NoMemoryNoPaths(key: SliceKey, s: AgentSpec)
    requires s.memory.None?
    ensures Lookup(key, s, AtEnabledMemoryTypes).Missing? && Lookup(key, s, AtSessionSummary).Missing?
    ensures Lookup(key, s, AtMaxRecentSessions).Missing? && Lookup(key, s, AtStorageDays).Missing?
  {
  }

  lemma NothingBelowMemory(key: SliceKey, a: AgentSpec, b: AgentSpec)
    requires a.memory.None? || b.memory.None?
    ensures !Differs(key, a, b, AtEnabledMemoryTypes) && !Differs(key, a, b, AtSessionSummary)
    ensures !Differs(key, a, b, AtMaxRecentSessions) && !Differs(key, a, b, AtStorageDays)
  {
    if a.memory.None? {
      NoMemoryNoPaths(key, a);
    } else {
      NoMemoryNoPaths(key, b);
    }
  }

  lemma MemoryDiffersIff(key: SliceKey, a: AgentSpec, b: AgentSpec)
    ensures Differs(key, a, b, AtMemory) <==> a.memory.Some? != b.memory.Some?
  {
  }

  lemma CollectMemory(key: SliceKey, a: AgentSpec, b: AgentSpec, found: seq<Path>)
    ensures var f1 := AddIf(found, Differs(key, a, b, AtEnabledMemoryTypes), AtEnabledMemoryTypes);
            var f2 := AddIf(f1, Differs(key, a, b, AtSessionSummary), AtSessionSummary);
            var f3 := AddIf(f2, Differs(key, a, b, AtMaxRecentSessions), AtMaxRecentSessions);
            Collect(key, a, b, found, MEMORY_PATHS)
            == if a.memory.Some? && b.memory.Some? then AddIf(f3, Differs(key, a, b, AtStorageDays), AtStorageDays)
               else AddIf(found, a.memory.Some? != b.memory.Some?, AtMemory)
  {
    Collect5(key, a, b, found, AtMemory, AtEnabledMemoryTypes, AtSessionSummary, AtMaxRecentSessions, AtStorageDays);
    MemoryDiffersIff(key, a, b);
    if a.memory.None? || b.memory.None? {
      NothingBelowMemory(key, a, b);
    }
  }

  method CompareMemoryFields(key: SliceKey, delta: Delta, a: AgentSpec, b: AgentSpec)
    requires KeepsLength(key) && a.memory.Some? && b.memory.Some?
    modifies delta
    ensures var f1 := AddIf(old(delta.paths), Differs(key, a, b, AtEnabledMemoryTypes), AtEnabledMemoryTypes);
            var f2 := AddIf(f1, Differs(key, a, b, AtSessionSummary), AtSessionSummary);
            var f3 := AddIf(f2, Differs(key, a, b, AtMaxRecentSessions), AtMaxRecentSessions);
            delta.paths == AddIf(f3, Differs(key, a, b, AtStorageDays), AtStorageDays)
  {
    CompareMemoryTypes(key, delta, a, b);
    CompareSessionSummary(key, delta, a, b);
    ComparePointer(delta, AtStorageDays, a.memory.value.storageDays, b.memory.value.storageDays);
  }

  method CompareMemory(key: SliceKey, delta: Delta, a: AgentSpec, b: AgentSpec)
    requires KeepsLength(key)
    modifies delta
    ensures delta.paths == Collect(key, a, b, old(delta.paths), MEMORY_PATHS)
  {
    CollectMemory(key, a, b, delta.paths);
    if HasNilDifference(a.memory, b.memory) {
      delta.Add(AtMemory);
    } else if a.memory.Some? && b.memory.Some? {
      CompareMemoryFields(key, delta, a, b);
    }
  }

  method CompareType(key: SliceKey, delta: Delta, a: AgentSpec, b: AgentSpec)
    modifies delta
    ensures delta.paths == Collect(key, a, b, old(delta.paths), TYPE_PATHS)
  {
    Collect1(key, a, b, delta.paths, AtOrchestrationType);
    ComparePointer(delta, AtOrchestrationType, a.orchestrationType, b.orchestrationType);
  }

  method CompareTags(key: SliceKey, delta: Delta, a: AgentSpec, b: AgentSpec)
    modifies delta
    ensures delta.paths == Collect(key, a, b, old(delta.paths), [AtTags])
  {
    var desiredTags, _ := ConvertToOrderedACKTags(a.tags);
    var latestTags, _ := ConvertToOrderedACKTags(b.tags);
    Collect1(key, a, b, delta.paths, AtTags);
    if desiredTags.m != latestTags.m {
      delta.Add(AtTags);
    }
  }

  method CompareFirstFields(key: SliceKey, delta: Delta, a: AgentSpec, b: AgentSpec)
    requires ModesPresent(a) && ModesPresent(b)
    modifies delta
    ensures delta.paths == Collect(key, a, b, old(delta.paths), FIRST_PATHS)
  {
    CollectFive(key, a, b, delta.paths, PROMPT_PATHS, NAME_PATHS, ORCHESTRATION_PATHS, MODEL_PATHS, GUARDRAIL_PATHS);
    ComparePromptOverride(key, delta, a, b);
    CompareNames(key, delta, a, b);
    CompareOrchestration(key, delta, a, b);
    CompareModel(key, delta, a, b);
    CompareGuardrail(key, delta, a, b);
  }

  method CompareLastFields(key: SliceKey, delta: Delta, a: AgentSpec, b: AgentSpec)
    requires KeepsLength(key)
    modifies delta
    ensures delta.paths == Collect(key, a, b, old(delta.paths), LAST_PATHS)
  {
    CollectFour(key, a, b, delta.paths, SESSION_PATHS, MEMORY_PATHS, TYPE_PATHS, [AtTags]);
    CompareSession(key, delta, a, b);
    CompareMemory(key, delta, a, b);
    CompareType(key, delta, a, b);
    CompareTags(key, delta, a, b);
  }

  lemma CollectFour(key: SliceKey, a: AgentSpec, b: AgentSpec, found: seq<Path>,
                    p: seq<Path>, q: seq<Path>, r: seq<Path>, s: seq<Path>)
    ensures var f1 := Collect(key, a, b, found, p);
            var f2 := Collect(key, a, b, f1, q);
            var f3 := Collect(key, a, b, f2, r);
            Collect(key, a, b, found, p + q + r + s) == Collect(key, a, b, f3, s)
  {
    CollectConcat(key, a, b, found, p + q + r, s);
    CollectConcat(key, a, b, found, p + q, r);
    CollectConcat(key, a, b, found, p, q);
  }

  lemma CollectFive(key: SliceKey, a: AgentSpec, b: AgentSpec, found: seq<Path>,
                    p: seq<Path>, q: seq<Path>, r: seq<Path>, s: seq<Path>, t: seq<Path>)
    ensures var f1 := Collect(key, a, b, found, p);
            var f2 := Collect(key, a, b, f1, q);
            var f3 := Collect(key, a, b, f2, r);
            var f4 := Collect(key, a, b, f3, s);
            Collect(key, a, b, found, p + q + r + s + t) == Collect(key, a, b, f4, t)
  {
    CollectConcat(key, a, b, found, p + q + r + s, t);
    CollectFour(key, a, b, found, p, q, r, s);
  }

  ghost function ViewOf(r: Resource?): Option<Agent>
    reads r, if r == null then {} else r.Objects()
  {
    if r == null then None else Some(r.View())
  }

  /** newResourceDelta; the methods above are its blocks, one for each record. With two nil resources it would
      dereference nil. */
  method NewResourceDelta(key: SliceKey, a: Resource?, b: Resource?) returns (delta: Delta)
    requires KeepsLength(key)
    requires a != null || b != null
    requires a != null && b != null ==> ModesPresent(a.spec) && ModesPresent(b.spec)
    ensures fresh(delta) && delta.paths == DeltaPaths(key, old(ViewOf(a)), old(ViewOf(b)))
  {
    delta := new Delta();
    if (a == null && b != null) || (a != null && b == null) {
      delta.Add(Nowhere);
      return;
    }
    CompareStatus(delta, b.agentStatus);
    assert delta.paths == StatusPaths(b.agentStatus);
    CollectConcat(key, a.spec, b.spec, delta.paths, FIRST_PATHS, LAST_PATHS);
    CompareFirstFields(key, delta, a.spec, b.spec);
    CompareLastFields(key, delta, a.spec, b.spec);
  }

  // ----- What the delta says -----

  lemma SpecPathsAreAll(p: Path)
    ensures p in SPEC_PATHS <==> !p.Nowhere? && !p.AtAgentStatus?
  {
  }

  /** The position of a path in the order of delta.go. */
  function Rank(p: Path): nat {
    match p
    case AtPromptOverride => 0
    case AtOverrideLambda => 1
    case AtPromptConfigurations => 2
    case AtAgentCollaboration => 3
    case AtAgentName => 4
    case AtRoleARN => 5
    case AtRoleRef => 6
    case AtCustomOrchestration => 7
    case AtExecutor => 8
    case AtLambda => 9
    case AtEncryptionKey => 10
    case AtDescription => 11
    case AtFoundationModel => 12
    case AtGuardrail => 13
    case AtGuardrailIdentifier => 14
    case AtGuardrailVersion => 15
    case AtIdleSessionTTL => 16
    case AtInstruction => 17
    case AtMemory => 18
    case AtEnabledMemoryTypes => 19
    case AtSessionSummary => 20
    case AtMaxRecentSessions => 21
    case AtStorageDays => 22
    case AtOrchestrationType => 23
    case AtTags => 24
    case AtAgentStatus => 25
    case Nowhere => 26
  }

  lemma RankIsIndex(i: nat)
    requires i < |SPEC_PATHS|
    ensures |SPEC_PATHS| == 25 && Rank(SPEC_PATHS[i]) == i
  {
  }

  /** A path of the spec is in the delta iff the two specs first part ways there. */
  lemma DeltaIsExact(key: SliceKey, a: Agent, b: Agent, p: Path)
    ensures p in DeltaPaths(key, Some(a), Some(b))
            <==> if p.AtAgentStatus? then StatusPaths(b.status.agentStatus) != []
                 else Differs(key, a.spec, b.spec, p)
  {
    SpecPathsAreAll(p);
    CollectMember(key, a.spec, b.spec, StatusPaths(b.status.agentStatus), SPEC_PATHS, p);
  }

  ghost predicate NoDuplicates(ps: seq<Path>) {
    forall i, j :: 0 <= i < j < |ps| ==> ps[i] != ps[j]
  }

  lemma {:induction false} CollectHasNoDuplicates(key: SliceKey, a: AgentSpec, b: AgentSpec, found: seq<Path>,
                                                  ps: seq<Path>)
    requires NoDuplicates(found + ps)
    ensures NoDuplicates(Collect(key, a, b, found, ps))
    decreases |ps|
  {
    if ps == [] {
      assert found + ps == found;
    } else {
      var found' := AddIf(found, Differs(key, a, b, ps[0]), ps[0]);
      var all := found + ps;
      if Differs(key, a, b, ps[0]) {
        assert found' + ps[1..] == all;
      } else {
        assert found' + ps[1..] == all[..|found|] + all[|found| + 1..];
      }
      CollectHasNoDuplicates(key, a, b, found', ps[1..]);
    }
  }

  lemma SpecPathsHaveNoDuplicates()
    ensures NoDuplicates(SPEC_PATHS) && NoDuplicates([AtAgentStatus] + SPEC_PATHS)
  {
    forall i | 0 <= i < |SPEC_PATHS| ensures Rank(SPEC_PATHS[i]) == i {
      RankIsIndex(i);
    }
  }

  lemma NoPathIsReportedTwice(key: SliceKey, a: Option<Agent>, b: Option<Agent>)
    ensures NoDuplicates(DeltaPaths(key, a, b))
  {
    if a.Some? && b.Some? {
      var found := StatusPaths(b.value.status.agentStatus);
      SpecPathsHaveNoDuplicates();
      assert [] + SPEC_PATHS == SPEC_PATHS;
      CollectHasNoDuplicates(key, a.value.spec, b.value.spec, found, SPEC_PATHS);
    }
  }

  lemma NothingBelowNil(key: SliceKey, s: AgentSpec, p: Path)
    requires Parent(p).Some? && !Lookup(key, s, Parent(p).value).Record?
    ensures Lookup(key, s, p).Missing?
  {
  }

  /** What has parts has no value of its own. */
  lemma RecordsDoNotDiffer(key: SliceKey, a: AgentSpec, b: AgentSpec, q: Path)
    requires Differs(key, a, b, q)
    ensures !Lookup(key, a, q).Record? || !Lookup(key, b, q).Record?
  {
  }

  lemma OneLevelUp(p: Path, q: Path)
    requires IsWithin(p, q) && p != q
    ensures Parent(p).Some? && Depth(Parent(p).value) < Depth(p) && IsWithin(Parent(p).value, q)
  {
  }

  lemma MissingBelow(key: SliceKey, a: AgentSpec, b: AgentSpec, p: Path)
    requires Parent(p).Some?
    requires !Lookup(key, a, Parent(p).value).Record? || !Lookup(key, b, Parent(p).value).Record?
    ensures Lookup(key, a, p).Missing? || Lookup(key, b, p).Missing?
  {
    if !Lookup(key, a, Parent(p).value).Record? {
      NothingBelowNil(key, a, p);
    } else {
      NothingBelowNil(key, b, p);
    }
  }

  /** Below a path at which the specs differ nothing is there on one side. */
  lemma {:induction false} MissingBelowDifference(key: SliceKey, a: AgentSpec, b: AgentSpec, p: Path, q: Path)
    requires Differs(key, a, b, q) && IsWithin(p, q) && p != q
    ensures Lookup(key, a, p).Missing? || Lookup(key, b, p).Missing?
    decreases Depth(p)
  {
    OneLevelUp(p, q);
    if Parent(p).value == q {
      RecordsDoNotDiffer(key, a, b, q);
    } else {
      MissingBelowDifference(key, a, b, Parent(p).value, q);
    }
    MissingBelow(key, a, b, p);
  }

  lemma DifferenceHidesWhatIsBelow(key: SliceKey, a: AgentSpec, b: AgentSpec, p: Path, q: Path)
    requires Differs(key, a, b, q) && IsWithin(p, q) && p != q
    ensures !Differs(key, a, b, p)
  {
    MissingBelowDifference(key, a, b, p, q);
  }

  lemma StatusStandsAlone(p: Path, q: Path)
    requires IsWithin(p, q) && p != q
    ensures !p.AtAgentStatus? && !q.AtAgentStatus? && !p.Nowhere?
  {
  }

  lemma NoPathIsWithinAnother(key: SliceKey, a: Option<Agent>, b: Option<Agent>, p: Path, q: Path)
    requires p in DeltaPaths(key, a, b) && q in DeltaPaths(key, a, b) && p != q
    ensures !IsWithin(p, q)
  {
    if IsWithin(p, q) {
      StatusStandsAlone(p, q);
      if a.Some? && b.Some? {
        DeltaIsExact(key, a.value, b.value, p);
        DeltaIsExact(key, a.value, b.value, q);
        DifferenceHidesWhatIsBelow(key, a.value.spec, b.value.spec, p, q);
      }
    }
  }

  lemma {:induction false} CollectIsSymmetric(key: SliceKey, a: AgentSpec, b: AgentSpec, found: seq<Path>,
                                              ps: seq<Path>)
    ensures Collect(key, a, b, found, ps) == Collect(key, b, a, found, ps)
    decreases |ps|
  {
    if ps != [] {
      CollectIsSymmetric(key, a, b, AddIf(found, Differs(key, a, b, ps[0]), ps[0]), ps[1..]);
    }
  }

  /** Swapping the two resources reports the same paths except for the status, of which only the latest one is looked
      at, and reports them in the same order. */
  lemma DeltaIsSymmetric(key: SliceKey, a: Agent, b: Agent)
    ensures forall p: Path :: p != AtAgentStatus ==>
              (p in DeltaPaths(key, Some(a), Some(b)) <==> p in DeltaPaths(key, Some(b), Some(a)))
    ensures StatusPaths(a.status.agentStatus) == StatusPaths(b.status.agentStatus) ==>
              DeltaPaths(key, Some(a), Some(b)) == DeltaPaths(key, Some(b), Some(a))
  {
    forall p: Path | p != AtAgentStatus
      ensures p in DeltaPaths(key, Some(a), Some(b)) <==> p in DeltaPaths(key, Some(b), Some(a))
    {
      DeltaIsExact(key, a, b, p);
      DeltaIsExact(key, b, a, p);
    }
    CollectIsSymmetric(key, a.spec, b.spec, StatusPaths(a.status.agentStatus), SPEC_PATHS);
  }

  /** The prompt override is reported iff exactly one side has one; so an unset desired override gives a delta, against
      the promise of hooks.go, exactly when the agent has one. */
  lemma PromptOverrideReportedIff(key: SliceKey, a: Agent, b: Agent)
    ensures AtPromptOverride in DeltaPaths(key, Some(a), Some(b))
            <==> a.spec.promptOverride.None? != b.spec.promptOverride.None?
    ensures a.spec.promptOverride.None? ==>
              ((exists p :: p in PROMPT_PATHS && p in DeltaPaths(key, Some(a), Some(b)))
               <==> b.spec.promptOverride.Some?)
  {
    forall p | p in PROMPT_PATHS
      ensures p in DeltaPaths(key, Some(a), Some(b)) <==> Differs(key, a.spec, b.spec, p)
    {
      DeltaIsExact(key, a, b, p);
    }
    assert AtPromptOverride in PROMPT_PATHS;
  }

  /** For instance an agent that has an empty override which nobody asked for. */
  lemma UnsetOverrideIsReported(key: SliceKey, a: Agent)
    requires a.spec.promptOverride.None?
    ensures var latest := a.(spec := a.spec.(promptOverride := Some(PromptOverrideConfiguration(None, None))));
            AtPromptOverride in DeltaPaths(key, Some(a), Some(latest))
  {
    var latest := a.(spec := a.spec.(promptOverride := Some(PromptOverrideConfiguration(None, None))));
    PromptOverrideReportedIff(key, a, latest);
  }

  /** "Spec.Tags" is in the delta iff synchronising the same two tag maps makes at least one call. */
  lemma TagsReportedIffSynced(key: SliceKey, a: Agent, b: Agent, arn: string)
    ensures AtTags in DeltaPaths(key, Some(a), Some(b)) <==> TagPlan(arn, a.spec.tags, b.spec.tags) != []
  {
    DeltaIsExact(key, a, b, AtTags);
    NoCallsIffSameTags(arn, a.spec.tags, b.spec.tags);
  }

  // ----- The equivalence behind the delta -----

  /** What the detector ignores, taken away: nil and "" tag values, prompts that are nil or in DEFAULT mode,
      and the choice among equal lists of memory types. */
  function Canonical(key: SliceKey, s: AgentSpec): AgentSpec {
    s.(memory := CanonicalMemory(key, s), promptOverride := CanonicalOverride(s), tags := FromTagMap(Normalize(s.tags)))
  }

  function CanonicalMemory(key: SliceKey, s: AgentSpec): Option<MemoryConfiguration> {
    if s.memory.Some? then Some(s.memory.value.(enabledMemoryTypes := Some(key(MemoryTypes(s))))) else None
  }

  function CanonicalOverride(s: AgentSpec): Option<PromptOverrideConfiguration> {
    if s.promptOverride.Some? then Some(s.promptOverride.value.(promptConfigurations := Some(Live(Prompts(s)))))
    else None
  }

  ghost predicate Agree(key: SliceKey, a: AgentSpec, b: AgentSpec) {
    forall p :: !Differs(key, a, b, p)
  }

  lemma AgreeOnPrompts(key: SliceKey, a: AgentSpec, b: AgentSpec)
    ensures CanonicalOverride(a) == CanonicalOverride(b)
            <==> !Differs(key, a, b, AtPromptOverride) && !Differs(key, a, b, AtOverrideLambda)
                 && !Differs(key, a, b, AtPromptConfigurations)
  {
  }

  lemma AgreeOnOrchestration(key: SliceKey, a: AgentSpec, b: AgentSpec)
    ensures a.customOrchestration == b.customOrchestration
            <==> !Differs(key, a, b, AtCustomOrchestration) && !Differs(key, a, b, AtExecutor)
                 && !Differs(key, a, b, AtLambda)
  {
  }

  lemma AgreeOnGuardrail(key: SliceKey, a: AgentSpec, b: AgentSpec)
    ensures a.guardrail == b.guardrail
            <==> !Differs(key, a, b, AtGuardrail) && !Differs(key, a, b, AtGuardrailIdentifier)
                 && !Differs(key, a, b, AtGuardrailVersion)
  {
  }

  lemma AgreeOnSessionSummary(key: SliceKey, a: AgentSpec, b: AgentSpec)
    requires a.memory.Some? && b.memory.Some?
    ensures a.memory.value.sessionSummary == b.memory.value.sessionSummary
            <==> !Differs(key, a, b, AtSessionSummary) && !Differs(key, a, b, AtMaxRecentSessions)
  {
  }

  lemma AgreeOnMemory(key: SliceKey, a: AgentSpec, b: AgentSpec)
    ensures CanonicalMemory(key, a) == CanonicalMemory(key, b)
            <==> !Differs(key, a, b, AtMemory) && !Differs(key, a, b, AtEnabledMemoryTypes)
                 && !Differs(key, a, b, AtSessionSummary)
                 && !Differs(key, a, b, AtMaxRecentSessions) && !Differs(key, a, b, AtStorageDays)
  {
    MemoryDiffersIff(key, a, b);
    if a.memory.None? || b.memory.None? {
      NothingBelowMemory(key, a, b);
    } else {
      AgreeOnSessionSummary(key, a, b);
      assert a.memory.value.storageDays == b.memory.value.storageDays <==> !Differs(key, a, b, AtStorageDays);
      assert key(MemoryTypes(a)) == key(MemoryTypes(b)) <==> !Differs(key, a, b, AtEnabledMemoryTypes);
    }
  }

  lemma AgreeOnNames(key: SliceKey, a: AgentSpec, b: AgentSpec)
    ensures a.agentCollaboration == b.agentCollaboration <==> !Differs(key, a, b, AtAgentCollaboration)
    ensures a.agentName == b.agentName <==> !Differs(key, a, b, AtAgentName)
    ensures a.agentResourceRoleARN == b.agentResourceRoleARN <==> !Differs(key, a, b, AtRoleARN)
    ensures a.agentResourceRoleRef == b.agentResourceRoleRef <==> !Differs(key, a, b, AtRoleRef)
  {
  }

  lemma AgreeOnModel(key: SliceKey, a: AgentSpec, b: AgentSpec)
    ensures a.customerEncryptionKeyARN == b.customerEncryptionKeyARN <==> !Differs(key, a, b, AtEncryptionKey)
    ensures a.description == b.description <==> !Differs(key, a, b, AtDescription)
    ensures a.foundationModel == b.foundationModel <==> !Differs(key, a, b, AtFoundationModel)
    ensures a.orchestrationType == b.orchestrationType <==> !Differs(key, a, b, AtOrchestrationType)
  {
  }

  lemma AgreeOnSession(key: SliceKey, a: AgentSpec, b: AgentSpec)
    ensures a.idleSessionTTLInSeconds == b.idleSessionTTLInSeconds <==> !Differs(key, a, b, AtIdleSessionTTL)
    ensures a.instruction == b.instruction <==> !Differs(key, a, b, AtInstruction)
    ensures FromTagMap(Normalize(a.tags)) == FromTagMap(Normalize(b.tags)) <==> !Differs(key, a, b, AtTags)
  {
    NormalizeFromTagMap(Normalize(a.tags));
    NormalizeFromTagMap(Normalize(b.tags));
  }

  lemma SameCanonicalAgreesAt(key: SliceKey, a: AgentSpec, b: AgentSpec, p: Path)
    requires Canonical(key, a) == Canonical(key, b)
    ensures !Differs(key, a, b, p)
  {
    match p
    case Nowhere =>
    case AtAgentStatus =>
    case AtPromptOverride | AtOverrideLambda | AtPromptConfigurations => AgreeOnPrompts(key, a, b);
    case AtAgentCollaboration | AtAgentName | AtRoleARN | AtRoleRef => AgreeOnNames(key, a, b);
    case AtCustomOrchestration | AtExecutor | AtLambda => AgreeOnOrchestration(key, a, b);
    case AtEncryptionKey | AtDescription | AtFoundationModel | AtOrchestrationType => AgreeOnModel(key, a, b);
    case AtGuardrail | AtGuardrailIdentifier | AtGuardrailVersion => AgreeOnGuardrail(key, a, b);
    case AtIdleSessionTTL | AtInstruction | AtTags => AgreeOnSession(key, a, b);
    case AtMemory | AtEnabledMemoryTypes | AtSessionSummary | AtMaxRecentSessions | AtStorageDays =>
      AgreeOnMemory(key, a, b);
  }

  lemma SameFieldsSameCanonical(key: SliceKey, a: AgentSpec, b: AgentSpec)
    requires Agree(key, a, b)
    ensures Canonical(key, a) == Canonical(key, b)
  {
    AgreeOnNames(key, a, b);
    AgreeOnModel(key, a, b);
    AgreeOnSession(key, a, b);
    AgreeOnPrompts(key, a, b);
    AgreeOnOrchestration(key, a, b);
    AgreeOnGuardrail(key, a, b);
    AgreeOnMemory(key, a, b);
  }

  /** No path of the spec differs iff the canonical specs are equal: the detector decides exactly one
      equivalence relation, the kernel of `Canonical`. */
  lemma AgreeIffSameCanonical(key: SliceKey, a: AgentSpec, b: AgentSpec)
    ensures Agree(key, a, b) <==> Canonical(key, a) == Canonical(key, b)
  {
    if Agree(key, a, b) {
      SameFieldsSameCanonical(key, a, b);
    }
    if Canonical(key, a) == Canonical(key, b) {
      forall p ensures !Differs(key, a, b, p) {
        SameCanonicalAgreesAt(key, a, b, p);
      }
    }
  }

  /** The delta has no path but the virtual status iff the two specs are equivalent. */
  lemma DeltaIsEmptyIffEquivalent(key: SliceKey, a: Agent, b: Agent)
    ensures (forall p :: p in DeltaPaths(key, Some(a), Some(b)) ==> p == AtAgentStatus)
            <==> Canonical(key, a.spec) == Canonical(key, b.spec)
  {
    AgreeIffSameCanonical(key, a.spec, b.spec);
    forall p ensures p in DeltaPaths(key, Some(a), Some(b)) && p != AtAgentStatus <==> Differs(key, a.spec, b.spec, p) {
      DeltaIsExact(key, a, b, p);
    }
  }

  // ----- Prompts that are nil or in DEFAULT mode -----

  /** `padded` is `ps` with prompts that are nil or in DEFAULT mode inserted anywhere. */
  ghost predicate IsPaddingOf(padded: seq<Option<PromptConfiguration>>, ps: seq<Option<PromptConfiguration>>)
    decreases |padded|
  {
    if padded == [] then ps == []
    else
      var n := |padded| - 1;
      || (!IsLive(padded[n]) && IsPaddingOf(padded[..n], ps))
      || (ps != [] && padded[n] == ps[|ps| - 1] && IsPaddingOf(padded[..n], ps[..|ps| - 1]))
  }

  lemma {:induction false} PaddingKeepsLive(padded: seq<Option<PromptConfiguration>>,
                                            ps: seq<Option<PromptConfiguration>>)
    requires IsPaddingOf(padded, ps)
    ensures Live(padded) == Live(ps)
    decreases |padded|
  {
    if padded != [] {
      var n := |padded| - 1;
      if !IsLive(padded[n]) && IsPaddingOf(padded[..n], ps) {
        PaddingKeepsLive(padded[..n], ps);
      } else {
        PaddingKeepsLive(padded[..n], ps[..|ps| - 1]);
      }
    }
  }

  /** The live prompts are what is left when everything that can be inserted is taken away. */
  lemma {:induction false} PaddingOfLive(ps: seq<Option<PromptConfiguration>>)
    ensures IsPaddingOf(ps, Live(ps))
  {
    if ps != [] {
      var n := |ps| - 1;
      PaddingOfLive(ps[..n]);
      if IsLive(ps[n]) {
        assert Live(ps) == Live(ps[..n]) + [ps[n]];
        assert Live(ps)[..|Live(ps)| - 1] == Live(ps[..n]);
      } else {
        assert Live(ps) == Live(ps[..n]);
      }
    }
  }

  function WithPrompts(x: Agent, ps: seq<Option<PromptConfiguration>>): Agent
    requires x.spec.promptOverride.Some?
  {
    x.(spec := x.spec.(promptOverride := Some(x.spec.promptOverride.value.(promptConfigurations := Some(ps)))))
  }

  lemma LookupSeesLivePrompts(key: SliceKey, x: Agent, ps: seq<Option<PromptConfiguration>>,
                              ps': seq<Option<PromptConfiguration>>, p: Path)
    requires x.spec.promptOverride.Some?
    requires Live(ps) == Live(ps')
    ensures Lookup(key, WithPrompts(x, ps).spec, p) == Lookup(key, WithPrompts(x, ps').spec, p)
  {
  }

  /** Inserting or removing nil and DEFAULT prompts on both sides never changes the delta. */
  lemma PaddingKeepsDelta(key: SliceKey, a: Agent, b: Agent,
                          ps: seq<Option<PromptConfiguration>>, ps': seq<Option<PromptConfiguration>>,
                          qs: seq<Option<PromptConfiguration>>, qs': seq<Option<PromptConfiguration>>)
    requires a.spec.promptOverride.Some? && b.spec.promptOverride.Some?
    requires IsPaddingOf(ps', ps) && IsPaddingOf(qs', qs)
    ensures DeltaPaths(key, Some(WithPrompts(a, ps')), Some(WithPrompts(b, qs')))
            == DeltaPaths(key, Some(WithPrompts(a, ps)), Some(WithPrompts(b, qs)))
  {
    PaddingKeepsLive(ps', ps);
    PaddingKeepsLive(qs', qs);
    var a', b' := WithPrompts(a, ps').spec, WithPrompts(b, qs').spec;
    var a0, b0 := WithPrompts(a, ps).spec, WithPrompts(b, qs).spec;
    forall p ensures Differs(key, a', b', p) == Differs(key, a0, b0, p) {
      LookupSeesLivePrompts(key, a, ps, ps', p);
      LookupSeesLivePrompts(key, b, qs, qs', p);
    }
    CollectDependsOnDiffers(key, a', b', a0, b0, StatusPaths(b.status.agentStatus), SPEC_PATHS);
  }

  lemma {:induction false} CollectDependsOnDiffers(key: SliceKey, a: AgentSpec, b: AgentSpec, a': AgentSpec,
                                                   b': AgentSpec,
                                                   found: seq<Path>, ps: seq<Path>)
    requires forall p :: Differs(key, a, b, p) == Differs(key, a', b', p)
    ensures Collect(key, a, b, found, ps) == Collect(key, a', b', found, ps)
    decreases |ps|
  {
    if ps != [] {
      CollectDependsOnDiffers(key, a, b, a', b', AddIf(found, Differs(key, a, b, ps[0]), ps[0]), ps[1..]);
    }
  }

  /** With both override records present, the prompt list is reported iff no list of prompts has both lists
      as paddings. */
  lemma PromptsReportedIff(key: SliceKey, a: Agent, b: Agent)
    requires a.spec.promptOverride.Some? && b.spec.promptOverride.Some?
    ensures AtPromptConfigurations !in DeltaPaths(key, Some(a), Some(b))
            <==> exists common :: AreBothPaddingsOf(Prompts(a.spec), Prompts(b.spec), common)
  {
    DeltaIsExact(key, a, b, AtPromptConfigurations);
    CommonPaddingIff(Prompts(a.spec), Prompts(b.spec));
    assert Differs(key, a.spec, b.spec, AtPromptConfigurations) <==> Live(Prompts(a.spec)) != Live(Prompts(b.spec));
  }

  ghost predicate AreBothPaddingsOf(ps: seq<Option<PromptConfiguration>>, qs: seq<Option<PromptConfiguration>>,
                                    common: seq<Option<PromptConfiguration>>) {
    IsPaddingOf(ps, common) && IsPaddingOf(qs, common)
  }

  lemma CommonPaddingIff(ps: seq<Option<PromptConfiguration>>, qs: seq<Option<PromptConfiguration>>)
    ensures Live(ps) == Live(qs) <==> exists common :: AreBothPaddingsOf(ps, qs, common)
  {
    PaddingOfLive(ps);
    PaddingOfLive(qs);
    if Live(ps) == Live(qs) {
      assert AreBothPaddingsOf(ps, qs, Live(ps));
    }
    if common :| AreBothPaddingsOf(ps, qs, common) {
      PaddingKeepsLive(ps, common);
      PaddingKeepsLive(qs, common);
    }
  }
}
