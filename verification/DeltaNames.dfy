/** The dotted paths that delta.go gives to `Add`, and what the questions that are asked of a delta mean. */
module DeltaNames {
  import opened Delta

  datatype Segment =
    | AgentStatus
    | PromptOverrideConfiguration | OverrideLambda | PromptConfigurations
    | AgentCollaboration | AgentName | AgentResourceRoleARN | AgentResourceRoleRef
    | CustomOrchestration | Executor | Lambda
    | CustomerEncryptionKeyARN | Description | FoundationModel
    | GuardrailConfiguration | GuardrailIdentifier | GuardrailVersion
    | IdleSessionTTLInSeconds | Instruction
    | MemoryConfiguration | EnabledMemoryTypes | SessionSummaryConfiguration | MaxRecentSessions | StorageDays
    | OrchestrationType
    | Tags

  /** A dotted path: AtLambda is "Spec.CustomOrchestration.Executor.Lambda", and Nowhere is "". */
  datatype Name = Nothing | Spec | Dot(prefix: Name, last: Segment)

  function NameOf(p: Path): Name {
    match p
    case Nowhere => Nothing
    case AtAgentStatus => Dot(Spec, AgentStatus)
    case AtPromptOverride => Dot(Spec, PromptOverrideConfiguration)
    case AtOverrideLambda => Dot(Dot(Spec, PromptOverrideConfiguration), OverrideLambda)
    case AtPromptConfigurations => Dot(Dot(Spec, PromptOverrideConfiguration), PromptConfigurations)
    case AtAgentCollaboration => Dot(Spec, AgentCollaboration)
    case AtAgentName => Dot(Spec, AgentName)
    case AtRoleARN => Dot(Spec, AgentResourceRoleARN)
    case AtRoleRef => Dot(Spec, AgentResourceRoleRef)
    case AtCustomOrchestration => Dot(Spec, CustomOrchestration)
    case AtExecutor => Dot(Dot(Spec, CustomOrchestration), Executor)
    case AtLambda => Dot(Dot(Dot(Spec, CustomOrchestration), Executor), Lambda)
    case AtEncryptionKey => Dot(Spec, CustomerEncryptionKeyARN)
    case AtDescription => Dot(Spec, Description)
    case AtFoundationModel => Dot(Spec, FoundationModel)
    case AtGuardrail => Dot(Spec, GuardrailConfiguration)
    case AtGuardrailIdentifier => Dot(Dot(Spec, GuardrailConfiguration), GuardrailIdentifier)
    case AtGuardrailVersion => Dot(Dot(Spec, GuardrailConfiguration), GuardrailVersion)
    case AtIdleSessionTTL => Dot(Spec, IdleSessionTTLInSeconds)
    case AtInstruction => Dot(Spec, Instruction)
    case AtMemory => Dot(Spec, MemoryConfiguration)
    case AtEnabledMemoryTypes => Dot(Dot(Spec, MemoryConfiguration), EnabledMemoryTypes)
    case AtSessionSummary => Dot(Dot(Spec, MemoryConfiguration), SessionSummaryConfiguration)
    case AtMaxRecentSessions => Dot(Dot(Dot(Spec, MemoryConfiguration), SessionSummaryConfiguration), MaxRecentSessions)
    case AtStorageDays => Dot(Dot(Spec, MemoryConfiguration), StorageDays)
    case AtOrchestrationType => Dot(Spec, OrchestrationType)
    case AtTags => Dot(Spec, Tags)
  }

  /** The first segments of `name` are those of `prefix`. */
  predicate BeginsWith(name: Name, prefix: Name) {
    name == prefix || (name.Dot? && BeginsWith(name.prefix, prefix))
  }

  function PathTo(s: Segment): Path {
    match s
    case AgentStatus => AtAgentStatus
    case PromptOverrideConfiguration => AtPromptOverride
    case OverrideLambda => AtOverrideLambda
    case PromptConfigurations => AtPromptConfigurations
    case AgentCollaboration => AtAgentCollaboration
    case AgentName => AtAgentName
    case AgentResourceRoleARN => AtRoleARN
    case AgentResourceRoleRef => AtRoleRef
    case CustomOrchestration => AtCustomOrchestration
    case Executor => AtExecutor
    case Lambda => AtLambda
    case CustomerEncryptionKeyARN => AtEncryptionKey
    case Description => AtDescription
    case FoundationModel => AtFoundationModel
    case GuardrailConfiguration => AtGuardrail
    case GuardrailIdentifier => AtGuardrailIdentifier
    case GuardrailVersion => AtGuardrailVersion
    case IdleSessionTTLInSeconds => AtIdleSessionTTL
    case Instruction => AtInstruction
    case MemoryConfiguration => AtMemory
    case EnabledMemoryTypes => AtEnabledMemoryTypes
    case SessionSummaryConfiguration => AtSessionSummary
    case MaxRecentSessions => AtMaxRecentSessions
    case StorageDays => AtStorageDays
    case OrchestrationType => AtOrchestrationType
    case Tags => AtTags
  }

  /** No two paths end with the same segment. */
  lemma PathToLast(p: Path)
    ensures NameOf(p).Dot? ==> PathTo(NameOf(p).last) == p
    ensures !NameOf(p).Dot? ==> p == Nowhere && NameOf(p) == Nothing
  {
  }

  /** The parent of a path lacks its last segment, and the paths without a parent are those below "Spec". */
  lemma ParentName(p: Path)
    ensures Parent(p).Some? ==> NameOf(p).Dot? && NameOf(p).prefix == NameOf(Parent(p).value)
    ensures Parent(p).None? && p != Nowhere ==> NameOf(p).Dot? && NameOf(p).prefix == Spec
  {
  }

  lemma OneLevelDown(p: Path, q: Path)
    ensures IsWithin(p, q) <==> p == q || (Parent(p).Some? && IsWithin(Parent(p).value, q))
    ensures Parent(p).Some? ==> Depth(Parent(p).value) < Depth(p)
  {
  }

  lemma NothingAboveTheTop(p: Path, q: Path)
    requires Parent(p).None? && p != q
    ensures !BeginsWith(NameOf(p), NameOf(q))
  {
    ParentName(p);
    PathToLast(p);
    PathToLast(q);
  }

  lemma NamesDiffer(p: Path, q: Path)
    requires p != q
    ensures NameOf(p) != NameOf(q)
  {
    PathToLast(p);
    PathToLast(q);
  }

  /** A path is within another iff its segments begin with those of the other: Path.Contains compares whole segments. */
  lemma {:induction false} IsWithinIff(p: Path, q: Path)
    ensures IsWithin(p, q) <==> BeginsWith(NameOf(p), NameOf(q))
    decreases Depth(p)
  {
    OneLevelDown(p, q);
    if p != q {
      if Parent(p).Some? {
        ParentName(p);
        NamesDiffer(p, q);
        IsWithinIff(Parent(p).value, q);
      } else {
        NothingAboveTheTop(p, q);
      }
    }
  }

  lemma NothingBelow(p: Path, q: Path)
    requires q.AtAgentStatus? || q.AtTags?
    ensures IsWithin(p, q) <==> p == q
  {
  }

  /** The three questions that sdkUpdate asks. */
  lemma QuestionsIff(paths: seq<Path>)
    ensures DifferentAt(paths, AtAgentStatus) <==> AtAgentStatus in paths
    ensures DifferentAt(paths, AtTags) <==> AtTags in paths
    ensures DifferentExcept(paths, AtAgentStatus, AtTags)
            <==> exists i :: 0 <= i < |paths| && paths[i] != AtAgentStatus && paths[i] != AtTags
  {
    forall p ensures (IsWithin(p, AtAgentStatus) <==> p == AtAgentStatus) && (IsWithin(p, AtTags) <==> p == AtTags) {
      NothingBelow(p, AtAgentStatus);
      NothingBelow(p, AtTags);
    }
  }
}
