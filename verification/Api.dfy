/** The Agent custom resource (apis/v1alpha1) as values: a Go pointer is an `Option`,
    a Go slice an `Option<seq<_>>` (nil or present) and a Go map an `Option<map<_, _>>`.
    The `DeepCopy` modules show that the objects behind these values are copied in depth. */
module Api {

  datatype Option<+T> = None | Some(value: T)

  const MIN_INT32: int := -0x8000_0000
  const MAX_INT32: int := 0x7FFF_FFFF

  type Int32 = x: int | MIN_INT32 <= x <= MAX_INT32
  type Int64 = x: int | -0x8000_0000_0000_0000 <= x < 0x8000_0000_0000_0000

  // ----- Errors -----

  datatype NumericField =
    IdleSessionTTLInSeconds | MaxRecentSessions | StorageDays | MaximumLength | Temperature | TopK | TopP

  datatype Error =
    | NotFound                                 // ackerr.NotFound
    | Terminal                                 // ackerr.Terminal
    | SecretTypeNotSupported
    | SecretNotFound
    | TerminalError(text: string)              // *ackerr.TerminalError
    | ApiError(code: string, text: string)     // smithy.APIError
    | OutOfRange(field: NumericField)
    | ReferenceAndIDSet | ReferenceOrIDRequired
    | ReferenceNameMissing | ReferenceTerminal | ReferenceNotSynced | ReferenceTargetMissing
    | RequeueNeeded                            // ackrequeue.NeededAfter
    | Wrapped(inner: Error)                    // an error that wraps another
    | OtherError(text: string)

  /** A Go `(value, error)` pair in which exactly one part is meaningful. */
  datatype Result<+T> = Ok(value: T) | Err(error: Error) {
    predicate IsFailure() {
      Err?
    }

    function PropagateFailure<U>(): Result<U>
      requires Err?
    {
      Err(error)
    }

    function Extract(): T
      requires Ok?
    {
      value
    }
  }

  // ----- Spec -----

  datatype OrchestrationExecutor = OrchestrationExecutor(lambda: Option<string>)

  datatype CustomOrchestration = CustomOrchestration(executor: Option<OrchestrationExecutor>)

  datatype GuardrailConfiguration = GuardrailConfiguration(identifier: Option<string>, version: Option<string>)

  datatype SessionSummaryConfiguration = SessionSummaryConfiguration(maxRecentSessions: Option<Int64>)

  datatype MemoryConfiguration = MemoryConfiguration(
    enabledMemoryTypes: Option<seq<Option<string>>>,
    sessionSummary: Option<SessionSummaryConfiguration>,
    storageDays: Option<Int64>)

  datatype InferenceConfiguration = InferenceConfiguration(
    maximumLength: Option<Int64>,
    stopSequences: Option<seq<Option<string>>>,
    temperature: Option<real>,
    topK: Option<Int64>,
    topP: Option<real>)

  datatype PromptConfiguration = PromptConfiguration(
    basePromptTemplate: Option<string>,
    foundationModel: Option<string>,
    inference: Option<InferenceConfiguration>,
    parserMode: Option<string>,
    promptCreationMode: Option<string>,
    promptState: Option<string>,
    promptType: Option<string>)

  datatype PromptOverrideConfiguration = PromptOverrideConfiguration(
    overrideLambda: Option<string>,
    promptConfigurations: Option<seq<Option<PromptConfiguration>>>)

  datatype ResourceReference = ResourceReference(name: Option<string>, namespace: Option<string>)

  datatype ReferenceWrapper = ReferenceWrapper(from: Option<ResourceReference>)

  type SpecTags = Option<map<string, Option<string>>>

  datatype AgentSpec = AgentSpec(
    agentCollaboration: Option<string>,
    agentName: Option<string>,
    agentResourceRoleARN: Option<string>,
    agentResourceRoleRef: Option<ReferenceWrapper>,
    customOrchestration: Option<CustomOrchestration>,
    customerEncryptionKeyARN: Option<string>,
    description: Option<string>,
    foundationModel: Option<string>,
    guardrail: Option<GuardrailConfiguration>,
    idleSessionTTLInSeconds: Option<Int64>,
    instruction: Option<string>,
    memory: Option<MemoryConfiguration>,
    orchestrationType: Option<string>,
    promptOverride: Option<PromptOverrideConfiguration>,
    tags: SpecTags)

  // ----- Status -----

  datatype ConditionType =
    TerminalCondition | Recoverable | ResourceSynced | LateInitialized | OtherCondition(name: string)

  datatype ConditionStatus = True | False | Unknown

  datatype Condition = Condition(
    ctype: ConditionType, status: ConditionStatus, message: Option<string>, reason: Option<string>)

  datatype ResourceMetadata = ResourceMetadata(
    arn: Option<string>, region: Option<string>, partition: Option<string>, ownerAccountID: Option<string>)

  /** The part of the observed state that is only carried over from a response. */
  datatype Details = Details(
    agentVersion: Option<string>,
    clientToken: Option<string>,
    createdAt: Option<int>,
    failureReasons: Option<seq<Option<string>>>,
    preparedAt: Option<int>,
    recommendedActions: Option<seq<Option<string>>>,
    updatedAt: Option<int>)

  datatype AgentStatus = AgentStatus(
    metadata: Option<ResourceMetadata>,
    conditions: Option<seq<Condition>>,
    agentID: Option<string>,
    agentStatus: Option<string>,
    details: Details)

  datatype Agent = Agent(namespace: string, spec: AgentSpec, status: AgentStatus)

  // ----- What the code takes for granted -----

  function MemoryTypes(s: AgentSpec): seq<Option<string>> {
    if s.memory.Some? && s.memory.value.enabledMemoryTypes.Some? then s.memory.value.enabledMemoryTypes.value else []
  }

  function Prompts(s: AgentSpec): seq<Option<PromptConfiguration>> {
    if s.promptOverride.Some? && s.promptOverride.value.promptConfigurations.Some?
    then s.promptOverride.value.promptConfigurations.value
    else []
  }

  /** List elements the payload builders dereference are not nil. */
  ghost predicate NoNilElements(s: AgentSpec) {
    && (forall i :: 0 <= i < |MemoryTypes(s)| ==> MemoryTypes(s)[i].Some?)
    && (forall i :: 0 <= i < |Prompts(s)| ==> Prompts(s)[i].Some?)
  }

  /** Every prompt the drift detector looks at has the creation mode it dereferences. */
  ghost predicate ModesPresent(s: AgentSpec) {
    forall i :: 0 <= i < |Prompts(s)| && Prompts(s)[i].Some? ==> Prompts(s)[i].value.promptCreationMode.Some?
  }

  /** Every prompt names its creation mode, also after it has been sent and read back. */
  ghost predicate ModesSet(s: AgentSpec) {
    && ModesPresent(s)
    && forall i :: 0 <= i < |Prompts(s)| && Prompts(s)[i].Some? ==> Prompts(s)[i].value.promptCreationMode != Some("")
  }
}
