/** The AWS service as the controller sees it: agents by id, tags by ARN and a log of every call.
    A call either fails and changes nothing, or succeeds and has its effect. */
module Remote {
  import opened Api
  import Sdk

  const NOT_FOUND_CODE := "ResourceNotFoundException"
  const PREPARED := "PREPARED"
  const NOT_PREPARED := "NOT_PREPARED"

  datatype Call =
    | GetAgent(getId: Option<string>)
    | ListTagsForResource(listArn: string)
    | CreateAgent(create: Sdk.CreateAgentInput)
    | UpdateAgent(update: Sdk.UpdateAgentInput)
    | PrepareAgent(prepareId: string)
    | UntagResource(untagArn: string, keys: set<string>)
    | TagResource(tagArn: string, tags: map<string, string>)

  datatype Event = Event(call: Call, failure: Option<Error>)

  datatype World = World(agents: map<string, Sdk.Agent>, tags: map<string, map<string, string>>, log: seq<Event>)

  /** What the SDK can return: never one of the controller's own errors. */
  predicate IsServiceError(e: Error) {
    e.ApiError? || e.Wrapped? || e.OtherError?
  }

  type ServiceError = e: Error | IsServiceError(e) witness OtherError("")

  /** `fails(n)` is the error of call number n, if that call fails; a creation that is call number n
      gets the identifiers `newId(n)` and `newArn(n)`. */
  datatype Backend = Backend(fails: nat -> Option<ServiceError>, newId: nat -> string, newArn: nat -> string)

  const NO_SUCH_RESOURCE: Error := ApiError(NOT_FOUND_CODE, "")

  predicate TargetExists(w: World, call: Call) {
    match call
    case GetAgent(id) => id.Some? && id.value in w.agents
    case UpdateAgent(input) => input.agentId.Some? && input.agentId.value in w.agents
    case PrepareAgent(id) => id in w.agents
    case ListTagsForResource(arn) => arn in w.tags
    case UntagResource(arn, _) => arn in w.tags
    case TagResource(arn, _) => arn in w.tags
    case CreateAgent(_) => true
  }

  function Failure(bk: Backend, w: World, call: Call): Option<Error> {
    if bk.fails(|w.log|).Some? then bk.fails(|w.log|)
    else if TargetExists(w, call) then None
    else Some(NO_SUCH_RESOURCE)
  }

  function Created(bk: Backend, n: nat, input: Sdk.CreateAgentInput): Sdk.Agent {
    Sdk.Agent(Some(bk.newId(n)), Some(bk.newArn(n)), NOT_PREPARED, input.fields,
              Sdk.Details(Some("DRAFT"), None, None, None, None, None, None))
  }

  function Effect(bk: Backend, w: World, call: Call): World
    requires TargetExists(w, call)
  {
    match call
    case GetAgent(_) => w
    case ListTagsForResource(_) => w
    case CreateAgent(input) =>
      var n := |w.log|;
      w.(agents := w.agents[bk.newId(n) := Created(bk, n, input)],
         tags := w.tags[bk.newArn(n) := if input.tags.Some? then input.tags.value else map[]])
    case UpdateAgent(input) =>
      var id := input.agentId.value;
      w.(agents := w.agents[id := w.agents[id].(fields := input.fields, agentStatus := NOT_PREPARED)])
    case PrepareAgent(id) => w.(agents := w.agents[id := w.agents[id].(agentStatus := PREPARED)])
    case UntagResource(arn, keys) => w.(tags := w.tags[arn := w.tags[arn] - keys])
    case TagResource(arn, tags) => w.(tags := w.tags[arn := w.tags[arn] + tags])
  }

  function After(bk: Backend, w: World, call: Call): World {
    var failure := Failure(bk, w, call);
    var w' := if failure.None? then Effect(bk, w, call) else w;
    w'.(log := w.log + [Event(call, failure)])
  }

  // ----- Running a plan up to its first failure -----

  function Execute(bk: Backend, w: World, plan: seq<Call>): World
    decreases |plan|
  {
    if plan == [] then w
    else if Failure(bk, w, plan[0]).Some? then After(bk, w, plan[0])
    else Execute(bk, After(bk, w, plan[0]), plan[1..])
  }

  function ExecuteError(bk: Backend, w: World, plan: seq<Call>): Option<Error>
    decreases |plan|
  {
    if plan == [] then None
    else if Failure(bk, w, plan[0]).Some? then Failure(bk, w, plan[0])
    else ExecuteError(bk, After(bk, w, plan[0]), plan[1..])
  }

  lemma {:induction false} ExecuteConcat(bk: Backend, w: World, p: seq<Call>, q: seq<Call>)
    ensures ExecuteError(bk, w, p).None? ==>
              && Execute(bk, w, p + q) == Execute(bk, Execute(bk, w, p), q)
              && ExecuteError(bk, w, p + q) == ExecuteError(bk, Execute(bk, w, p), q)
    ensures ExecuteError(bk, w, p).Some? ==>
              && Execute(bk, w, p + q) == Execute(bk, w, p)
              && ExecuteError(bk, w, p + q) == ExecuteError(bk, w, p)
    decreases |p|
  {
    if p == [] {
      assert p + q == q;
    } else {
      assert (p + q)[1..] == p[1..] + q;
      if Failure(bk, w, p[0]).None? {
        ExecuteConcat(bk, After(bk, w, p[0]), p[1..], q);
      }
    }
  }

  /** The calls of an execution are a prefix of its plan, only the last of them can have failed, and it is
      the whole plan unless one did. */
  ghost predicate IsTraceOf(before: seq<Event>, after: seq<Event>, plan: seq<Call>, error: Option<Error>) {
    exists n: nat :: n <= |plan| && TraceOfLength(before, after, plan, error, n)
  }

  ghost predicate TraceOfLength(before: seq<Event>, after: seq<Event>, plan: seq<Call>, error: Option<Error>, n: nat)
    requires n <= |plan|
  {
    && |after| == |before| + n
    && after[..|before|] == before
    && (forall i :: 0 <= i < n ==> after[|before| + i] == Event(plan[i], if i == n - 1 then error else None))
    && (error.None? ==> n == |plan|)
    && (error.Some? ==> n > 0)
  }

  lemma {:induction false} ExecuteIsTrace(bk: Backend, w: World, plan: seq<Call>)
    ensures IsTraceOf(w.log, Execute(bk, w, plan).log, plan, ExecuteError(bk, w, plan))
    decreases |plan|
  {
    var w' := Execute(bk, w, plan);
    var error := ExecuteError(bk, w, plan);
    if plan == [] {
      assert TraceOfLength(w.log, w'.log, plan, error, 0);
    } else {
      var w1 := After(bk, w, plan[0]);
      if Failure(bk, w, plan[0]).Some? {
        assert TraceOfLength(w.log, w'.log, plan, error, 1);
      } else {
        ExecuteIsTrace(bk, w1, plan[1..]);
        var n: nat :| n <= |plan[1..]| && TraceOfLength(w1.log, w'.log, plan[1..], error, n);
        TraceCons(w.log, w'.log, plan, error, n);
      }
    }
  }

  lemma TraceCons(before: seq<Event>, after: seq<Event>, plan: seq<Call>, error: Option<Error>, n: nat)
    requires plan != [] && n < |plan|
    requires TraceOfLength(before + [Event(plan[0], None)], after, plan[1..], error, n)
    ensures TraceOfLength(before, after, plan, error, n + 1)
  {
  }

  class Client {
    const backend: Backend
    var world: World

    constructor (backend: Backend, world: World)
      ensures this.backend == backend && this.world == world
    {
      this.backend := backend;
      this.world := world;
    }

    method Invoke(call: Call) returns (err: Option<Error>)
      modifies this
      ensures world == After(backend, old(world), call)
      ensures err == Failure(backend, old(world), call)
    {
      err := Failure(backend, world, call);
      world := After(backend, world, call);
    }
  }
}
