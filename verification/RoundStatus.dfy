/** The status that a round leaves in the resource, next to the agent that the service has, and the errors that deny an
    agent. */
module RoundStatus {
  import opened Api
  import opened Conditions
  import opened Manager
  import opened Reconcile
  import opened Remote
  import opened Resources
  import Answers
  import Delta
  import Sdk
  import Wire

  /** The status says what the service says of this agent. */
  predicate Shows(s: AgentStatus, x: Sdk.Agent) {
    s.agentID == x.agentId && Wire.IsReadEnum(s.agentStatus, x.agentStatus)
    && Answers.AreAnsweredDetails(s.details, x.details)
  }

  predicate IsSameStatus(s: AgentStatus, s': AgentStatus) {
    s.agentID == s'.agentID && s.agentStatus == s'.agentStatus && s.details == s'.details
  }

  predicate HasOtherPath(paths: seq<Delta.Path>) {
    exists i :: 0 <= i < |paths| && paths[i] != Delta.AtAgentStatus && paths[i] != Delta.AtTags
  }

  lemma AfterFailedRead(m: Settings, bk: Backend, st: State)
    requires Ready(st) && CanFind(st.w, st.a) && Read(m.cfg, bk, st.w, st.a).error.Some?
    requires Read(m.cfg, bk, st.w, st.a).error != Some(NotFound)
    ensures IsSameStatus(Round(m, bk, st).a.status, st.a.status)
  {
    Answers.ReadAndCreateConclude(m, bk, st.w, st.a);
  }

  lemma AfterNotFound(m: Settings, bk: Backend, st: State)
    requires Ready(st) && CanFind(st.w, st.a) && Read(m.cfg, bk, st.w, st.a).error == Some(NotFound)
    ensures var w, st' := Read(m.cfg, bk, st.w, st.a).world, Round(m, bk, st);
            var id := bk.newId(|w.log|);
            if CreateOutcome(m, bk, w, st.a).result.Ok?
            then id in st'.w.agents && Shows(st'.a.status, st'.w.agents[id])
            else IsSameStatus(st'.a.status, st.a.status)
  {
    var w := Read(m.cfg, bk, st.w, st.a).world;
    Answers.ReadAndCreateConclude(m, bk, w, st.a);
    if CreateOutcome(m, bk, w, st.a).result.Ok? {
      Answers.CreatedAnswer(m, bk, w, st.a);
    }
  }

  lemma FoundIsShown(m: Settings, bk: Backend, st: State)
    requires Ready(st) && CanFind(st.w, st.a) && Read(m.cfg, bk, st.w, st.a).error.None?
    ensures IsCreated(st) && st.a.status.agentID.value in st.w.agents
    ensures Shows(Read(m.cfg, bk, st.w, st.a).returned.status, st.w.agents[st.a.status.agentID.value])
  {
    Answers.FoundAnswer(m.cfg, bk, st.w, st.a);
    Answers.ReadAndCreateConclude(m, bk, st.w, st.a);
  }

  /** After an update: what was answered, or the old status if only the status and the tags differed, or, after a
      failure, what had been read. */
  lemma AfterUpdating(m: Settings, bk: Backend, w: World, desired: Agent, latest: Agent, paths: seq<Delta.Path>)
    requires CanUpdate(desired, latest, paths)
    ensures var outcome := UpdateOutcome(m, bk, w, desired, latest, paths);
            var status := Updating(m, bk, w, desired, latest, paths).returned.status;
            if outcome.result.Err? then IsSameStatus(status, latest.status)
            else if HasOtherPath(paths) then
              && desired.status.agentID.Some? && desired.status.agentID.value in outcome.world.agents
              && Shows(status, outcome.world.agents[desired.status.agentID.value])
            else IsSameStatus(status, desired.status)
  {
    var outcome := UpdateOutcome(m, bk, w, desired, latest, paths);
    Answers.UpdateConcludes(m, bk, w, desired, latest, paths);
    if outcome.result.Ok? {
      if HasOtherPath(paths) {
        Answers.UpdatedAnswer(m, bk, w, desired, latest, paths);
      } else {
        Answers.NothingElseIsUpdated(m, bk, w, desired, latest, paths);
      }
    }
  }

  /** What the status shows after a round in which the read succeeded: the agent as it was read if nothing differed or
      an update failed; the agent as it is now after an update of its fields; and still the old status, not the one that
      was read, if no more than the status and the tags differed and all calls succeeded. */
  lemma AfterRead(m: Settings, bk: Backend, st: State)
    requires Ready(st) && CanFind(st.w, st.a) && Read(m.cfg, bk, st.w, st.a).error.None?
    ensures var read, desired := Read(m.cfg, bk, st.w, st.a), ReadInput(m.cfg, bk, st.w, st.a);
            var st' := Round(m, bk, st);
            && IsCreated(st) && st.a.status.agentID.value in st.w.agents && CanCompare(m, desired, read.returned)
            && var id, paths := st.a.status.agentID.value, Compared(m, desired, read.returned);
               if paths == []
                  || UpdateOutcome(m, bk, read.world, desired, read.returned, paths).result.Err?
               then Shows(st'.a.status, st.w.agents[id])
               else if HasOtherPath(paths) then id in st'.w.agents && Shows(st'.a.status, st'.w.agents[id])
               else IsSameStatus(st'.a.status, st.a.status)
  {
    ReadIsSafe(m, bk, st);
    FoundIsShown(m, bk, st);
    var read, desired := Read(m.cfg, bk, st.w, st.a), ReadInput(m.cfg, bk, st.w, st.a);
    var paths := Compared(m, desired, read.returned);
    Answers.UpdateConcludes(m, bk, read.world, desired, read.returned, paths);
    AfterUpdating(m, bk, read.world, desired, read.returned, paths);
  }

  /** A known agent is denied iff GetAgent fails with an error that wraps a ResourceNotFoundException, however often. */
  lemma DeniedIffWrapped(bk: Backend, st: State)
    requires Ready(st) && IsCreated(st)
    ensures IsDenied(bk, st)
            <==> && bk.fails(|st.w.log|).Some?
                 && WrapsCode(bk.fails(|st.w.log|).value, "ResourceNotFoundException")
  {
    DeniedIff(bk, st);
    if bk.fails(|st.w.log|).Some? {
      ApiCodeIff(bk.fails(|st.w.log|).value, "ResourceNotFoundException");
    }
  }
}
