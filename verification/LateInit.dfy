/** LateInitialize of pkg/resource/agent/manager.go. */
module LateInit {
  import opened Api
  import opened Manager
  import opened Remote
  import opened Resources
  import Conditions
  import Tags

  // ----- ackcondition.SetLateInitialized and SetSynced -----

  function FirstIndex(conds: seq<Condition>, t: ConditionType): (i: int)
    ensures -1 <= i < |conds|
    ensures i >= 0 ==> conds[i].ctype == t
    ensures forall j :: 0 <= j < (if i >= 0 then i else |conds|) ==> conds[j].ctype != t
  {
    if conds == [] then -1 else
      var i := FirstIndex(conds[..|conds| - 1], t);
      if i >= 0 then i
      else if conds[|conds| - 1].ctype == t then |conds| - 1 else -1
  }

  /** The first condition of the type is overwritten; if there is none, one is appended. */
  function SetFirst(conds: seq<Condition>, c: Condition): seq<Condition> {
    var i := FirstIndex(conds, c.ctype);
    if i >= 0 then conds[i := c] else conds + [c]
  }

  function WithCondition(a: Agent, c: Condition): Agent {
    WithConditions(a, SetFirst(ConditionSeq(a), c))
  }

  method FindFirst(r: Resource, t: ConditionType) returns (i: int)
    ensures i == FirstIndex(ConditionSeq(r.View()), t)
  {
    ghost var conds := ConditionSeq(r.View());
    var cs := if r.conditions.Some? then r.conditions.value else [];
    for k := 0 to |cs|
      invariant forall j :: 0 <= j < k ==> conds[j].ctype != t
    {
      if cs[k].c.ctype == t {
        return k;
      }
    }
    return -1;
  }

  method Overwrite(r: Resource, i: nat, c: Condition)
    requires r.Distinct() && r.conditions.Some? && i < |r.conditions.value|
    modifies r.conditions.value[i]
    ensures r.Conds() == old(r.Conds())[i := c] && r.conditions == old(r.conditions)
  {
    ghost var before := r.Conds();
    r.conditions.value[i].c := c;
    assert r.Conds() == before[i := c];
  }

  method Append(r: Resource, c: Condition)
    requires r.Distinct()
    modifies r`conditions
    ensures r.conditions.Some? && r.Distinct() && r.Conds() == ConditionSeq(old(r.View())) + [c]
    ensures fresh(r.Objects() - old(r.Objects()))
  {
    ghost var before := ConditionSeq(r.View());
    var cs := if r.conditions.Some? then r.conditions.value else [];
    var condition := new ConditionObject(c);
    r.conditions := Some(cs + [condition]);
    assert r.Conds() == before + [c];
  }

  method SetCondition(r: Resource, c: Condition)
    requires r.Distinct()
    modifies r`conditions, r.Objects()
    ensures r.View() == WithCondition(old(r.View()), c)
    ensures r.Distinct() && fresh(r.Objects() - old(r.Objects()))
  {
    var i := FindFirst(r, c.ctype);
    if i >= 0 {
      Overwrite(r, i, c);
    } else {
      Append(r, c);
    }
  }

  // ----- LateInitialize -----

  const READ_FAILED := "Unable to complete Read operation required for late initialization"
  const INCOMPLETE := "Late initialization did not complete, requeuing with delay of 5 seconds"
  const SUCCESSFUL := "Late initialization successful"

  const AFTER_FAILED_READ := Condition(LateInitialized, False, Some(READ_FAILED), Some("Late Initialization Failure"))
  const AFTER_INCOMPLETE := Condition(LateInitialized, False, Some(INCOMPLETE), Some("Delayed Late Initialization"))
  const AFTER_SUCCESS := Condition(LateInitialized, True, Some(SUCCESSFUL), Some(SUCCESSFUL))
  const NOT_SYNCED := Condition(ResourceSynced, False, None, None)

  /** The one field that is initialised late is the prompt override. */
  function Filled(observed: Agent, a: Agent): Agent {
    if observed.spec.promptOverride.Some? && a.spec.promptOverride.None?
    then a.(spec := a.spec.(promptOverride := observed.spec.promptOverride))
    else a
  }

  /** The result of late initialisation, where `copy` is what the read left of the copy that it was given. */
  function Initialized(copy: Agent, read: Conclusion): Conclusion {
    if read.error.Some? then
      Conclusion(read.world, WithCondition(WithCondition(copy, AFTER_FAILED_READ), NOT_SYNCED), read.error)
    else
      var filled := Filled(read.returned, copy);
      if filled.spec.promptOverride.None?
      then Conclusion(read.world, WithCondition(WithCondition(filled, AFTER_INCOMPLETE), NOT_SYNCED),
                      Some(RequeueNeeded))
      else Conclusion(read.world, WithCondition(filled, AFTER_SUCCESS), None)
  }

  function LateInit(cfg: Config, bk: Backend, w: World, a: Agent): Conclusion
    requires CanFind(w, a)
  {
    Initialized(ReadInput(cfg, bk, w, a), Read(cfg, bk, w, a))
  }

  method FillFromObserved(observed: Resource, latest: Resource) returns (res: Resource)
    ensures fresh(res) && fresh(res.Objects()) && res.Distinct()
    ensures res.View() == Filled(old(observed.View()), old(latest.View()))
  {
    res := latest.DeepCopy();
    if observed.spec.promptOverride.Some? && res.spec.promptOverride.None? {
      res.spec := res.spec.(promptOverride := observed.spec.promptOverride);
    }
  }

  /** The read is given a copy, into which it mirrors the `aws:` tags. */
  method ReadCopy(cfg: Config, client: Client, latest: Resource)
      returns (latestCopy: Resource, observed: Resource, readErr: Option<Error>)
    requires CanFind(client.world, latest.View())
    modifies client
    ensures var read := Read(cfg, client.backend, old(client.world), old(latest.View()));
            client.world == read.world && observed.View() == read.returned && readErr == read.error
    ensures latestCopy.View() == ReadInput(cfg, client.backend, old(client.world), old(latest.View()))
    ensures fresh(latestCopy) && fresh(latestCopy.Objects()) && latestCopy.Distinct()
  {
    ghost var before := latest.View();
    latestCopy := latest.DeepCopy();
    assert latestCopy.View() == before;
    observed, readErr := ReadOne(cfg, client, latestCopy);
  }

  /** Only the world changes: the resource that is given stays as it is, because everything happens to copies. */
  method LateInitialize(cfg: Config, client: Client, latest: Resource) returns (res: Resource, err: Option<Error>)
    requires CanFind(client.world, latest.View())
    modifies client
    ensures var end := LateInit(cfg, client.backend, old(client.world), old(latest.View()));
            client.world == end.world && res.View() == end.returned && err == end.error
    ensures fresh(res)
  {
    ghost var read := Read(cfg, client.backend, client.world, latest.View());
    var latestCopy, observed, readErr := ReadCopy(cfg, client, latest);
    res, err := Finish(cfg, observed, latestCopy, readErr, read);
  }

  method Finish(cfg: Config, observed: Resource, latestCopy: Resource, readErr: Option<Error>, ghost read: Conclusion)
      returns (res: Resource, err: Option<Error>)
    requires latestCopy.Distinct() && observed.View() == read.returned && readErr == read.error
    modifies latestCopy`conditions, latestCopy.Objects()
    ensures var end := Initialized(old(latestCopy.View()), read);
            res.View() == end.returned && err == end.error
    ensures res == latestCopy || fresh(res)
  {
    if readErr.Some? {
      SetCondition(latestCopy, AFTER_FAILED_READ);
      SetCondition(latestCopy, NOT_SYNCED);
      return latestCopy, readErr;
    }
    res := FillFromObserved(observed, latestCopy);
    if res.spec.promptOverride.None? {
      SetCondition(res, AFTER_INCOMPLETE);
      SetCondition(res, NOT_SYNCED);
      return res, Some(RequeueNeeded);
    }
    SetCondition(res, AFTER_SUCCESS);
    return res, None;
  }

  // ----- What late initialisation changes -----

  function Chosen<T>(own: Option<T>, observed: Option<T>): Option<T> {
    if own.Some? then own else observed
  }

  lemma LateInitChangesNoWorld(cfg: Config, bk: Backend, w: World, a: Agent)
    requires CanFind(w, a)
    ensures var end := LateInit(cfg, bk, w, a);
            && end.world.agents == w.agents && end.world.tags == w.tags
            && SameButConditions(end.returned, a.(spec := end.returned.spec))
  {
    WhatIsFound(cfg, bk, w, a);
  }

  /** After a successful read the spec differs only in a prompt override that was nil, which is taken from the
      observed agent, and in the mirrored tags; a requeue is asked for iff the override is still nil. After a
      failed read the spec is the one that was given. */
  lemma LateInitFrame(cfg: Config, bk: Backend, w: World, a: Agent)
    requires CanFind(w, a)
    ensures var found, end := FindOutcome(cfg, bk, w, a).result, LateInit(cfg, bk, w, a);
            && end.world.agents == w.agents && end.world.tags == w.tags
            && SameButConditions(end.returned, a.(spec := end.returned.spec))
            && (found.Err? ==>
                  && end.returned.spec == a.spec
                  && end.error == Some(Conditions.OnErrorResult(ConditionSeq(a), found.error)))
            && (found.Ok? ==>
                  && end.returned.spec == a.spec.(
                       promptOverride := Chosen(a.spec.promptOverride, found.value.spec.promptOverride),
                       tags := Tags.MirrorSpec(a.spec.tags, found.value.spec.tags))
                  && end.error == if end.returned.spec.promptOverride.None? then Some(RequeueNeeded) else None)
  {
    LateInitChangesNoWorld(cfg, bk, w, a);
    var found := FindOutcome(cfg, bk, w, a).result;
    if found.Ok? {
      OnlyConditionsChange(cfg, found.value, NotFound);
    }
  }

  /** Reading again while the remote agent and its tags are the same changes no field of the spec. */
  lemma LateInitIsIdempotent(cfg: Config, bk: Backend, w: World, a: Agent, w': World)
    requires CanFind(w, a) && FindOutcome(cfg, bk, w, a).result.Ok?
    requires w'.agents == w.agents && w'.tags == w.tags
    ensures var a' := LateInit(cfg, bk, w, a).returned;
            CanFind(w', a') && LateInit(cfg, bk, w', a').returned.spec == a'.spec
  {
    var a' := LateInit(cfg, bk, w, a).returned;
    LateInitFrame(cfg, bk, w, a);
    LateInitFrame(cfg, bk, w', a');
    WhatIsFound(cfg, bk, w, a);
    WhatIsFound(cfg, bk, w', a');
    var found, found' := FindOutcome(cfg, bk, w, a).result, FindOutcome(cfg, bk, w', a').result;
    if found'.Ok? {
      assert found'.value.spec.promptOverride == found.value.spec.promptOverride;
      assert found'.value.spec.tags == found.value.spec.tags;
      var d, l := Tags.Normalize(a.spec.tags), Tags.Normalize(found.value.spec.tags);
      Tags.NormalizeFromTagMap(Tags.Mirror(d, l));
      Tags.MirrorIsIdempotent(d, l);
    }
  }

  predicate IsMarked(a: Agent, t: ConditionType, status: ConditionStatus) {
    var i := FirstIndex(ConditionSeq(a), t);
    i >= 0 && ConditionSeq(a)[i].status == status
  }

  lemma SetFirstMarks(conds: seq<Condition>, c: Condition, t: ConditionType)
    ensures var after := SetFirst(conds, c);
            var i := FirstIndex(after, t);
            if t == c.ctype then i >= 0 && after[i] == c
            else i == FirstIndex(conds, t) && (i >= 0 ==> after[i] == conds[i])
  {
    var after := SetFirst(conds, c);
    var i, j := FirstIndex(after, t), FirstIndex(conds, t);
    assert forall k :: 0 <= k < |conds| ==> after[k].ctype == conds[k].ctype;
    if t == c.ctype {
      var k := if j >= 0 then j else |conds|;
      assert after[k] == c;
    } else {
      assert j >= 0 ==> after[j].ctype == t;
    }
  }

  /** The conditions tell how it went: LateInitialized is True iff nothing is left to do, and otherwise the
      resource is marked as not synced. */
  lemma LateInitConditions(cfg: Config, bk: Backend, w: World, a: Agent)
    requires CanFind(w, a)
    ensures var end := LateInit(cfg, bk, w, a);
            && (end.error.None? ==> IsMarked(end.returned, LateInitialized, True))
            && (end.error.Some? ==>
                  IsMarked(end.returned, LateInitialized, False) && IsMarked(end.returned, ResourceSynced, False))
  {
    var copy, read := ReadInput(cfg, bk, w, a), Read(cfg, bk, w, a);
    var filled := if read.error.Some? then copy else Filled(read.returned, copy);
    var c := if read.error.Some? then AFTER_FAILED_READ
             else if filled.spec.promptOverride.None? then AFTER_INCOMPLETE
             else AFTER_SUCCESS;
    var conds := ConditionSeq(filled);
    SetFirstMarks(conds, c, LateInitialized);
    SetFirstMarks(SetFirst(conds, c), NOT_SYNCED, LateInitialized);
    SetFirstMarks(SetFirst(conds, c), NOT_SYNCED, ResourceSynced);
  }

  predicate IsFirstOf(conds: seq<Condition>, i: int, t: ConditionType) {
    0 <= i < |conds| && conds[i].ctype == t && forall j :: 0 <= j < i ==> conds[j].ctype != t
  }

  /** Setting a condition overwrites the first one of its type, or appends one; no other condition changes. */
  lemma SetFirstByIndex(conds: seq<Condition>, c: Condition)
    ensures var after := SetFirst(conds, c);
            var none := forall i :: 0 <= i < |conds| ==> conds[i].ctype != c.ctype;
            && |after| == |conds| + (if none then 1 else 0)
            && (forall i :: 0 <= i < |conds| ==> after[i] == if IsFirstOf(conds, i, c.ctype) then c else conds[i])
            && (none ==> after[|conds|] == c)
  {
  }

  /** The conditions that are set, with their messages and reasons. */
  lemma ConditionsSet(cfg: Config, bk: Backend, w: World, a: Agent)
    requires CanFind(w, a)
    ensures var found, end := FindOutcome(cfg, bk, w, a).result, LateInit(cfg, bk, w, a);
            var before, after := ConditionSeq(a), ConditionSeq(end.returned);
            var notSynced := Condition(ResourceSynced, False, None, None);
            if found.Err? then
              after == SetFirst(SetFirst(before, Condition(
                  LateInitialized, False,
                  Some("Unable to complete Read operation required for late initialization"),
                  Some("Late Initialization Failure"))), notSynced)
            else if a.spec.promptOverride.None? && found.value.spec.promptOverride.None? then
              after == SetFirst(SetFirst(before, Condition(
                  LateInitialized, False,
                  Some("Late initialization did not complete, requeuing with delay of 5 seconds"),
                  Some("Delayed Late Initialization"))), notSynced)
            else
              after == SetFirst(before, Condition(
                  LateInitialized, True,
                  Some("Late initialization successful"), Some("Late initialization successful")))
  {
    LateInitFrame(cfg, bk, w, a);
    var found := FindOutcome(cfg, bk, w, a).result;
    if found.Ok? {
      OnlyConditionsChange(cfg, found.value, NotFound);
    }
  }
}
