/** The generated copy functions of the status and of the agent itself. */
module DeepCopyAgent {
  import opened Api
  import opened DeepCopy
  import opened DeepCopySpec

  // ----- The status -----

  datatype Metadata = Metadata(
    arn: Box?<string>,
    region: Box?<string>,
    partition: Box?<string>,
    ownerAccountID: Box?<string>)
  {
    ghost predicate StandsFor(v: ResourceMetadata, repr: set<object?>)
      reads repr
    {
      && null in repr && IsScalar(arn, v.arn, repr) && IsScalar(region, v.region, repr)
      && IsScalar(partition, v.partition, repr) && IsScalar(ownerAccountID, v.ownerAccountID, repr)
    }

    lemma Grows(v: ResourceMetadata, r: set<object?>, r': set<object?>)
      requires StandsFor(v, r) && r <= r'
      ensures StandsFor(v, r')
    {
    }

    lemma HasOneValue(v: ResourceMetadata, u: ResourceMetadata, repr: set<object?>)
      requires StandsFor(v, repr) && StandsFor(u, repr)
      ensures v == u
    {
    }

    method DeepCopyInto(out: Box<Metadata>, ghost v: ResourceMetadata, ghost repr: set<object?>)
      returns (ghost r: set<object?>)
      requires StandsFor(v, repr) && out !in repr
      modifies out
      ensures fresh(r - {null}) && out.value.StandsFor(v, r) == old(StandsFor(v, repr))
    {
      var arn' := CopyScalar(arn);
      var region' := CopyScalar(region);
      var partition' := CopyScalar(partition);
      var ownerAccountID' := CopyScalar(ownerAccountID);
      out.value := Metadata(arn', region', partition', ownerAccountID');
      r := {null, arn', region', partition', ownerAccountID'};
    }
  }

  ghost predicate IsMetadata(p: Box?<Metadata>, v: Option<ResourceMetadata>, repr: set<object?>)
    reads repr
  {
    && {null, p} <= repr && (p == null <==> v.None?)
    && (p != null ==> p.value.StandsFor(v.value, repr))
  }

  lemma MetadataGrows(p: Box?<Metadata>, v: Option<ResourceMetadata>, r: set<object?>, r': set<object?>)
    requires IsMetadata(p, v, r) && r <= r'
    ensures IsMetadata(p, v, r')
  {
    if p != null {
      p.value.Grows(v.value, r, r');
    }
  }

  method CopyMetadata(p: Box?<Metadata>, ghost v: Option<ResourceMetadata>, ghost repr: set<object?>)
    returns (q: Box?<Metadata>, ghost r: set<object?>)
    requires IsMetadata(p, v, repr)
    ensures fresh(r - {null}) && IsMetadata(q, v, r)
  {
    q, r := null, {null};
    if p != null {
      q := new Box(Metadata(null, null, null, null));
      r := p.value.DeepCopyInto(q, v.value, repr);
      q.value.Grows(v.value, r, r + {null, q});
      r := r + {null, q};
    }
  }

  /** The type and the status of a condition are not pointers; its transition time is not part of this model. */
  datatype Cond = Cond(ctype: ConditionType, status: ConditionStatus, message: Box?<string>, reason: Box?<string>)
  {
    ghost predicate StandsFor(v: Condition, repr: set<object?>)
      reads repr
    {
      && null in repr && ctype == v.ctype && status == v.status
      && IsScalar(message, v.message, repr) && IsScalar(reason, v.reason, repr)
    }

    lemma Grows(v: Condition, r: set<object?>, r': set<object?>)
      requires StandsFor(v, r) && r <= r'
      ensures StandsFor(v, r')
    {
    }

    lemma HasOneValue(v: Condition, u: Condition, repr: set<object?>)
      requires StandsFor(v, repr) && StandsFor(u, repr)
      ensures v == u
    {
    }

    method DeepCopyInto(out: Box<Cond>, ghost v: Condition, ghost repr: set<object?>)
      returns (ghost r: set<object?>)
      requires StandsFor(v, repr) && out !in repr
      modifies out
      ensures fresh(r - {null}) && out.value.StandsFor(v, r) == old(StandsFor(v, repr))
    {
      var message' := CopyScalar(message);
      var reason' := CopyScalar(reason);
      out.value := Cond(ctype, status, message', reason');
      r := {null, message', reason'};
    }
  }

  ghost predicate IsCond(p: Box?<Cond>, v: Option<Condition>, repr: set<object?>)
    reads repr
  {
    && {null, p} <= repr && (p == null <==> v.None?)
    && (p != null ==> p.value.StandsFor(v.value, repr))
  }

  lemma CondGrows(p: Box?<Cond>, v: Option<Condition>, r: set<object?>, r': set<object?>)
    requires IsCond(p, v, r) && r <= r'
    ensures IsCond(p, v, r')
  {
    if p != null {
      p.value.Grows(v.value, r, r');
    }
  }

  method CopyCond(p: Box?<Cond>, ghost v: Option<Condition>, ghost repr: set<object?>)
    returns (q: Box?<Cond>, ghost r: set<object?>)
    requires IsCond(p, v, repr)
    ensures fresh(r - {null}) && IsCond(q, v, r)
  {
    q, r := null, {null};
    if p != null {
      q := new Box(Cond(TerminalCondition, Unknown, null, null));
      r := p.value.DeepCopyInto(q, v.value, repr);
      q.value.Grows(v.value, r, r + {null, q});
      r := r + {null, q};
    }
  }

  type CondSlice = array?<Box?<Cond>>

  /** Pointers and the first values of a list, which they stand for. */
  ghost predicate ListConditions(ps: seq<Box?<Cond>>, vs: seq<Option<Condition>>, repr: set<object?>)
    reads repr
  {
    null in repr && |ps| <= |vs| && forall i :: 0 <= i < |ps| ==> IsCond(ps[i], vs[i], repr)
  }

  ghost predicate AreConditions(a: CondSlice, v: Option<seq<Option<Condition>>>, repr: set<object?>)
    reads repr
  {
    && {null, a} <= repr && (a == null <==> v.None?)
    && (a != null ==> a.Length == |v.value| && ListConditions(a[..], v.value, repr))
  }

  lemma ListConditionsGrows(ps: seq<Box?<Cond>>, vs: seq<Option<Condition>>, r: set<object?>, r': set<object?>)
    requires ListConditions(ps, vs, r) && r <= r'
    ensures ListConditions(ps, vs, r')
  {
    forall i | 0 <= i < |ps| ensures IsCond(ps[i], vs[i], r') {
      CondGrows(ps[i], vs[i], r, r');
    }
  }

  lemma ConditionsGrow(a: CondSlice, v: Option<seq<Option<Condition>>>, r: set<object?>, r': set<object?>)
    requires AreConditions(a, v, r) && r <= r'
    ensures AreConditions(a, v, r')
  {
    if a != null {
      ListConditionsGrows(a[..], v.value, r, r');
    }
  }

  lemma ConditionsHaveOneValue(a: CondSlice, v: Option<seq<Option<Condition>>>,
                            u: Option<seq<Option<Condition>>>, repr: set<object?>)
    requires AreConditions(a, v, repr) && AreConditions(a, u, repr)
    ensures v == u
  {
    if a != null {
      forall i | 0 <= i < a.Length ensures v.value[i] == u.value[i] {
        assert IsCond(a[..][i], v.value[i], repr) && IsCond(a[..][i], u.value[i], repr);
        if a[i] != null {
          a[i].value.HasOneValue(v.value[i].value, u.value[i].value, repr);
        }
      }
      assert v.value == u.value;
    }
  }

  lemma OneCondMore(ps: seq<Box?<Cond>>, vs: seq<Option<Condition>>, r: set<object?>,
                      p: Box?<Cond>, cells: set<object?>)
    requires |ps| < |vs|
    ensures ListConditions(ps, vs, r) && IsCond(p, vs[|ps|], cells) ==> ListConditions(ps + [p], vs, r + cells)
  {
    if ListConditions(ps, vs, r) && IsCond(p, vs[|ps|], cells) {
      ListConditionsGrows(ps, vs, r, r + cells);
      CondGrows(p, vs[|ps|], cells, r + cells);
    }
  }

  /** The elements one by one; a pointer that is nil stays nil. */
  method CopyEachCond(ps: seq<Box?<Cond>>, ghost vs: seq<Option<Condition>>, ghost repr: set<object?>)
    returns (qs: seq<Box?<Cond>>, ghost r: set<object?>)
    requires |ps| == |vs| && ListConditions(ps, vs, repr) == true
    ensures fresh(r - {null}) && |qs| == |ps| && ListConditions(qs, vs, r) == ListConditions(ps, vs, repr)
  {
    qs, r := [], {null};
    for i := 0 to |ps|
      invariant fresh(r - {null}) && |qs| == i && ListConditions(qs, vs, r) == true
    {
      assert ListConditions(ps, vs, repr);
      var p, cells := CopyCond(ps[i], vs[i], repr);
      OneCondMore(qs, vs, r, p, cells);
      qs, r := qs + [p], r + cells;
    }
  }

  method CopyConditions(a: CondSlice, ghost v: Option<seq<Option<Condition>>>, ghost repr: set<object?>)
    returns (b: CondSlice, ghost r: set<object?>)
    requires AreConditions(a, v, repr)
    ensures fresh(r - {null}) && AreConditions(b, v, r)
  {
    if a == null {
      return null, {null};
    }
    var copies, cells := CopyEachCond(a[..], v.value, repr);
    b := new Box?<Cond>[a.Length](i requires 0 <= i < |copies| => copies[i]);
    assert b[..] == copies;
    r := cells + {b};
    ListConditionsGrows(copies, v.value, cells, r);
  }

  /** Conditions as pointers that are not nil. */
  function Present<T>(v: Option<seq<T>>): Option<seq<Option<T>>> {
    if v.None? then None else Some(seq(|v.value|, i requires 0 <= i < |v.value| => Some(v.value[i])))
  }

  lemma PresentIsInjective<T>(v: Option<seq<T>>, u: Option<seq<T>>)
    requires Present(v) == Present(u)
    ensures v == u
  {
    if v.Some? {
      forall i | 0 <= i < |v.value| ensures |v.value| == |u.value| && v.value[i] == u.value[i] {
        assert Present(v).value[i] == Present(u).value[i];
      }
      assert |Present(v).value| == |Present(u).value|;
      assert v.value == u.value;
    }
  }

  datatype Status = Status(
    metadata: Box?<Metadata>,
    conditions: CondSlice,
    agentID: Box?<string>,
    agentStatus: Box?<string>,
    agentVersion: Box?<string>,
    clientToken: Box?<string>,
    createdAt: Box?<int>,
    failureReasons: StringSlice,
    preparedAt: Box?<int>,
    recommendedActions: StringSlice,
    updatedAt: Box?<int>)
  {
    ghost predicate ScalarsFor(v: AgentStatus, repr: set<object?>)
      reads repr
    {
      && null in repr && IsScalar(agentID, v.agentID, repr) && IsScalar(agentStatus, v.agentStatus, repr)
      && IsScalar(agentVersion, v.details.agentVersion, repr) && IsScalar(clientToken, v.details.clientToken, repr)
      && IsScalar(createdAt, v.details.createdAt, repr) && IsScalar(preparedAt, v.details.preparedAt, repr)
      && IsScalar(updatedAt, v.details.updatedAt, repr)
    }

    ghost predicate ListsFor(v: AgentStatus, repr: set<object?>)
      reads repr
    {
      && IsMetadata(metadata, v.metadata, repr) && AreStrings(failureReasons, v.details.failureReasons, repr)
      && AreStrings(recommendedActions, v.details.recommendedActions, repr)
    }

    ghost predicate PointersFor(v: AgentStatus, repr: set<object?>)
      reads repr
    {
      ListsFor(v, repr) && AreConditions(conditions, Present(v.conditions), repr)
    }

    ghost predicate StandsFor(v: AgentStatus, repr: set<object?>)
      reads repr
    {
      ScalarsFor(v, repr) && PointersFor(v, repr)
    }

    method CopyScalars(ghost v: AgentStatus, ghost repr: set<object?>) returns (res: Status, ghost r: set<object?>)
      requires ScalarsFor(v, repr) == true
      ensures fresh(r - {null}) && res.ScalarsFor(v, r) == ScalarsFor(v, repr)
      ensures res == this.(
                       agentID := res.agentID, agentStatus := res.agentStatus, agentVersion := res.agentVersion,
                       clientToken := res.clientToken, createdAt := res.createdAt, preparedAt := res.preparedAt,
                       updatedAt := res.updatedAt)
    {
      var agentID', agentStatus', agentVersion', clientToken', cells :=
        CopyFour(agentID, agentStatus, agentVersion, clientToken);
      var createdAt' := CopyScalar(createdAt);
      var preparedAt' := CopyScalar(preparedAt);
      var updatedAt' := CopyScalar(updatedAt);
      res := Status(metadata, conditions, agentID', agentStatus', agentVersion', clientToken', createdAt',
                    failureReasons, preparedAt', recommendedActions, updatedAt');
      r := cells + {createdAt', preparedAt', updatedAt'};
    }

    lemma ListsGrow(v: AgentStatus, r: set<object?>, r': set<object?>)
      requires r <= r'
      ensures ListsFor(v, r) ==> ListsFor(v, r')
    {
      if ListsFor(v, r) {
        MetadataGrows(metadata, v.metadata, r, r');
      }
    }

    lemma PointersGrow(v: AgentStatus, r: set<object?>, r': set<object?>)
      requires r <= r'
      ensures PointersFor(v, r) ==> PointersFor(v, r')
    {
      if PointersFor(v, r) {
        ListsGrow(v, r, r');
        ConditionsGrow(conditions, Present(v.conditions), r, r');
      }
    }

    lemma Grows(v: AgentStatus, r: set<object?>, r': set<object?>)
      requires r <= r'
      ensures StandsFor(v, r) ==> StandsFor(v, r')
    {
      PointersGrow(v, r, r');
    }

    lemma HasOneValue(v: AgentStatus, u: AgentStatus, repr: set<object?>)
      requires StandsFor(v, repr) == StandsFor(u, repr) == true
      ensures v == u
    {
      if metadata != null {
        metadata.value.HasOneValue(v.metadata.value, u.metadata.value, repr);
      }
      StringsHaveOneValue(failureReasons, v.details.failureReasons, u.details.failureReasons, repr);
      StringsHaveOneValue(recommendedActions, v.details.recommendedActions, u.details.recommendedActions, repr);
      ConditionsHaveOneValue(conditions, Present(v.conditions), Present(u.conditions), repr);
      PresentIsInjective(v.conditions, u.conditions);
    }

    method CopyLists(ghost v: AgentStatus, ghost repr: set<object?>) returns (res: Status, ghost r: set<object?>)
      requires ListsFor(v, repr) == true
      ensures fresh(r - {null}) && res.ListsFor(v, r) == ListsFor(v, repr)
      ensures res == this.(metadata := res.metadata, failureReasons := res.failureReasons,
                           recommendedActions := res.recommendedActions)
    {
      var metadata', r1 := CopyMetadata(metadata, v.metadata, repr);
      var failureReasons', r2 := CopyStrings(failureReasons, v.details.failureReasons, repr);
      var recommendedActions', r3 := CopyStrings(recommendedActions, v.details.recommendedActions, repr);
      res := this.(metadata := metadata', failureReasons := failureReasons', recommendedActions := recommendedActions');
      r := r1 + r2 + r3;
      MetadataGrows(metadata', v.metadata, r1, r);
    }

    method CopyPointers(ghost v: AgentStatus, ghost repr: set<object?>) returns (res: Status, ghost r: set<object?>)
      requires PointersFor(v, repr) == true
      ensures fresh(r - {null}) && res.PointersFor(v, r) == PointersFor(v, repr)
      ensures res == this.(metadata := res.metadata, conditions := res.conditions,
                           failureReasons := res.failureReasons, recommendedActions := res.recommendedActions)
    {
      var lists, r1 := CopyLists(v, repr);
      var conditions', r2 := CopyConditions(conditions, Present(v.conditions), repr);
      res := lists.(conditions := conditions');
      r := r1 + r2;
      res.ListsGrow(v, r1, r);
      ConditionsGrow(conditions', Present(v.conditions), r2, r);
    }

    method CopyFields(ghost v: AgentStatus, ghost repr: set<object?>) returns (res: Status, ghost r: set<object?>)
      requires StandsFor(v, repr) == true
      ensures fresh(r - {null}) && res.StandsFor(v, r) == StandsFor(v, repr)
    {
      var pointers, r2 := CopyPointers(v, repr);
      var scalars, r1 := pointers.CopyScalars(v, repr);
      res := scalars;
      r := r1 + r2;
      res.PointersGrow(v, r2, r);
    }

    method DeepCopyInto(out: Box<Status>, ghost v: AgentStatus, ghost repr: set<object?>)
      returns (ghost r: set<object?>)
      requires StandsFor(v, repr) == true && out !in repr
      modifies out
      ensures fresh(r - {null}) && out.value.StandsFor(v, r) == old(StandsFor(v, repr))
    {
      var res, added := CopyFields(v, repr);
      out.value := res;
      r := added;
    }
  }

  // ----- The agent -----

  /** The spec and the status are inside the struct of the agent, not behind a pointer. */
  datatype AgentFields = AgentFields(namespace: string, spec: Spec, status: Status)
  {
    ghost predicate StandsFor(v: Agent, repr: set<object?>)
      reads repr
    {
      namespace == v.namespace && spec.StandsFor(v.spec, repr) && status.StandsFor(v.status, repr)
    }

    /** An object stands for one value only, so a copy has the value of the original. */
    lemma HasOneValue(v: Agent, u: Agent, repr: set<object?>)
      requires StandsFor(v, repr) == StandsFor(u, repr) == true
      ensures v == u
    {
      spec.HasOneValue(v.spec, u.spec, repr);
      status.HasOneValue(v.status, u.status, repr);
    }

    method CopyFields(ghost v: Agent, ghost repr: set<object?>) returns (res: AgentFields, ghost r: set<object?>)
      requires StandsFor(v, repr) == true
      ensures fresh(r - {null}) && res.StandsFor(v, r) == StandsFor(v, repr)
    {
      var s, r1 := spec.CopyFields(v.spec, repr);
      var t, r2 := status.CopyFields(v.status, repr);
      res := AgentFields(namespace, s, t);
      r := r1 + r2;
      s.Grows(v.spec, r1, r);
      t.Grows(v.status, r2, r);
    }

    method DeepCopyInto(out: Box<AgentFields>, ghost v: Agent, ghost repr: set<object?>) returns (ghost r: set<object?>)
      requires StandsFor(v, repr) == true && out !in repr
      modifies out
      ensures fresh(r - {null}) && out.value.StandsFor(v, r) == old(StandsFor(v, repr))
    {
      var res, added := CopyFields(v, repr);
      out.value := res;
      r := added;
    }

    /** The copy is an agent of its own, down to the last cell. */
    method DeepCopy(ghost v: Agent, ghost repr: set<object?>) returns (out: Box<AgentFields>, ghost r: set<object?>)
      requires StandsFor(v, repr) == true
      ensures fresh(out) && fresh(r - {null}) && out.value.StandsFor(v, r) == old(StandsFor(v, repr))
    {
      out := new Box(this);
      r := DeepCopyInto(out, v, repr);
    }
  }
}
