/** The Agent object a resource points to, with the pointers to its conditions: they are what the resource
    manager edits in place. Every other part of the object is replaced, never written through, and is a value. */
module Resources {
  import opened Api
  import opened Conditions

  datatype Config = Config(region: string, partition: string, accountID: string)

  class ConditionObject {
    var c: Condition

    constructor (c: Condition)
      ensures this.c == c
    {
      this.c := c;
    }
  }

  ghost function Values(cs: seq<ConditionObject>): (r: seq<Condition>)
    reads cs
    ensures |r| == |cs| && forall i :: 0 <= i < |cs| ==> r[i] == cs[i].c
  {
    seq(|cs|, i requires 0 <= i < |cs| reads cs => cs[i].c)
  }

  ghost predicate AllDistinct(cs: seq<ConditionObject>) {
    forall i, j :: 0 <= i < j < |cs| ==> cs[i] != cs[j]
  }

  method CopyConditions(cs: seq<ConditionObject>) returns (out: seq<ConditionObject>)
    ensures fresh(out) && AllDistinct(out) && Values(out) == Values(cs)
  {
    out := [];
    for i := 0 to |cs|
      invariant |out| == i && fresh(out) && AllDistinct(out)
      invariant forall j :: 0 <= j < i ==> out[j].c == cs[j].c
    {
      var copy := new ConditionObject(cs[i].c);
      out := out + [copy];
    }
  }

  function ConditionSeq(a: Agent): seq<Condition> {
    if a.status.conditions.Some? then a.status.conditions.value else []
  }

  function WithConditions(a: Agent, conds: seq<Condition>): Agent {
    a.(status := a.status.(conditions := Some(conds)))
  }

  /** setStatusDefaults. */
  function WithDefaults(cfg: Config, a: Agent): Agent {
    var m := if a.status.metadata.Some? then a.status.metadata.value else ResourceMetadata(None, None, None, None);
    var metadata := m.(region := if m.region.None? then Some(cfg.region) else m.region,
                       partition := if m.partition.None? then Some(cfg.partition) else m.partition,
                       ownerAccountID := if m.ownerAccountID.None? then Some(cfg.accountID) else m.ownerAccountID);
    a.(status := a.status.(metadata := Some(metadata), conditions := Some(ConditionSeq(a))))
  }

  /** Defaults are only filled in: what is set stays, also when a manager with another configuration comes later. */
  lemma DefaultsAreOnlyFilledIn(cfg: Config, later: Config, a: Agent)
    ensures WithDefaults(later, WithDefaults(cfg, a)) == WithDefaults(cfg, a)
    ensures var d := WithDefaults(cfg, a).status.metadata.value;
            && d.region.Some? && d.partition.Some? && d.ownerAccountID.Some?
            && (a.status.metadata.Some? ==>
                  var m := a.status.metadata.value;
                  && d.arn == m.arn
                  && (m.region.Some? ==> d.region == m.region)
                  && (m.partition.Some? ==> d.partition == m.partition)
                  && (m.ownerAccountID.Some? ==> d.ownerAccountID == m.ownerAccountID))
  {
  }

  /** What is filled in is what the manager was built with; nothing else changes. */
  lemma DefaultsComeFromConfig(cfg: Config, a: Agent)
    ensures var d := WithDefaults(cfg, a);
            && d.namespace == a.namespace && d.spec == a.spec
            && d.status.agentID == a.status.agentID && d.status.agentStatus == a.status.agentStatus
            && d.status.details == a.status.details
            && d.status.conditions == (if a.status.conditions.None? then Some([]) else a.status.conditions)
            && d.status.metadata.Some?
    ensures var known := a.status.metadata.Some?;
            var m, m' := a.status.metadata, WithDefaults(cfg, a).status.metadata.value;
            && m'.arn == (if known then m.value.arn else None)
            && m'.region == (if known && m.value.region.Some? then m.value.region else Some(cfg.region))
            && m'.partition == (if known && m.value.partition.Some? then m.value.partition else Some(cfg.partition))
            && m'.ownerAccountID
               == (if known && m.value.ownerAccountID.Some? then m.value.ownerAccountID else Some(cfg.accountID))
  {
  }

  function WithUpdatedConditions(cfg: Config, a: Agent, err: Option<Error>): Agent {
    var d := WithDefaults(cfg, a);
    WithConditions(d, Updated(ConditionSeq(d), err))
  }

  function AfterError(cfg: Config, a: Agent, e: Error): Agent {
    WithUpdatedConditions(cfg, a, Some(e))
  }

  function AfterSuccess(cfg: Config, a: Agent): Agent {
    if IsUpdated(ConditionSeq(a), None) then WithUpdatedConditions(cfg, a, None) else a
  }

  ghost predicate IsFound(found: ConditionObject?, cs: seq<ConditionObject>, vs: seq<Condition>, t: ConditionType) {
    var i := LastIndex(vs, t);
    if i >= 0 then i < |cs| && found == cs[i] else found == null
  }

  lemma NextIsFound(found: ConditionObject?, cs: seq<ConditionObject>, vs: seq<Condition>, i: nat, t: ConditionType)
    requires |vs| == |cs| && i < |cs| && IsFound(found, cs, vs[..i], t)
    ensures IsFound(if vs[i].ctype == t then cs[i] else found, cs, vs[..i + 1], t)
  {
  }

  lemma UpdatedIffFound(cs: seq<ConditionObject>, vs: seq<Condition>, err: Option<Error>,
                        terminal: ConditionObject?, recoverable: ConditionObject?, synced: ConditionObject?)
    requires IsFound(terminal, cs, vs, TerminalCondition) && IsFound(recoverable, cs, vs, Recoverable)
    requires IsFound(synced, cs, vs, ResourceSynced)
    ensures IsUpdated(vs, err) <==> err.Some? || terminal != null || recoverable != null || synced != null
  {
  }

  class Resource {
    var namespace: string
    var spec: AgentSpec
    var metadata: Option<ResourceMetadata>
    var conditions: Option<seq<ConditionObject>>
    var agentID: Option<string>
    var agentStatus: Option<string>
    var details: Details

    ghost function Objects(): set<ConditionObject>
      reads this
    {
      if conditions.None? then {} else set i | 0 <= i < |conditions.value| :: conditions.value[i]
    }

    ghost function View(): Agent
      reads this, Objects()
    {
      var conds := if conditions.None? then None else Some(Values(conditions.value));
      Agent(namespace, spec, AgentStatus(metadata, conds, agentID, agentStatus, details))
    }

    ghost predicate Distinct()
      reads this
    {
      conditions.Some? ==> AllDistinct(conditions.value)
    }

    constructor Like(r: Resource)
      ensures View() == r.View().(status := r.View().status.(conditions := None))
      ensures Objects() == {} && Distinct() && conditions == None
    {
      namespace, spec, metadata, conditions := r.namespace, r.spec, r.metadata, None;
      agentID, agentStatus, details := r.agentID, r.agentStatus, r.details;
    }

    /** Agent.DeepCopy; the loop is that of AgentStatus.DeepCopyInto over the conditions. */
    method DeepCopy() returns (out: Resource)
      ensures fresh(out) && fresh(out.Objects()) && out.Distinct() && out.View() == View()
      ensures out.conditions.Some? ==> fresh(out.conditions.value)
    {
      ghost var v := View();
      out := new Resource.Like(this);
      if conditions.Some? {
        var cs := CopyConditions(conditions.value);
        out.conditions := Some(cs);
        assert Values(cs) == Values(conditions.value);
        assert out.View() == v;
      }
    }

    method SetStatusDefaults(cfg: Config)
      modifies this
      ensures View() == WithDefaults(cfg, old(View()))
      ensures Objects() == old(Objects()) && conditions.Some?
      ensures conditions == if old(conditions).None? then Some([]) else old(conditions)
    {
      var m := if metadata.Some? then metadata.value else ResourceMetadata(None, None, None, None);
      if m.region.None? {
        m := m.(region := Some(cfg.region));
      }
      if m.partition.None? {
        m := m.(partition := Some(cfg.partition));
      }
      if m.ownerAccountID.None? {
        m := m.(ownerAccountID := Some(cfg.accountID));
      }
      metadata := Some(m);
      if conditions.None? {
        conditions := Some([]);
      }
    }

    /** What the search of updateConditions ends with for one type: the last matching pointer, or nil. */
    ghost predicate PointsTo(found: ConditionObject?, t: ConditionType)
      requires conditions.Some?
      reads this`conditions, conditions.value
    {
      IsFound(found, conditions.value, Conds(), t)
    }

    ghost function Conds(): seq<Condition>
      requires conditions.Some?
      reads this`conditions, conditions.value
    {
      Values(conditions.value)
    }

    method EditCondition(found: ConditionObject, ghost t: ConditionType, status: ConditionStatus,
                         message: Option<string>)
      requires conditions.Some? && Distinct()
      requires LastIndex(Conds(), t) >= 0 && found == conditions.value[LastIndex(Conds(), t)]
      modifies found
      ensures conditions == old(conditions) && Conds() == Edit(old(Conds()), t, status, message)
    {
      ghost var i := LastIndex(Conds(), t);
      ghost var before := Conds();
      found.c := found.c.(status := status, message := message);
      assert Conds() == before[i := before[i].(status := status, message := message)];
    }

    method AddCondition(t: ConditionType, status: ConditionStatus, message: Option<string>) returns (c: ConditionObject)
      requires conditions.Some? && Distinct()
      modifies this`conditions
      ensures conditions == Some(old(conditions.value) + [c]) && fresh(c) && Distinct()
      ensures Conds() == old(Conds()) + [Condition(t, status, message, None)]
    {
      c := new ConditionObject(Condition(t, Unknown, None, None));
      c.c := c.c.(status := status, message := message);
      assert Conds() == old(Conds());
      conditions := Some(conditions.value + [c]);
      assert Conds()[..|conditions.value| - 1] == old(Conds());
    }

    /** The condition found is edited; if there is none, a new one is appended. */
    method PutCondition(found: ConditionObject?, t: ConditionType, status: ConditionStatus, message: Option<string>)
        returns (ghost added: seq<ConditionObject>)
      requires conditions.Some? && Distinct() && PointsTo(found, t)
      modifies this`conditions, found
      ensures conditions == Some(old(conditions.value) + added) && fresh(added) && Distinct()
      ensures Conds() == Put(old(Conds()), t, status, message)
    {
      added := [];
      if found == null {
        var c := AddCondition(t, status, message);
        added := [c];
      } else {
        EditCondition(found, t, status, message);
        assert conditions.value + [] == conditions.value;
      }
    }

    method EditIfFound(found: ConditionObject?, ghost t: ConditionType, status: ConditionStatus,
                       message: Option<string>)
      requires conditions.Some? && Distinct() && PointsTo(found, t)
      modifies found
      ensures conditions == old(conditions) && Conds() == Edit(old(Conds()), t, status, message)
    {
      if found != null {
        EditCondition(found, t, status, message);
      }
    }

    method FindConditions(err: Option<Error>)
      returns (terminal: ConditionObject?, recoverable: ConditionObject?, updated: bool)
      requires conditions.Some?
      ensures PointsTo(terminal, TerminalCondition) && PointsTo(recoverable, Recoverable)
      ensures updated == IsUpdated(Conds(), err)
    {
      terminal, recoverable := null, null;
      var synced: ConditionObject? := null;
      var cs := conditions.value;
      ghost var vs := Conds();
      for i := 0 to |cs|
        invariant IsFound(terminal, cs, vs[..i], TerminalCondition)
        invariant IsFound(recoverable, cs, vs[..i], Recoverable)
        invariant IsFound(synced, cs, vs[..i], ResourceSynced)
      {
        NextIsFound(terminal, cs, vs, i, TerminalCondition);
        NextIsFound(recoverable, cs, vs, i, Recoverable);
        NextIsFound(synced, cs, vs, i, ResourceSynced);
        if cs[i].c.ctype == TerminalCondition {
          terminal := cs[i];
        }
        if cs[i].c.ctype == Recoverable {
          recoverable := cs[i];
        }
        if cs[i].c.ctype == ResourceSynced {
          synced := cs[i];
        }
      }
      assert vs[..|cs|] == vs;
      UpdatedIffFound(cs, vs, err, terminal, recoverable, synced);
      updated := err.Some? || terminal != null || recoverable != null || synced != null;
    }

    /** The part of updateConditions that edits the copy through the pointers it finds. */
    method ApplyConditions(err: Option<Error>) returns (updated: bool)
      requires conditions.Some? && Distinct()
      modifies this`conditions, conditions.value
      ensures conditions.Some? && old(conditions.value) <= conditions.value
      ensures fresh(conditions.value[|old(conditions.value)|..])
      ensures Distinct() && Conds() == Updated(old(Conds()), err)
      ensures updated == IsUpdated(old(Conds()), err)
    {
      var terminal, recoverable;
      terminal, recoverable, updated := FindConditions(err);
      if err.Some? && IsTerminal(err.value) {
        var added := PutCondition(terminal, TerminalCondition, True, Some(Text(err.value)));
      } else {
        ClearTerminal(terminal, recoverable);
        EditRecoverable(recoverable, err);
      }
    }

    method ClearTerminal(terminal: ConditionObject?, ghost recoverable: ConditionObject?)
      requires conditions.Some? && Distinct()
      requires PointsTo(terminal, TerminalCondition) && PointsTo(recoverable, Recoverable)
      modifies terminal
      ensures conditions == old(conditions) && Conds() == Edit(old(Conds()), TerminalCondition, False, None)
      ensures PointsTo(recoverable, Recoverable)
    {
      LastIndexAfterEdit(Conds(), TerminalCondition, False, None, Recoverable);
      EditIfFound(terminal, TerminalCondition, False, None);
    }

    method EditRecoverable(recoverable: ConditionObject?, err: Option<Error>)
      requires conditions.Some? && Distinct() && PointsTo(recoverable, Recoverable)
      modifies this`conditions, recoverable
      ensures conditions.Some? && old(conditions.value) <= conditions.value
      ensures fresh(conditions.value[|old(conditions.value)|..])
      ensures Distinct()
      ensures Conds() == if err.Some? then Put(old(Conds()), Recoverable, True, Some(Text(err.value)))
                         else Edit(old(Conds()), Recoverable, False, None)
    {
      if err.Some? {
        var added := PutCondition(recoverable, Recoverable, True, Some(Text(err.value)));
      } else {
        EditIfFound(recoverable, Recoverable, False, None);
      }
    }

    method UpdateInPlace(err: Option<Error>) returns (updated: bool)
      requires conditions.Some? && Distinct()
      modifies this`conditions, conditions.value
      ensures updated == IsUpdated(old(ConditionSeq(View())), err)
      ensures View() == WithConditions(old(View()), Updated(old(ConditionSeq(View())), err))
      ensures Distinct() && fresh(Objects() - old(Objects()))
    {
      ghost var cs := conditions.value;
      updated := ApplyConditions(err);
      assert conditions.value == cs + conditions.value[|cs|..];
    }

    /** updateConditions works on a deep copy: the resource it is given, and its conditions, stay as they are. */
    method UpdateConditions(cfg: Config, err: Option<Error>) returns (updated: Resource?)
      ensures updated != null <==> IsUpdated(ConditionSeq(old(View())), err)
      ensures updated != null ==> fresh(updated) && fresh(updated.Objects()) && updated.Distinct()
      ensures updated != null ==> updated.View() == WithUpdatedConditions(cfg, old(View()), err)
    {
      ghost var before := View();
      var ko := DeepCopy();
      ko.SetStatusDefaults(cfg);
      ghost var copied := ko.View();
      assert copied == WithDefaults(cfg, before);
      assert fresh(ko.conditions.value);
      var isUpdated := ko.UpdateInPlace(err);
      updated := if isUpdated then ko else null;
    }
  }

  /** The value of a resource that was not written. */
  twostate lemma NothingChanged(r: Resource)
    requires unchanged(r) && forall o :: o in old(r.Objects()) ==> unchanged(o)
    ensures r.View() == old(r.View()) && r.Distinct() == old(r.Distinct())
  {
  }

  /** The value of a resource of which only the spec was assigned. */
  twostate lemma OnlySpecChanged(r: Resource)
    requires r.namespace == old(r.namespace) && r.metadata == old(r.metadata) && r.agentID == old(r.agentID)
    requires r.agentStatus == old(r.agentStatus) && r.details == old(r.details) && r.conditions == old(r.conditions)
    requires r.conditions.Some? ==> Values(r.conditions.value) == old(Values(r.conditions.value))
    ensures r.View() == old(r.View()).(spec := r.spec) && r.Distinct() == old(r.Distinct())
  {
  }
}
