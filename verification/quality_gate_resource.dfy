/** The `sonarqube_quality_gate` resource: the gate and condition calls its
    create and update issue, in order, with abort on the first error. */
module QualityGateResource {
  import opened Wrappers
  import opened Client
  import opened SonarQube

  /** One `conditions` block as configured. */
  datatype CondSpec = CondSpec(metric: string, op: string, error: string)

  /** One element of the `conditions` list held in the resource data. The
      update looks for an `id` key in it; the schema declares no such key,
      so as the resource is written it is always `None` (see `ReadGate`).
      This model keeps the id the service reports (`ReadGateKeepingIds`). */
  datatype CondEntry = CondEntry(id: Option<string>, spec: CondSpec)

  datatype GateConfig = GateConfig(name: string, conditions: seq<CondSpec>)

  datatype GateState = GateState(id: string, name: string, conditions: seq<CondEntry>)

  /** The conditions of a state as the configuration would write them. */
  function Specs(entries: seq<CondEntry>): (specs: seq<CondSpec>)
    ensures |specs| == |entries|
    ensures forall i :: 0 <= i < |entries| ==> specs[i] == entries[i].spec
  {
    if entries == [] then [] else [entries[0].spec] + Specs(entries[1..])
  }

  /** Configured conditions as the resource data holds them before any read. */
  function Unread(specs: seq<CondSpec>): (entries: seq<CondEntry>)
    ensures Specs(entries) == specs
    ensures forall i :: 0 <= i < |entries| ==> entries[i].id.None?
  {
    if specs == [] then [] else [CondEntry(None, specs[0])] + Unread(specs[1..])
  }

  /** The three fields of a reported condition that the configuration has. */
  function SpecOf(c: Condition): CondSpec
  {
    CondSpec(c.metric, c.op, c.error)
  }

  /** Reported conditions as the read stores them, with or without their ids. */
  function StoreConditions(conds: seq<Condition>, keepIds: bool): (entries: seq<CondEntry>)
    ensures |entries| == |conds|
    ensures forall i :: 0 <= i < |conds| ==>
              entries[i] == CondEntry(if keepIds then Some(conds[i].id) else None, SpecOf(conds[i]))
  {
    if conds == [] then []
    else [CondEntry(if keepIds then Some(conds[0].id) else None, SpecOf(conds[0]))] + StoreConditions(conds[1..], keepIds)
  }

  /** One `CreateQualityGateCondition` per condition, in list order. */
  function CreateConditionsPlan(gateId: string, specs: seq<CondSpec>): (plan: seq<Request>)
    ensures |plan| == |specs|
    ensures forall i :: 0 <= i < |specs| ==>
              plan[i] == CreateConditionRequest(gateId, specs[i].metric, specs[i].op, specs[i].error)
    ensures forall q :: q in plan ==> q.path == "qualitygates/create_condition"
  {
    if specs == [] then []
    else [CreateConditionRequest(gateId, specs[0].metric, specs[0].op, specs[0].error)]
         + CreateConditionsPlan(gateId, specs[1..])
  }

  /** One `DeleteQualityGateCondition` per old condition that carries an
      id, in list order; conditions without an id are skipped. */
  function DeletePlan(entries: seq<CondEntry>): (plan: seq<Request>)
    ensures |plan| <= |entries|
    ensures forall i :: 0 <= i < |plan| ==> plan[i].path == "qualitygates/delete_condition"
    ensures plan == [] <==> forall i :: 0 <= i < |entries| ==> entries[i].id.None?
    ensures (forall i :: 0 <= i < |entries| ==> entries[i].id.Some?) ==>
              |plan| == |entries| && forall i :: 0 <= i < |entries| ==> plan[i] == DeleteConditionRequest(entries[i].id.value)
  {
    if entries == [] then []
    else
      var rest := DeletePlan(entries[1..]);
      assert forall i :: 1 <= i < |entries| ==> entries[i] == entries[1..][i - 1];
      if entries[0].id.Some? then [DeleteConditionRequest(entries[0].id.value)] + rest else rest
  }

  /** Every old condition that carries an id is deleted. */
  lemma {:induction false} DeletePlanCoversIds(entries: seq<CondEntry>)
    ensures forall i :: 0 <= i < |entries| && entries[i].id.Some? ==>
              DeleteConditionRequest(entries[i].id.value) in DeletePlan(entries)
  {
    if entries != [] {
      DeletePlanCoversIds(entries[1..]);
      forall i | 1 <= i < |entries| && entries[i].id.Some?
        ensures DeleteConditionRequest(entries[i].id.value) in DeletePlan(entries)
      {
        assert entries[i] == entries[1..][i - 1];
      }
    }
  }

  predicate NameChanged(prior: GateState, desired: GateConfig)
  {
    prior.name != desired.name
  }

  /** `d.HasChange("conditions")`. */
  predicate ConditionsChanged(prior: GateState, desired: GateConfig)
  {
    Specs(prior.conditions) != desired.conditions
  }

  /** The requests `resourceQualityGateUpdate` issues before its read when
      nothing fails: the rename first, exactly when the name changed; then
      nothing when the conditions are unchanged, and otherwise every delete
      followed by every create. */
  function UpdatePlan(prior: GateState, desired: GateConfig): (plan: seq<Request>)
    ensures NameChanged(prior, desired) ==> |plan| >= 1 && plan[0] == UpdateQualityGateRequest(prior.id, desired.name)
    ensures var n := if NameChanged(prior, desired) then 1 else 0;
            && |plan| >= n
            && plan[n..] == (if ConditionsChanged(prior, desired)
                             then DeletePlan(prior.conditions) + CreateConditionsPlan(prior.id, desired.conditions)
                             else [])
  {
    var rename := if NameChanged(prior, desired) then [UpdateQualityGateRequest(prior.id, desired.name)] else [];
    var conditions :=
      if ConditionsChanged(prior, desired)
      then DeletePlan(prior.conditions) + CreateConditionsPlan(prior.id, desired.conditions)
      else [];
    assert (rename + conditions)[|rename|..] == conditions;
    rename + conditions
  }

  /** The gate is renamed only by the first request of an update: no
      request after it is a `qualitygates/update`. */
  lemma UpdateRenamesOnlyFirst(prior: GateState, desired: GateConfig)
    ensures var plan := UpdatePlan(prior, desired);
            var n := if NameChanged(prior, desired) then 1 else 0;
            forall i :: n <= i < |plan| ==> plan[i].path != "qualitygates/update"
  {
    var plan := UpdatePlan(prior, desired);
    var n := if NameChanged(prior, desired) then 1 else 0;
    if ConditionsChanged(prior, desired) {
      var deletes := DeletePlan(prior.conditions);
      var creates := CreateConditionsPlan(prior.id, desired.conditions);
      DeletesDoNotRename(prior.conditions);
      CreatesDoNotRename(prior.id, desired.conditions);
      NoRenameConcat(deletes, creates);
    }
    NoRenameAfter(plan, n);
  }

  lemma NoRenameAfter(plan: seq<Request>, n: nat)
    requires n <= |plan| && NoRename(plan[n..])
    ensures forall i :: n <= i < |plan| ==> plan[i].path != "qualitygates/update"
  {
    forall i | n <= i < |plan| ensures plan[i].path != "qualitygates/update" {
      assert plan[i] == plan[n..][i - n];
    }
  }

  /** None of the requests renames the gate. */
  predicate NoRename(xs: seq<Request>)
  {
    forall i :: 0 <= i < |xs| ==> xs[i].path != "qualitygates/update"
  }

  lemma NoRenameConcat(a: seq<Request>, b: seq<Request>)
    requires NoRename(a) && NoRename(b)
    ensures NoRename(a + b)
  {
    forall i | 0 <= i < |a + b| ensures (a + b)[i].path != "qualitygates/update" {
      if i < |a| {
        assert (a + b)[i] == a[i];
      } else {
        assert (a + b)[i] == b[i - |a|];
      }
    }
  }

  lemma DeletesDoNotRename(entries: seq<CondEntry>)
    ensures NoRename(DeletePlan(entries))
  {
    PathsDiffer();
  }

  lemma CreatesDoNotRename(gateId: string, specs: seq<CondSpec>)
    ensures NoRename(CreateConditionsPlan(gateId, specs))
  {
    PathsDiffer();
  }

  /** The condition endpoints are not the rename endpoint. */
  lemma PathsDiffer()
    ensures "qualitygates/delete_condition" != "qualitygates/update"
    ensures "qualitygates/create_condition" != "qualitygates/update"
  {
    assert "qualitygates/update"[13] == 'u';
    assert "qualitygates/delete_condition"[13] == 'd';
    assert "qualitygates/create_condition"[13] == 'c';
  }

  /** `resourceQualityGateRead` as written: name and conditions from the
      service, each condition reduced to metric, op and error, so the
      stored list carries no condition id. */
  function ReadGate(s: GateState, rs: Replies, at: nat): (r: Outcome<GateState>)
    ensures r.calls == [ReadQualityGateRequest(s.id)]
    ensures r.error.None? <==> Accepted(r.calls[0], ReplyAt(rs, at))
    ensures r.error.Some? ==> r.state == s
    ensures r.error.None? ==>
              var gate := ReplyAt(rs, at).body.gate;
              && r.state.id == s.id && r.state.name == gate.name
              && |r.state.conditions| == |gate.conditions|
              && forall i :: 0 <= i < |gate.conditions| ==>
                   r.state.conditions[i] == CondEntry(None, SpecOf(gate.conditions[i]))
  {
    var read := ReadQualityGate(s.id, ReplyAt(rs, at));
    match read.result
    case Failure(e) => Outcome(read.calls, s, Some(e))
    case Success(gate) =>
      Outcome(read.calls, GateState(s.id, gate.name, StoreConditions(gate.conditions, false)), None)
  }

  /** The read the update needs: the same, but each stored condition keeps
      the id the service gave it. */
  function ReadGateKeepingIds(s: GateState, rs: Replies, at: nat): (r: Outcome<GateState>)
    ensures r.calls == [ReadQualityGateRequest(s.id)]
    ensures r.error.None? <==> Accepted(r.calls[0], ReplyAt(rs, at))
    ensures r.error.Some? ==> r.state == s
    ensures r.error.None? ==>
              var gate := ReplyAt(rs, at).body.gate;
              && r.state.id == s.id && r.state.name == gate.name
              && |r.state.conditions| == |gate.conditions|
              && forall i :: 0 <= i < |gate.conditions| ==>
                   r.state.conditions[i] == CondEntry(Some(gate.conditions[i].id), SpecOf(gate.conditions[i]))
  {
    var read := ReadQualityGate(s.id, ReplyAt(rs, at));
    match read.result
    case Failure(e) => Outcome(read.calls, s, Some(e))
    case Success(gate) =>
      Outcome(read.calls, GateState(s.id, gate.name, StoreConditions(gate.conditions, true)), None)
  }

  /** `resourceQualityGateCreate`: create the gate and take its id at once,
      create the conditions in order on that gate, then read it back; the
      first failure ends the run and leaves the id as it was set. */
  function Create(c: GateConfig, rs: Replies): (r: Outcome<GateState>)
    ensures |r.calls| >= 1 && r.calls[0] == CreateQualityGateRequest(c.name)
    ensures !Accepted(r.calls[0], ReplyAt(rs, 0)) ==>
              |r.calls| == 1 && r.state.id == "" && r.error == Some(Rejection(ReplyAt(rs, 0)))
    ensures Accepted(r.calls[0], ReplyAt(rs, 0)) ==>
              var id := ReplyAt(rs, 0).body.gate.id;
              && r.state.id == id
              && FollowsPlan(CreateConditionsPlan(id, c.conditions) + [ReadQualityGateRequest(id)],
                             rs, 1, r.calls[1..], r.error.None?)
    ensures Accepted(r.calls[0], ReplyAt(rs, 0)) ==>
              var s := GateState(ReplyAt(rs, 0).body.gate.id, c.name, Unread(c.conditions));
              var n := 1 + |c.conditions|;
              && (|r.calls| <= n ==> r.state == s && r.error == Some(Rejection(ReplyAt(rs, |r.calls| - 1))))
              && (|r.calls| > n ==>
                    r.state == ReadGateKeepingIds(s, rs, n).state && r.error == ReadGateKeepingIds(s, rs, n).error)
  {
    var created := CreateQualityGate(c.name, ReplyAt(rs, 0));
    match created.result
    case Failure(e) => Outcome(created.calls, GateState("", c.name, Unread(c.conditions)), Some(e))
    case Success(gate) =>
      var s := GateState(gate.id, c.name, Unread(c.conditions));
      var rest := Steps(s, CreateConditionsPlan(gate.id, c.conditions), rs, 1);
      assert (created.calls + rest.calls)[1..] == rest.calls;
      Outcome(created.calls + rest.calls, rest.state, rest.error)
  }

  /** The tail shared by create and update: issue `plan`, then read gate
      `s.id` (keeping condition ids, so that a later update can delete
      them), stopping at the first failure; a failed call leaves `s` as it
      is. */
  function Steps(s: GateState, plan: seq<Request>, rs: Replies, at: nat): (r: Outcome<GateState>)
    ensures FollowsPlan(plan + [ReadQualityGateRequest(s.id)], rs, at, r.calls, r.error.None?)
    ensures r.state.id == s.id
    ensures |r.calls| <= |plan| ==>
              |r.calls| > 0 && r.state == s && r.error == Some(Rejection(ReplyAt(rs, at + |r.calls| - 1)))
    ensures |r.calls| > |plan| ==>
              r.state == ReadGateKeepingIds(s, rs, at + |plan|).state && r.error == ReadGateKeepingIds(s, rs, at + |plan|).error
  {
    var run := Perform(plan, rs, at);
    if run.result.Failure? then
      StopEarly(plan, [ReadQualityGateRequest(s.id)], rs, at, run.calls);
      Outcome(run.calls, s, Some(run.result.error))
    else
      var read := ReadGateKeepingIds(s, rs, at + |plan|);
      Single(ReadQualityGateRequest(s.id), rs, at + |plan|);
      Chain(plan, [ReadQualityGateRequest(s.id)], rs, at, run.calls, read.calls, read.error.None?);
      Outcome(run.calls + read.calls, read.state, read.error)
  }

  /** `resourceQualityGateUpdate`: the update plan, then the read, stopping
      at the first failure; the gate is always addressed by the stored id. */
  function Update(prior: GateState, desired: GateConfig, rs: Replies): (r: Outcome<GateState>)
    ensures FollowsPlan(UpdatePlan(prior, desired) + [ReadQualityGateRequest(prior.id)], rs, 0, r.calls, r.error.None?)
    ensures r.state.id == prior.id
    ensures var s := GateState(prior.id, desired.name, Unread(desired.conditions));
            var n := |UpdatePlan(prior, desired)|;
            && (|r.calls| <= n ==>
                  |r.calls| > 0 && r.state == s && r.error == Some(Rejection(ReplyAt(rs, |r.calls| - 1))))
            && (|r.calls| > n ==>
                  r.state == ReadGateKeepingIds(s, rs, n).state && r.error == ReadGateKeepingIds(s, rs, n).error)
  {
    Steps(GateState(prior.id, desired.name, Unread(desired.conditions)), UpdatePlan(prior, desired), rs, 0)
  }

  /** `resourceQualityGateDelete`: the id is cleared only when the delete
      went through. */
  function Delete(s: GateState, x: Exchange): (r: Outcome<GateState>)
    ensures r.calls == [DeleteQualityGateRequest(s.id)]
    ensures r.error.None? <==> Send(x).Success?
    ensures r.error.None? ==> r.state == s.(id := "")
    ensures r.error.Some? ==> r.state == s
  {
    var deleted := DeleteQualityGate(s.id, x);
    if deleted.result.Success? then Outcome(deleted.calls, s.(id := ""), None)
    else Outcome(deleted.calls, s, Some(deleted.result.error))
  }

  // ---------------------------------------------------------- condition ids

  /** As written, an update after a read never deletes anything: the read
      stored no condition ids, so the delete loop finds none. */
  lemma UpdateAfterReadDeletesNothing(s: GateState, rs: Replies, at: nat, desired: GateConfig)
    requires ReadGate(s, rs, at).error.None?
    ensures forall q :: q in UpdatePlan(ReadGate(s, rs, at).state, desired) ==> q.path != "qualitygates/delete_condition"
  {
    var read := ReadGate(s, rs, at).state;
    var plan := UpdatePlan(read, desired);
    var n := if NameChanged(read, desired) then 1 else 0;
    assert DeletePlan(read.conditions) == [];
    forall q | q in plan ensures q.path != "qualitygates/delete_condition" {
      var i :| 0 <= i < |plan| && plan[i] == q;
      if i >= n {
        assert q in plan[n..] by { assert plan[n..][i - n] == q; }
      }
    }
  }

  /** The stale condition survives: a gate holding coverage < 80 is read,
      the configuration changes it to coverage < 70, and the update only
      adds the new condition next to the old one. */
  lemma StaleConditionSurvives()
    ensures var gate := QualityGate("g1", "gate", [Condition("c1", "coverage", "LT", "80", "")], false);
            var read := ReadGate(GateState("g1", "gate", []), [Response(200, GateJson(gate))], 0);
            && read.error.None?
            && UpdatePlan(read.state, GateConfig("gate", [CondSpec("coverage", "LT", "70")]))
               == [CreateConditionRequest("g1", "coverage", "LT", "70")]
  {
    var gate := QualityGate("g1", "gate", [Condition("c1", "coverage", "LT", "80", "")], false);
    var read := ReadGate(GateState("g1", "gate", []), [Response(200, GateJson(gate))], 0);
    var desired := GateConfig("gate", [CondSpec("coverage", "LT", "70")]);
    assert read.state.conditions == [CondEntry(None, CondSpec("coverage", "LT", "80"))];
    assert ConditionsChanged(read.state, desired) by {
      assert Specs(read.state.conditions)[0].error == "80";
    }
    var plan := UpdatePlan(read.state, desired);
    assert DeletePlan(read.state.conditions) == [];
    assert plan == plan[0..];
  }

  /** When every stored condition carries an id and the conditions
      changed, the update deletes each of them, in order, right after the
      optional rename, and then creates the configured ones. */
  lemma UpdateDeletesIdentifiedConditions(prior: GateState, desired: GateConfig)
    requires forall i :: 0 <= i < |prior.conditions| ==> prior.conditions[i].id.Some?
    requires ConditionsChanged(prior, desired)
    ensures var plan := UpdatePlan(prior, desired);
            var n := if NameChanged(prior, desired) then 1 else 0;
            && |plan| == n + |prior.conditions| + |desired.conditions|
            && (forall i :: 0 <= i < |prior.conditions| ==> plan[n + i] == DeleteConditionRequest(prior.conditions[i].id.value))
            && plan[n + |prior.conditions|..] == CreateConditionsPlan(prior.id, desired.conditions)
  {
    var plan := UpdatePlan(prior, desired);
    var n := if NameChanged(prior, desired) then 1 else 0;
    SliceParts(plan, n, DeletePlan(prior.conditions), CreateConditionsPlan(prior.id, desired.conditions));
  }

  /** The pieces of a plan whose tail after `n` is `first + second`. */
  lemma SliceParts(plan: seq<Request>, n: nat, first: seq<Request>, second: seq<Request>)
    requires n <= |plan| && plan[n..] == first + second
    ensures |plan| == n + |first| + |second|
    ensures forall i :: 0 <= i < |first| ==> plan[n + i] == first[i]
    ensures forall i :: 0 <= i < |second| ==> plan[n + |first| + i] == second[i]
    ensures plan[n + |first|..] == second
  {
    forall i | 0 <= i < |first| ensures plan[n + i] == first[i] {
      assert plan[n + i] == plan[n..][i];
    }
    forall i | 0 <= i < |second| ensures plan[n + |first| + i] == second[i] {
      assert plan[n + |first| + i] == plan[n..][|first| + i];
    }
    assert plan[n + |first|..] == plan[n..][|first|..];
  }

  /** `plan`, after its first `n` requests, deletes each of `gone` in order
      and then issues exactly `creates`. */
  predicate ReplacesAll(plan: seq<Request>, n: nat, gone: seq<Condition>, creates: seq<Request>)
  {
    && |plan| == n + |gone| + |creates|
    && (forall i :: 0 <= i < |gone| ==> plan[n + i] == DeleteConditionRequest(gone[i].id))
    && plan[n + |gone|..] == creates
  }

  /** With the ids kept, an update that changes the conditions first
      deletes every condition the service reported, in order, and only then
      creates the configured ones. */
  lemma UpdateAfterReadKeepingIdsReplacesAll(s: GateState, rs: Replies, at: nat, desired: GateConfig)
    requires ReadGateKeepingIds(s, rs, at).error.None?
    requires ConditionsChanged(ReadGateKeepingIds(s, rs, at).state, desired)
    ensures var read := ReadGateKeepingIds(s, rs, at).state;
            ReplacesAll(UpdatePlan(read, desired), if NameChanged(read, desired) then 1 else 0,
                        ReplyAt(rs, at).body.gate.conditions, CreateConditionsPlan(s.id, desired.conditions))
  {
    KeptIdsAreDeleted(ReadGateKeepingIds(s, rs, at).state, ReplyAt(rs, at).body.gate, desired);
  }

  /** A state whose conditions carry the ids of `gate`'s conditions has
      exactly those conditions deleted by a changing update. */
  lemma KeptIdsAreDeleted(read: GateState, gate: QualityGate, desired: GateConfig)
    requires |read.conditions| == |gate.conditions|
    requires forall i :: 0 <= i < |gate.conditions| ==> read.conditions[i].id == Some(gate.conditions[i].id)
    requires ConditionsChanged(read, desired)
    ensures ReplacesAll(UpdatePlan(read, desired), if NameChanged(read, desired) then 1 else 0,
                        gate.conditions, CreateConditionsPlan(read.id, desired.conditions))
  {
    UpdateDeletesIdentifiedConditions(read, desired);
  }
}
