/** The plan state machine: legal step transitions, the dependency gate, and the status of the plan. */
module PlanEngine {
  import opened Messages

  datatype StepStatus = Pending | Running | Done | Verifying | Verified | Failed | Skipped

  datatype PlanStatus = PlanPending | PlanRunning | PlanCompleted | PlanFailed | PlanAborted

  datatype StepId = ApproveOption | ExecuteAction | OtherStep(name: string)

  /** `checks` is the length of `acceptance`. */
  datatype Step = Step(id: StepId, status: StepStatus, dependsOn: seq<StepId>, checks: nat)

  datatype Decision = Undecided | Approved | Rejected

  datatype Execution = NotExecuted | Executing | Completed | ExecutionFailed

  datatype ActionKind = HttpCall | Notify | OtherAction

  /** The metadata that steers a business decision. Other kinds of plan have none of it. */
  datatype Metadata = Business(decision: Decision, execution: Execution, action: ActionKind) | NotBusiness

  /** A plan as stored. */
  datatype Plan = Plan(planId: string, status: PlanStatus, steps: seq<Step>, metadata: Metadata)

  // ----- Rules -----

  predicate Legal(from: StepStatus, to: StepStatus) {
    match from
    case Pending => to == Running || to == Skipped
    case Running => to == Done || to == Failed
    case Done => to == Verifying || to == Verified
    case Verifying => to == Verified || to == Failed
    case Failed => to == Running || to == Skipped || to == Pending
    case Verified => false
    case Skipped => false
  }

  /** `get_step`: the first step with this id, or past the end. */
  function StepIndex(steps: seq<Step>, id: StepId): (i: nat)
    ensures i <= |steps|
    ensures i < |steps| ==> steps[i].id == id
    ensures forall j :: 0 <= j < i ==> steps[j].id != id
  {
    if steps == [] || steps[0].id == id then 0
    else
      var rest := StepIndex(steps[1..], id);
      assert forall j :: 0 < j < |steps| ==> steps[1..][j - 1] == steps[j];
      rest + 1
  }

  /** `step_map().get(id)`: the last step with this id, if any. */
  function StepNamed(steps: seq<Step>, id: StepId): Option<Step> {
    if steps == [] then None
    else if steps[|steps| - 1].id == id then Some(steps[|steps| - 1])
    else StepNamed(steps[..|steps| - 1], id)
  }

  predicate Met(steps: seq<Step>, dep: StepId) {
    var step := StepNamed(steps, dep);
    step.Some? && step.value.status == Verified
  }

  function UnmetDeps(steps: seq<Step>, deps: seq<StepId>): (unmet: seq<StepId>)
    ensures unmet == [] <==> forall d :: 0 <= d < |deps| ==> Met(steps, deps[d])
  {
    if deps == [] then []
    else
      var last := deps[|deps| - 1];
      UnmetDeps(steps, deps[..|deps| - 1]) + if Met(steps, last) then [] else [last]
  }

  predicate AllIn(steps: seq<Step>, allowed: set<StepStatus>) {
    forall i :: 0 <= i < |steps| ==> steps[i].status in allowed
  }

  predicate AnyIn(steps: seq<Step>, wanted: set<StepStatus>) {
    exists i :: 0 <= i < |steps| && steps[i].status in wanted
  }

  /** What a caller of `transition` may do: only what is legal, skip as well, or force anything. */
  datatype Permit = Plain | AllowSkip | Force

  datatype Request = Request(id: StepId, to: StepStatus, permit: Permit)

  /** `recompute_plan_status` */
  function Recomputed(status: PlanStatus, steps: seq<Step>): PlanStatus {
    if status == PlanAborted then status
    else if steps == [] then PlanPending
    else if AllIn(steps, {Verified, Skipped}) then
      if AnyIn(steps, {Verified}) then PlanCompleted else PlanFailed
    else if AnyIn(steps, {Running, Done, Verifying}) then PlanRunning
    else if AnyIn(steps, {Failed}) && !AnyIn(steps, {Running, Done, Verifying, Pending}) then PlanFailed
    else if AnyIn(steps, {Failed}) then PlanRunning
    else if AllIn(steps, {Pending}) then PlanPending
    else PlanRunning
  }

  /** The plan's status and its steps after a transition, or nothing if it is refused. The caller may
      be allowed to skip; recovery tools may force any transition. */
  function Transitioned(status: PlanStatus, steps: seq<Step>, request: Request): Option<(PlanStatus, seq<Step>)> {
    var i := StepIndex(steps, request.id);
    if i == |steps| then None
    else
      var step, to := steps[i], request.to;
      var steps' := steps[i := step.(status := to)];
      if request.permit == Force then Some((Recomputed(status, steps'), steps'))
      else if to == Skipped && request.permit != AllowSkip then None
      else if !Legal(step.status, to) then None
      else if to == Running && UnmetDeps(steps, step.dependsOn) != [] then None
      else if to == Verified && step.status == Done && step.checks > 0 then None
      else if to == Verifying && step.status == Done && step.checks == 0 then None
      else Some((Recomputed(status, steps'), steps'))
  }

  // ----- The engine works on a plan in place -----

  class LoadedPlan {
    const planId: string
    var status: PlanStatus
    var steps: seq<Step>
    var metadata: Metadata

    constructor (plan: Plan)
      ensures Value() == plan
    {
      planId, status, steps, metadata := plan.planId, plan.status, plan.steps, plan.metadata;
    }

    function Value(): Plan
      reads this
    {
      Plan(planId, status, steps, metadata)
    }

    method CollectUnmet(deps: seq<StepId>) returns (unmet: seq<StepId>)
      ensures unmet == UnmetDeps(steps, deps)
    {
      unmet := [];
      for d := 0 to |deps|
        invariant unmet == UnmetDeps(steps, deps[..d])
      {
        assert deps[..d + 1][..d] == deps[..d];
        var found := StepNamed(steps, deps[d]);
        if found.None? || found.value.status != Verified {
          unmet := unmet + [deps[d]];
        }
      }
      assert deps[..|deps|] == deps;
    }

    /** Applies the transition, or changes nothing if it is refused. */
    method Transition(id: StepId, to: StepStatus, permit: Permit) returns (applied: bool)
      modifies this`status, this`steps
      ensures match Transitioned(old(status), old(steps), Request(id, to, permit))
              case Some((status', steps')) => applied && status == status' && steps == steps'
              case None => !applied && status == old(status) && steps == old(steps)
    {
      var i := StepIndex(steps, id);
      if i == |steps| {
        return false;
      }
      var step, force := steps[i], permit == Force;
      if to == Skipped && permit != AllowSkip && !force {
        return false;
      }
      if !force && !Legal(step.status, to) {
        return false;
      }
      if to == Running && !force {
        var unmet := CollectUnmet(step.dependsOn);
        if unmet != [] {
          return false;
        }
      }
      if to == Verified && step.status == Done && step.checks > 0 && !force {
        return false;
      }
      if to == Verifying && step.status == Done && step.checks == 0 && !force {
        return false;
      }
      steps := steps[i := step.(status := to)];
      status := Recomputed(status, steps);
      applied := true;
    }
  }

  // ----- What transitions can never do -----

  ghost predicate DistinctSteps(steps: seq<Step>) {
    forall i, j :: 0 <= i < j < |steps| ==> steps[i].id != steps[j].id
  }

  lemma {:induction false} StepNamedIs(steps: seq<Step>, i: nat)
    requires DistinctSteps(steps) && i < |steps|
    ensures StepNamed(steps, steps[i].id) == Some(steps[i])
  {
    if i < |steps| - 1 {
      StepNamedIs(steps[..|steps| - 1], i);
    }
  }

  lemma {:induction false} StepNamedFrom(steps: seq<Step>, id: StepId)
    ensures match StepNamed(steps, id)
            case Some(step) => step in steps && step.id == id
            case None => forall i :: 0 <= i < |steps| ==> steps[i].id != id
  {
    if steps != [] && steps[|steps| - 1].id != id {
      StepNamedFrom(steps[..|steps| - 1], id);
    }
  }

  /** A step that has started has all its dependencies verified. */
  ghost predicate GateHolds(steps: seq<Step>, i: nat)
    requires i < |steps|
  {
    steps[i].status in {Running, Done, Verifying, Verified} ==>
      forall d :: 0 <= d < |steps[i].dependsOn| ==> Met(steps, steps[i].dependsOn[d])
  }

  ghost predicate Gated(steps: seq<Step>) {
    DistinctSteps(steps) && forall i :: 0 <= i < |steps| ==> GateHolds(steps, i)
  }

  /** A verified step stays verified, whatever becomes of the others. */
  lemma {:induction false} MetStaysMet(status: PlanStatus, steps: seq<Step>, request: Request, dep: StepId)
    requires DistinctSteps(steps) && Met(steps, dep) && request.permit != Force
    requires Transitioned(status, steps, request).Some?
    ensures Met(Transitioned(status, steps, request).value.1, dep)
  {
    var steps' := Transitioned(status, steps, request).value.1;
    StepNamedFrom(steps, dep);
    var k :| 0 <= k < |steps| && steps[k] == StepNamed(steps, dep).value;
    assert steps'[k].id == dep && steps'[k].status == Verified;
    StepNamedIs(steps', k);
  }

  /** Whatever transition is asked for that is not forced, skips included, and whatever the plan: no
      step starts before its dependencies are verified, and they stay verified. */
  lemma {:induction false} TransitionKeepsGate(status: PlanStatus, steps: seq<Step>, request: Request)
    requires Gated(steps) && request.permit != Force && Transitioned(status, steps, request).Some?
    ensures Gated(Transitioned(status, steps, request).value.1)
  {
    var steps' := Transitioned(status, steps, request).value.1;
    forall i | 0 <= i < |steps'|
      ensures GateHolds(steps', i)
    {
      assert GateHolds(steps, i);
      if steps'[i].status in {Running, Done, Verifying, Verified} {
        forall d | 0 <= d < |steps[i].dependsOn|
          ensures Met(steps', steps[i].dependsOn[d])
        {
          MetStaysMet(status, steps, request, steps[i].dependsOn[d]);
        }
      }
    }
  }

  ghost predicate NoneForced(requests: seq<Request>) {
    forall r :: 0 <= r < |requests| ==> requests[r].permit != Force
  }

  /** The plan after some requests; refused ones change nothing. */
  function Requested(status: PlanStatus, steps: seq<Step>, requests: seq<Request>): (PlanStatus, seq<Step>) {
    if requests == [] then (status, steps)
    else
      var (status', steps') := Requested(status, steps, requests[..|requests| - 1]);
      var last := requests[|requests| - 1];
      match Transitioned(status', steps', last)
      case Some(result) => result
      case None => (status', steps')
  }

  lemma {:induction false} GateHoldsForever(status: PlanStatus, steps: seq<Step>, requests: seq<Request>)
    requires Gated(steps) && NoneForced(requests)
    ensures Gated(Requested(status, steps, requests).1)
  {
    if requests != [] {
      GateHoldsForever(status, steps, requests[..|requests| - 1]);
      var (status', steps') := Requested(status, steps, requests[..|requests| - 1]);
      var last := requests[|requests| - 1];
      if Transitioned(status', steps', last).Some? {
        TransitionKeepsGate(status', steps', last);
      }
    }
  }

  /** Once every step is verified or skipped nothing short of force changes the plan any more. */
  lemma {:induction false} TerminalForever(status: PlanStatus, steps: seq<Step>, requests: seq<Request>)
    requires AllIn(steps, {Verified, Skipped}) && NoneForced(requests)
    ensures Requested(status, steps, requests) == (status, steps)
  {
    if requests != [] {
      TerminalForever(status, steps, requests[..|requests| - 1]);
      var i := StepIndex(steps, requests[|requests| - 1].id);
      assert i < |steps| ==> steps[i].status in {Verified, Skipped};
      assert requests[|requests| - 1].permit != Force;
    }
  }

  /** A transition that completes a plan leaves it with every step verified or skipped, so it is final. */
  lemma CompletedIsFinal(status: PlanStatus, steps: seq<Step>, request: Request, requests: seq<Request>)
    requires NoneForced(requests) && Transitioned(status, steps, request).Some?
    requires Transitioned(status, steps, request).value.0 == PlanCompleted
    ensures var result := Transitioned(status, steps, request).value;
            Requested(result.0, result.1, requests) == result
  {
    var (status', steps') := Transitioned(status, steps, request).value;
    TerminalForever(status', steps', requests);
  }

  /** Force does break the gate: a step started by force has not had its dependencies verified. */
  lemma ForceBreaksGate()
    ensures var steps := [Step(ApproveOption, Pending, [], 1), Step(ExecuteAction, Pending, [ApproveOption], 1)];
            var forced := Transitioned(PlanPending, steps, Request(ExecuteAction, Running, Force));
            Gated(steps) && forced.Some? && !Gated(forced.value.1)
  {
    var steps := [Step(ApproveOption, Pending, [], 1), Step(ExecuteAction, Pending, [ApproveOption], 1)];
    var steps' := steps[1 := steps[1].(status := Running)];
    assert StepIndex(steps, ExecuteAction) == 1;
    StepNamedIs(steps', 0);
    assert steps'[1].dependsOn[0] == ApproveOption && !Met(steps', ApproveOption);
    assert !GateHolds(steps', 1);
  }
}
