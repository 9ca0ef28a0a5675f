/** What business decisions keep over any sequence of calls, each of which may be cut short anywhere. */
module DecisionTheorems {
  import opened Messages
  import opened PlanEngine
  import opened Decisions

  // ----- The six ways a business plan can be stored -----

  datatype Phase = Open | Refused | Cleared | Underway | Succeeded | Unsuccessful

  ghost predicate HasSteps(steps: seq<Step>, approve: StepStatus, execute: StepStatus) {
    && |steps| == 2
    && steps[0] == Step(ApproveOption, approve, [], 1)
    && steps[1] == Step(ExecuteAction, execute, [ApproveOption], 1)
  }

  ghost predicate Stands(plan: Plan, status: PlanStatus, approve: StepStatus, execute: StepStatus) {
    plan.status == status && HasSteps(plan.steps, approve, execute)
  }

  ghost predicate InPhase(plan: Plan, phase: Phase) {
    match plan.metadata
    case NotBusiness => false
    case Business(decision, execution, _) =>
      match phase
      case Open => Stands(plan, PlanRunning, Verifying, Pending) && decision == Undecided && execution == NotExecuted
      case Refused => Stands(plan, PlanFailed, Failed, Pending) && decision == Rejected && execution == NotExecuted
      case Cleared => Stands(plan, PlanRunning, Verified, Pending) && decision == Approved && execution == NotExecuted
      case Underway => Stands(plan, PlanRunning, Verified, Running) && decision == Approved && execution == Executing
      case Succeeded =>
        Stands(plan, PlanCompleted, Verified, Verified) && decision == Approved && execution == Completed
      case Unsuccessful =>
        Stands(plan, PlanFailed, Verified, Failed) && decision == Approved && execution == ExecutionFailed
  }

  /** A phase and the one that may follow it. */
  predicate Follows(before: Phase, after: Phase) {
    match before
    case Open => after == Refused || after == Cleared
    case Cleared => after == Underway
    case Underway => after == Succeeded || after == Unsuccessful
    case _ => false
  }

  // ----- The engine on plans of two steps -----

  lemma AllOfTwo(steps: seq<Step>, a: StepStatus, b: StepStatus, statuses: set<StepStatus>)
    requires HasSteps(steps, a, b)
    ensures AllIn(steps, statuses) <==> a in statuses && b in statuses
    ensures AnyIn(steps, statuses) <==> a in statuses || b in statuses
  {
    assert steps[0].status == a && steps[1].status == b;
  }

  lemma RecomputedTwo(status: PlanStatus, steps: seq<Step>, a: StepStatus, b: StepStatus)
    requires HasSteps(steps, a, b) && status != PlanAborted
    ensures Recomputed(status, steps) ==
      if a in {Verified, Skipped} && b in {Verified, Skipped} then
        (if a == Verified || b == Verified then PlanCompleted else PlanFailed)
      else if a in {Running, Done, Verifying} || b in {Running, Done, Verifying} then PlanRunning
      else if (a == Failed || b == Failed) && a != Pending && b != Pending then PlanFailed
      else if a == Pending && b == Pending then PlanPending
      else PlanRunning
  {
    AllOfTwo(steps, a, b, {Verified, Skipped});
    AllOfTwo(steps, a, b, {Verified});
    AllOfTwo(steps, a, b, {Running, Done, Verifying});
    AllOfTwo(steps, a, b, {Failed});
    AllOfTwo(steps, a, b, {Running, Done, Verifying, Pending});
    AllOfTwo(steps, a, b, {Pending});
  }

  lemma MoveApprove(plan: Plan, a: StepStatus, b: StepStatus, to: StepStatus)
    requires HasSteps(plan.steps, a, b) && Legal(a, to) && to != Skipped && to != Running && a != Done
    ensures Moved(plan, ApproveOption, to).Some?
    ensures var moved := Moved(plan, ApproveOption, to).value;
            && moved.planId == plan.planId && moved.metadata == plan.metadata && HasSteps(moved.steps, to, b)
            && moved.status == Recomputed(plan.status, moved.steps)
  {
    assert StepIndex(plan.steps, ApproveOption) == 0;
  }

  lemma MoveExecute(plan: Plan, a: StepStatus, b: StepStatus, to: StepStatus)
    requires HasSteps(plan.steps, a, b) && Legal(b, to) && to != Skipped && !(b == Done && to == Verified)
    requires to == Running ==> a == Verified
    ensures Moved(plan, ExecuteAction, to).Some?
    ensures var moved := Moved(plan, ExecuteAction, to).value;
            && moved.planId == plan.planId && moved.metadata == plan.metadata && HasSteps(moved.steps, a, to)
            && moved.status == Recomputed(plan.status, moved.steps)
  {
    var steps := plan.steps;
    assert StepIndex(steps, ExecuteAction) == 1;
    if to == Running {
      StepNamedIs(steps, 0);
      assert Met(steps, ApproveOption);
    }
  }

  lemma ApprovalMoves(plan: Plan)
    requires InPhase(plan, Open)
    ensures Moved(plan, ApproveOption, Verified).Some?
    ensures var moved := Moved(plan, ApproveOption, Verified).value;
            && InPhase(moved.(metadata := plan.metadata.(decision := Approved)), Cleared)
            && moved.planId == plan.planId && moved.metadata == plan.metadata
  {
    MoveApprove(plan, Verifying, Pending, Verified);
    RecomputedTwo(plan.status, Moved(plan, ApproveOption, Verified).value.steps, Verified, Pending);
  }

  lemma RejectionMoves(plan: Plan)
    requires InPhase(plan, Open)
    ensures Moved(plan, ApproveOption, Failed).Some?
    ensures var moved := Moved(plan, ApproveOption, Failed).value;
            && InPhase(moved.(metadata := plan.metadata.(decision := Rejected), status := PlanFailed), Refused)
            && moved.planId == plan.planId && moved.metadata == plan.metadata
  {
    MoveApprove(plan, Verifying, Pending, Failed);
  }

  lemma StartMoves(plan: Plan)
    requires InPhase(plan, Cleared)
    ensures Moved(plan, ExecuteAction, Running).Some?
    ensures var moved := Moved(plan, ExecuteAction, Running).value;
            && InPhase(moved.(metadata := plan.metadata.(execution := Executing)), Underway)
            && moved.planId == plan.planId && moved.metadata == plan.metadata
  {
    MoveExecute(plan, Verified, Pending, Running);
    RecomputedTwo(plan.status, Moved(plan, ExecuteAction, Running).value.steps, Verified, Running);
  }

  lemma SuccessMoves(plan: Plan)
    requires InPhase(plan, Underway)
    ensures Outcome(plan, true).Some?
    ensures var finished := Outcome(plan, true).value;
            && InPhase(finished, Succeeded)
            && finished.planId == plan.planId && finished.metadata.action == plan.metadata.action
  {
    MoveExecute(plan, Verified, Running, Done);
    var done := Moved(plan, ExecuteAction, Done).value;
    MoveExecute(done, Verified, Done, Verifying);
    MoveExecute(Moved(done, ExecuteAction, Verifying).value, Verified, Verifying, Verified);
  }

  lemma FailureMoves(plan: Plan)
    requires InPhase(plan, Underway)
    ensures Outcome(plan, false).Some?
    ensures var finished := Outcome(plan, false).value;
            && InPhase(finished, Unsuccessful)
            && finished.planId == plan.planId && finished.metadata.action == plan.metadata.action
  {
    MoveExecute(plan, Verified, Running, Failed);
  }

  // ----- Counting effects -----

  datatype Tag = Runs | Evidence | Events

  predicate Bears(effect: Effect, tag: Tag, planId: string) {
    match effect
    case RunAction(id) => tag == Runs && id == planId
    case SaveEvidence(id, _) => tag == Evidence && id == planId
    case EmitTaskEvent(id, _, _) => tag == Events && id == planId
    case _ => false
  }

  /** How often this was done for the plan. */
  function Times(log: seq<Effect>, tag: Tag, planId: string): nat {
    if log == [] then 0
    else Times(log[..|log| - 1], tag, planId) + if Bears(log[|log| - 1], tag, planId) then 1 else 0
  }

  lemma CountLast(log: seq<Effect>, effect: Effect, tag: Tag, planId: string)
    ensures Times(log + [effect], tag, planId) == Times(log, tag, planId) + if Bears(effect, tag, planId) then 1 else 0
  {
    assert (log + [effect])[..|log|] == log;
  }

  // ----- The invariant -----

  /** How often a plan in this phase can have been run, evidenced and reported. */
  predicate Fits(phase: Phase, runs: nat, evidence: nat, events: nat) {
    match phase
    case Open => runs == 0 && evidence == 0 && events == 0
    case Refused => runs == 0 && evidence == 0 && events <= 1
    case Cleared => runs == 0 && evidence == 0 && events == 0
    case Underway => runs <= 1 && evidence == 0 && events == 0
    case Succeeded => runs == 1 && evidence <= 1 && events <= evidence
    case Unsuccessful => runs == 1 && evidence <= 1 && events <= evidence
  }

  predicate IsBusiness(store: Store, planId: string) {
    planId in store && store[planId].metadata.Business?
  }

  function PhaseOf(plan: Plan): Phase {
    match plan.metadata
    case NotBusiness => Open
    case Business(decision, execution, _) =>
      match decision
      case Undecided => Open
      case Rejected => Refused
      case Approved =>
        match execution
        case NotExecuted => Cleared
        case Executing => Underway
        case Completed => Succeeded
        case ExecutionFailed => Unsuccessful
  }

  ghost predicate Tidy(world: World, planId: string) {
    match world
    case World(store, log) =>
      var runs, evidence, events := Times(log, Runs, planId), Times(log, Evidence, planId), Times(log, Events, planId);
      if IsBusiness(store, planId) then
        var plan := store[planId];
        plan.planId == planId && InPhase(plan, PhaseOf(plan)) && Fits(PhaseOf(plan), runs, evidence, events)
          && Save(plan) in log
      else
        runs == 0 && evidence == 0 && events == 0
  }

  /** Before each run of an action the plan had been saved as approved and running. */
  ghost predicate RunsWereApproved(log: seq<Effect>) {
    forall p :: 0 <= p < |log| && log[p].RunAction? ==> ApprovedBefore(log, p, log[p].planId)
  }

  ghost predicate ApprovedBefore(log: seq<Effect>, p: nat, planId: string)
    requires p <= |log|
  {
    exists q :: 0 <= q < p && log[q].Save? && log[q].plan.planId == planId && InPhase(log[q].plan, Underway)
  }

  /** A report says what became of the plan. */
  ghost predicate Told(store: Store, effect: Effect) {
    match effect
    case EmitTaskEvent(planId, decision, execution) =>
      && IsBusiness(store, planId) && PhaseOf(store[planId]) in {Refused, Succeeded, Unsuccessful}
      && store[planId].metadata.decision == decision && store[planId].metadata.execution == execution
    case SaveEvidence(planId, success) =>
      IsBusiness(store, planId) && PhaseOf(store[planId]) == if success then Succeeded else Unsuccessful
    case _ => true
  }

  ghost predicate Truthful(world: World) {
    forall p :: 0 <= p < |world.log| ==> Told(world.store, world.log[p])
  }

  ghost predicate Inv(world: World) {
    RunsWereApproved(world.log) && Truthful(world) && forall planId :: Tidy(world, planId)
  }

  /** What the protocol may do next. */
  ghost predicate Allowed(world: World, effect: Effect) {
    match effect
    case Save(plan) =>
      && InPhase(plan, PhaseOf(plan))
      && if IsBusiness(world.store, plan.planId) then
           && Follows(PhaseOf(world.store[plan.planId]), PhaseOf(plan))
           && plan.metadata.action == world.store[plan.planId].metadata.action
           && (PhaseOf(world.store[plan.planId]) == Underway ==> Times(world.log, Runs, plan.planId) == 1)
         else PhaseOf(plan) == Open && plan.planId !in world.store
    case RunAction(planId) =>
      IsBusiness(world.store, planId) && PhaseOf(world.store[planId]) == Underway && Times(world.log, Runs, planId) == 0
    case SaveEvidence(planId, _) =>
      Told(world.store, effect) && Times(world.log, Evidence, planId) == 0
    case EmitTaskEvent(planId, _, _) =>
      && Told(world.store, effect) && Times(world.log, Events, planId) == 0
      && (PhaseOf(world.store[planId]) == Refused ||
          (PhaseOf(world.store[planId]) in {Succeeded, Unsuccessful} && Times(world.log, Evidence, planId) == 1))
    case Learn(_) => true
  }

  lemma ApprovalsLast(log: seq<Effect>, effect: Effect)
    requires RunsWereApproved(log)
    requires effect.RunAction? ==> ApprovedBefore(log, |log|, effect.planId)
    ensures RunsWereApproved(log + [effect])
  {
    var log' := log + [effect];
    forall p | 0 <= p < |log'| && log'[p].RunAction?
      ensures ApprovedBefore(log', p, log'[p].planId)
    {
      if p < |log| {
        assert log'[p] == log[p];
        assert ApprovedBefore(log, p, log[p].planId);
        var q :| 0 <= q < p && log[q].Save? && log[q].plan.planId == log[p].planId && InPhase(log[q].plan, Underway);
        assert log'[q] == log[q];
      } else {
        var q :| 0 <= q < |log| && log[q].Save? && log[q].plan.planId == effect.planId
          && InPhase(log[q].plan, Underway);
        assert log'[q] == log[q];
      }
    }
  }

  /** What was told stays true: a plan that has been reported on does not change any more. */
  lemma TruthLasts(world: World, effect: Effect)
    requires Truthful(world) && Allowed(world, effect)
    ensures Truthful(Apply(world, effect))
  {
    var after := Apply(world, effect);
    forall p | 0 <= p < |after.log|
      ensures Told(after.store, after.log[p])
    {
      if p < |world.log| {
        assert after.log[p] == world.log[p];
        assert Told(world.store, world.log[p]);
      } else {
        assert after.log[p] == effect;
      }
    }
  }

  lemma ApplyKeepsTidy(world: World, effect: Effect, planId: string)
    requires Tidy(world, planId) && Allowed(world, effect)
    ensures Tidy(Apply(world, effect), planId)
  {
    CountLast(world.log, effect, Runs, planId);
    CountLast(world.log, effect, Evidence, planId);
    CountLast(world.log, effect, Events, planId);
  }

  lemma ApplyKeepsInv(world: World, effect: Effect)
    requires Inv(world) && Allowed(world, effect)
    ensures Inv(Apply(world, effect))
  {
    forall planId
      ensures Tidy(Apply(world, effect), planId)
    {
      ApplyKeepsTidy(world, effect, planId);
    }
    if effect.RunAction? {
      assert Tidy(world, effect.planId);
      var q :| 0 <= q < |world.log| && world.log[q] == Save(world.store[effect.planId]);
      assert ApprovedBefore(world.log, |world.log|, effect.planId);
    }
    ApprovalsLast(world.log, effect);
    TruthLasts(world, effect);
  }

  // ----- Every call keeps the invariant, wherever it is cut short -----

  ghost predicate AllAllowed(world: World, effects: seq<Effect>)
    decreases |effects|
  {
    effects == [] || (Allowed(world, effects[0]) && AllAllowed(Apply(world, effects[0]), effects[1..]))
  }

  lemma {:induction false} PerformKeepsInv(world: World, effects: seq<Effect>, budget: nat)
    requires Inv(world) && AllAllowed(world, effects)
    ensures Inv(Perform(world, effects, budget))
    decreases |effects|
  {
    if effects != [] && budget > 0 {
      ApplyKeepsInv(world, effects[0]);
      PerformKeepsInv(Apply(world, effects[0]), effects[1..], budget - 1);
    }
  }

  /** Allowed one by one. */
  lemma AllowedFirst(world: World, effect: Effect, rest: seq<Effect>)
    requires Allowed(world, effect) && AllAllowed(Apply(world, effect), rest)
    ensures AllAllowed(world, [effect] + rest)
  {
    assert ([effect] + rest)[1..] == rest;
  }

  lemma LessonsAllowed(world: World, config: Option<Config>, planId: string)
    ensures AllAllowed(world, Lessons(config, planId))
  {
  }

  /** What `decide` does to an open plan. */
  lemma DecideScriptIs(config: Option<Config>, store: Store, planId: string, verdict: Verdict) returns (decided: Plan)
    requires ValidId(planId) && IsBusiness(store, planId) && store[planId].planId == planId
             && InPhase(store[planId], Open)
    requires verdict != OtherVerdict
    ensures decided.planId == planId && InPhase(decided, if verdict.Approve? then Cleared else Refused)
    ensures decided.metadata.action == store[planId].metadata.action
    ensures DecideScript(config, store, planId, verdict)
         == Script([Save(decided)] + Lessons(config, planId)
                   + (if verdict.Reject? && config.Some? then [TaskEventOf(decided)] else []),
                   Decided(decided, if verdict.Approve? then Approved else Rejected, true))
  {
    var plan := store[planId];
    if verdict.Approve? {
      ApprovalMoves(plan);
      decided := Moved(plan, ApproveOption, Verified).value.(metadata := plan.metadata.(decision := Approved));
    } else {
      RejectionMoves(plan);
      decided := Moved(plan, ApproveOption, Failed).value.(metadata := plan.metadata.(decision := Rejected),
                                                           status := PlanFailed);
    }
  }

  /** What `execute` does to a cleared plan. */
  lemma RunScriptIs(config: Option<Config>, plan: Plan, succeeds: bool) returns (running: Plan, finished: Plan)
    requires InPhase(plan, Cleared)
    ensures InPhase(running, Underway) && InPhase(finished, if succeeds then Succeeded else Unsuccessful)
    ensures running.planId == finished.planId == plan.planId
    ensures running.metadata.action == finished.metadata.action == plan.metadata.action
    ensures RunScript(config, plan, succeeds)
         == Script([Save(running), RunAction(plan.planId), Save(finished)] + Report(config, finished, succeeds),
                   Returned(finished))
  {
    StartMoves(plan);
    running := Moved(plan, ExecuteAction, Running).value.(metadata := plan.metadata.(execution := Executing));
    if succeeds {
      SuccessMoves(running);
    } else {
      FailureMoves(running);
    }
    finished := Outcome(running, succeeds).value;
  }

  lemma ReportAllowed(world: World, config: Option<Config>, plan: Plan, succeeds: bool)
    requires Inv(world) && IsBusiness(world.store, plan.planId) && world.store[plan.planId] == plan
    requires PhaseOf(plan) == if succeeds then Succeeded else Unsuccessful
    requires Times(world.log, Evidence, plan.planId) == 0
    ensures AllAllowed(world, Report(config, plan, succeeds))
  {
    var lessons := Lessons(config, plan.planId);
    if config.Some? {
      var evidence, event := SaveEvidence(plan.planId, succeeds), TaskEventOf(plan);
      var world' := Apply(world, evidence);
      assert Tidy(world, plan.planId);
      CountLast(world.log, evidence, Evidence, plan.planId);
      CountLast(world.log, evidence, Events, plan.planId);
      LessonsAllowed(Apply(world', event), config, plan.planId);
      AllowedFirst(world', event, lessons);
      AllowedFirst(world, evidence, [event] + lessons);
      assert [evidence] + ([event] + lessons) == [evidence, event] + lessons == Report(config, plan, succeeds);
    } else {
      assert [] + lessons == lessons;
      LessonsAllowed(world, config, plan.planId);
    }
  }

  lemma FinishAllowed(world: World, config: Option<Config>, finished: Plan, succeeds: bool)
    requires Inv(world) && IsBusiness(world.store, finished.planId) && PhaseOf(world.store[finished.planId]) == Underway
    requires InPhase(finished, if succeeds then Succeeded else Unsuccessful)
    requires finished.metadata.action == world.store[finished.planId].metadata.action
    requires Times(world.log, Runs, finished.planId) == 1
    ensures AllAllowed(world, [Save(finished)] + Report(config, finished, succeeds))
  {
    ApplyKeepsInv(world, Save(finished));
    assert Tidy(world, finished.planId);
    CountLast(world.log, Save(finished), Evidence, finished.planId);
    ReportAllowed(Apply(world, Save(finished)), config, finished, succeeds);
    AllowedFirst(world, Save(finished), Report(config, finished, succeeds));
  }

  lemma RunAllowed(world: World, config: Option<Config>, finished: Plan, succeeds: bool)
    requires Inv(world) && IsBusiness(world.store, finished.planId) && PhaseOf(world.store[finished.planId]) == Underway
    requires InPhase(finished, if succeeds then Succeeded else Unsuccessful)
    requires finished.metadata.action == world.store[finished.planId].metadata.action
    requires Times(world.log, Runs, finished.planId) == 0
    ensures AllAllowed(world, [RunAction(finished.planId)] + ([Save(finished)] + Report(config, finished, succeeds)))
  {
    var run := RunAction(finished.planId);
    ApplyKeepsInv(world, run);
    CountLast(world.log, run, Runs, finished.planId);
    FinishAllowed(Apply(world, run), config, finished, succeeds);
    AllowedFirst(world, run, [Save(finished)] + Report(config, finished, succeeds));
  }

  lemma StartAllowed(world: World, config: Option<Config>, running: Plan, finished: Plan, succeeds: bool)
    requires Inv(world) && IsBusiness(world.store, running.planId) && InPhase(world.store[running.planId], Cleared)
    requires InPhase(running, Underway) && InPhase(finished, if succeeds then Succeeded else Unsuccessful)
    requires running.planId == finished.planId
    requires running.metadata.action == finished.metadata.action == world.store[running.planId].metadata.action
    ensures AllAllowed(world,
                       [Save(running)]
                         + ([RunAction(finished.planId)] + ([Save(finished)] + Report(config, finished, succeeds))))
  {
    assert Tidy(world, running.planId);
    ApplyKeepsInv(world, Save(running));
    CountLast(world.log, Save(running), Runs, running.planId);
    RunAllowed(Apply(world, Save(running)), config, finished, succeeds);
    AllowedFirst(world, Save(running),
                 [RunAction(finished.planId)] + ([Save(finished)] + Report(config, finished, succeeds)));
  }

  lemma ThreeFirst(a: Effect, b: Effect, c: Effect, rest: seq<Effect>)
    ensures [a] + ([b] + ([c] + rest)) == [a, b, c] + rest
  {
  }

  lemma RunScriptAllowed(world: World, config: Option<Config>, planId: string, succeeds: bool)
    requires Inv(world) && IsBusiness(world.store, planId) && InPhase(world.store[planId], Cleared)
    ensures AllAllowed(world, RunScript(config, world.store[planId], succeeds).effects)
    ensures RunScript(config, world.store[planId], succeeds).reply != IllegalTransition
  {
    assert Tidy(world, planId);
    var running, finished := RunScriptIs(config, world.store[planId], succeeds);
    StartAllowed(world, config, running, finished, succeeds);
    ThreeFirst(Save(running), RunAction(planId), Save(finished), Report(config, finished, succeeds));
  }

  lemma RejectionReportAllowed(world: World, config: Option<Config>, plan: Plan)
    requires Inv(world) && IsBusiness(world.store, plan.planId) && world.store[plan.planId] == plan
    requires PhaseOf(plan) == Refused && Times(world.log, Events, plan.planId) == 0
    ensures AllAllowed(world, Lessons(config, plan.planId) + [TaskEventOf(plan)])
  {
    var event, lesson := TaskEventOf(plan), Learn(plan.planId);
    if Lessons(config, plan.planId) == [lesson] {
      CountLast(world.log, lesson, Events, plan.planId);
      AllowedFirst(Apply(world, lesson), event, []);
      AllowedFirst(world, lesson, [event]);
    } else {
      AllowedFirst(world, event, []);
      assert [] + [event] == [event];
    }
  }

  lemma DecideScriptAllowed(world: World, config: Option<Config>, planId: string, verdict: Verdict)
    requires Inv(world) && ValidId(planId) && IsBusiness(world.store, planId) && InPhase(world.store[planId], Open)
    requires verdict != OtherVerdict
    ensures AllAllowed(world, DecideScript(config, world.store, planId, verdict).effects)
    ensures DecideScript(config, world.store, planId, verdict).reply != IllegalTransition
  {
    assert Tidy(world, planId);
    var plan := DecideScriptIs(config, world.store, planId, verdict);
    var decided := Apply(world, Save(plan));
    ApplyKeepsInv(world, Save(plan));
    CountLast(world.log, Save(plan), Events, planId);
    var lessons := Lessons(config, planId);
    if verdict.Reject? && config.Some? {
      RejectionReportAllowed(decided, config, plan);
      AllowedFirst(world, Save(plan), lessons + [TaskEventOf(plan)]);
      assert [Save(plan)] + (lessons + [TaskEventOf(plan)]) == [Save(plan)] + lessons + [TaskEventOf(plan)];
    } else {
      LessonsAllowed(decided, config, planId);
      AllowedFirst(world, Save(plan), lessons);
      assert [Save(plan)] + lessons + [] == [Save(plan)] + lessons;
    }
  }

  lemma CreateAllowed(world: World, planId: string, action: ActionKind)
    requires Inv(world)
    ensures AllAllowed(world, CreateScript(world.store, planId, action).effects)
  {
    if ValidId(planId) && planId !in world.store {
      AllowedFirst(world, Save(NewPlan(planId, action)), []);
    }
  }

  lemma DecideAllowed(world: World, config: Option<Config>, planId: string, verdict: Verdict)
    requires Inv(world)
    ensures AllAllowed(world, DecideScript(config, world.store, planId, verdict).effects)
    ensures DecideScript(config, world.store, planId, verdict).reply != IllegalTransition
  {
    assert Tidy(world, planId);
    if verdict != OtherVerdict && ValidId(planId) && IsBusiness(world.store, planId)
      && PhaseOf(world.store[planId]) == Open {
      DecideScriptAllowed(world, config, planId, verdict);
    }
  }

  /** An `execute` call either does nothing or runs a cleared plan. */
  lemma ExecuteEither(config: Option<Config>, store: Store, planId: string, withExecutor: bool, succeeds: bool)
    ensures var script := ExecuteScript(config, store, planId, withExecutor, succeeds);
            || (script.effects == [] && script.reply != IllegalTransition)
            || (&& IsBusiness(store, planId) && PhaseOf(store[planId]) == Cleared
                && script == RunScript(config, store[planId], succeeds))
  {
  }

  lemma ExecuteAllowed(world: World, config: Option<Config>, planId: string, withExecutor: bool, succeeds: bool)
    requires Inv(world)
    ensures AllAllowed(world, ExecuteScript(config, world.store, planId, withExecutor, succeeds).effects)
    ensures ExecuteScript(config, world.store, planId, withExecutor, succeeds).reply != IllegalTransition
  {
    assert Tidy(world, planId);
    ExecuteEither(config, world.store, planId, withExecutor, succeeds);
    if IsBusiness(world.store, planId) && PhaseOf(world.store[planId]) == Cleared {
      RunScriptAllowed(world, config, planId, succeeds);
    }
  }

  /** On a reachable store the engine never refuses a transition, and all a call does is allowed. */
  lemma ScriptAllowed(world: World, config: Option<Config>, call: Call)
    requires Inv(world)
    ensures AllAllowed(world, ScriptOf(config, world.store, call).effects)
    ensures ScriptOf(config, world.store, call).reply != IllegalTransition
  {
    match call
    case Create(planId, action) => CreateAllowed(world, planId, action);
    case Decide(planId, verdict) => DecideAllowed(world, config, planId, verdict);
    case Execute(planId, withExecutor, succeeds) => ExecuteAllowed(world, config, planId, withExecutor, succeeds);
  }

  // ----- Runs of the service -----

  /** One call of some process, which dies once `budget` effects have happened. */
  datatype Attempt = Attempt(config: Option<Config>, call: Call, budget: nat)

  function Attempted(world: World, attempt: Attempt): World {
    Perform(world, ScriptOf(attempt.config, world.store, attempt.call).effects, attempt.budget)
  }

  function After(world: World, attempts: seq<Attempt>): World {
    if attempts == [] then world
    else Attempted(After(world, attempts[..|attempts| - 1]), attempts[|attempts| - 1])
  }

  /** A store that holds no business plans yet, and nothing done. */
  predicate Initial(world: World) {
    world.log == [] && forall planId :: planId in world.store ==> world.store[planId].metadata.NotBusiness?
  }

  /** Whatever is called, with whatever configuration, and wherever each call is cut short. */
  lemma {:induction false} InvAlways(world: World, attempts: seq<Attempt>)
    requires Initial(world)
    ensures Inv(After(world, attempts))
  {
    if attempts == [] {
      forall planId
        ensures Tidy(world, planId)
      {
      }
    } else {
      InvAlways(world, attempts[..|attempts| - 1]);
      var before, last := After(world, attempts[..|attempts| - 1]), attempts[|attempts| - 1];
      ScriptAllowed(before, last.config, last.call);
      PerformKeepsInv(before, ScriptOf(last.config, before.store, last.call).effects, last.budget);
    }
  }

  /** Every stored business plan is in one of six coherent states. */
  lemma AlwaysCoherent(world: World, attempts: seq<Attempt>, planId: string)
    requires Initial(world) && IsBusiness(After(world, attempts).store, planId)
    ensures var plan := After(world, attempts).store[planId];
            plan.planId == planId && InPhase(plan, PhaseOf(plan))
  {
    InvAlways(world, attempts);
    assert Tidy(After(world, attempts), planId);
  }

  /** An action runs at most once, and before it ran the plan had been stored as approved. */
  lemma AtMostOnce(world: World, attempts: seq<Attempt>, planId: string)
    requires Initial(world)
    ensures Times(After(world, attempts).log, Runs, planId) <= 1
    ensures RunsWereApproved(After(world, attempts).log)
  {
    InvAlways(world, attempts);
    assert Tidy(After(world, attempts), planId);
  }

  /** A plan emits at most one task event and at most one evidence record. Evidence means the action
      ran; an event means rejection, without a run, or a run with its evidence. */
  lemma ReportedAtMostOnce(world: World, attempts: seq<Attempt>, planId: string)
    requires Initial(world)
    ensures var log := After(world, attempts).log;
            var runs, evidence, events := Times(log, Runs, planId), Times(log, Evidence, planId),
                Times(log, Events, planId);
            && events <= 1 && evidence <= runs
            && (events == 1 ==> && IsBusiness(After(world, attempts).store, planId)
                                && if PhaseOf(After(world, attempts).store[planId]) == Refused
                                  then runs == evidence == 0
                                   else runs == evidence == 1)
  {
    InvAlways(world, attempts);
    assert Tidy(After(world, attempts), planId);
  }

  /** Evidence and task events are true: they show the decision and the outcome the plan is stored with, then and
      ever after. */
  lemma ReportsAreTrue(world: World, attempts: seq<Attempt>, p: nat)
    requires Initial(world) && p < |After(world, attempts).log|
    ensures Told(After(world, attempts).store, After(world, attempts).log[p])
  {
    InvAlways(world, attempts);
  }

  /** No call on a reachable store is refused by the engine. */
  lemma NeverIllegal(world: World, attempts: seq<Attempt>, config: Option<Config>, call: Call, budget: nat)
    requires Initial(world)
    ensures ReplyTo(ScriptOf(config, After(world, attempts).store, call), budget) != IllegalTransition
  {
    InvAlways(world, attempts);
    ScriptAllowed(After(world, attempts), config, call);
  }

  // ----- Plans only move forward -----

  /** How far along a phase is. */
  function Rank(phase: Phase): nat {
    match phase
    case Open => 0
    case Refused => 1
    case Cleared => 1
    case Underway => 2
    case Succeeded => 3
    case Unsuccessful => 3
  }

  /** A recorded decision never changes, a finished execution never reopens, and an action is never swapped. */
  ghost predicate Forward(before: Plan, after: Plan) {
    match before.metadata
    case NotBusiness => true
    case Business(decision, execution, action) =>
      && after.metadata.Business? && after.planId == before.planId && after.metadata.action == action
      && (decision != Undecided ==> after.metadata.decision == decision)
      && (decision == Rejected || execution in {Completed, ExecutionFailed} ==> after == before)
      && Rank(PhaseOf(before)) <= Rank(PhaseOf(after))
  }

  ghost predicate StoreForward(before: Store, after: Store) {
    forall planId :: planId in before ==>
      && planId in after && Forward(before[planId], after[planId])
      && (before[planId].metadata.NotBusiness? ==> after[planId] == before[planId])
  }

  lemma ApplyMovesForward(world: World, effect: Effect)
    requires Inv(world) && Allowed(world, effect)
    ensures StoreForward(world.store, Apply(world, effect).store)
  {
    forall planId | planId in world.store
      ensures Forward(world.store[planId], Apply(world, effect).store[planId])
      ensures world.store[planId].metadata.NotBusiness? ==> Apply(world, effect).store[planId] == world.store[planId]
    {
      assert Tidy(world, planId);
    }
  }

  lemma ForwardTransitive(a: Store, b: Store, c: Store)
    requires StoreForward(a, b) && StoreForward(b, c)
    ensures StoreForward(a, c)
  {
  }

  lemma {:induction false} PerformMovesForward(world: World, effects: seq<Effect>, budget: nat)
    requires Inv(world) && AllAllowed(world, effects)
    ensures StoreForward(world.store, Perform(world, effects, budget).store)
    decreases |effects|
  {
    if effects != [] && budget > 0 {
      var next := Apply(world, effects[0]);
      ApplyKeepsInv(world, effects[0]);
      ApplyMovesForward(world, effects[0]);
      PerformMovesForward(next, effects[1..], budget - 1);
      ForwardTransitive(world.store, next.store, Perform(next, effects[1..], budget - 1).store);
    }
  }

  lemma AttemptMovesForward(world: World, attempt: Attempt)
    requires Inv(world)
    ensures Inv(Attempted(world, attempt)) && StoreForward(world.store, Attempted(world, attempt).store)
  {
    var effects := ScriptOf(attempt.config, world.store, attempt.call).effects;
    ScriptAllowed(world, attempt.config, attempt.call);
    PerformKeepsInv(world, effects, attempt.budget);
    PerformMovesForward(world, effects, attempt.budget);
  }

  /** From any point of a run to any later one. */
  lemma {:induction false} AlwaysForward(world: World, attempts: seq<Attempt>, more: seq<Attempt>)
    requires Initial(world)
    ensures StoreForward(After(world, attempts).store, After(world, attempts + more).store)
  {
    if more == [] {
      assert attempts + more == attempts;
    } else {
      var init := more[..|more| - 1];
      AlwaysForward(world, attempts, init);
      InvAlways(world, attempts + init);
      AttemptMovesForward(After(world, attempts + init), more[|more| - 1]);
      AfterMore(world, attempts, more);
      ForwardTransitive(After(world, attempts).store, After(world, attempts + init).store,
                        After(world, attempts + more).store);
    }
  }

  // ----- Calls on other plans, and on plans that are settled -----

  function Subject(effect: Effect): string {
    if effect.Save? then effect.plan.planId else effect.planId
  }

  ghost predicate About(effects: seq<Effect>, planId: string) {
    forall i :: 0 <= i < |effects| ==> Subject(effects[i]) == planId
  }

  /** The stored plan and all that was done for it are the same. */
  ghost predicate Untouched(before: World, after: World, planId: string) {
    match before
    case World(store, log) =>
      && (planId in store <==> planId in after.store)
      && (planId in store && planId in after.store ==> after.store[planId] == store[planId])
      && Times(after.log, Runs, planId) == Times(log, Runs, planId)
      && Times(after.log, Evidence, planId) == Times(log, Evidence, planId)
      && Times(after.log, Events, planId) == Times(log, Events, planId)
  }

  lemma CountOfOther(log: seq<Effect>, effect: Effect, tag: Tag, planId: string)
    requires Subject(effect) != planId
    ensures Times(log + [effect], tag, planId) == Times(log, tag, planId)
  {
    CountLast(log, effect, tag, planId);
  }

  lemma ApplyTouchesSubject(world: World, effect: Effect, planId: string)
    requires Subject(effect) != planId
    ensures Untouched(world, Apply(world, effect), planId)
  {
    CountOfOther(world.log, effect, Runs, planId);
    CountOfOther(world.log, effect, Evidence, planId);
    CountOfOther(world.log, effect, Events, planId);
  }

  lemma {:induction false} PerformTouchesSubject(world: World, effects: seq<Effect>, budget: nat, subject: string,
                                                 planId: string)
    requires About(effects, subject) && subject != planId
    ensures Untouched(world, Perform(world, effects, budget), planId)
    decreases |effects|
  {
    if effects != [] && budget > 0 {
      ApplyTouchesSubject(world, effects[0], planId);
      assert forall i :: 0 <= i < |effects| - 1 ==> effects[1..][i] == effects[i + 1];
      PerformTouchesSubject(Apply(world, effects[0]), effects[1..], budget - 1, subject, planId);
    }
  }

  lemma RunEffectsAbout(config: Option<Config>, running: Plan, finished: Plan, succeeds: bool)
    requires running.planId == finished.planId && finished.metadata.Business?
    ensures About([Save(running), RunAction(finished.planId), Save(finished)] + Report(config, finished, succeeds),
                  finished.planId)
  {
  }

  lemma RunScriptAbout(config: Option<Config>, plan: Plan, succeeds: bool)
    requires InPhase(plan, Cleared)
    ensures About(RunScript(config, plan, succeeds).effects, plan.planId)
  {
    var running, finished := RunScriptIs(config, plan, succeeds);
    RunEffectsAbout(config, running, finished, succeeds);
  }

  lemma DecideScriptAbout(config: Option<Config>, store: Store, planId: string, verdict: Verdict)
    requires IsBusiness(store, planId) && store[planId].planId == planId
             && InPhase(store[planId], PhaseOf(store[planId]))
    ensures About(DecideScript(config, store, planId, verdict).effects, planId)
  {
    if ValidId(planId) && verdict != OtherVerdict && PhaseOf(store[planId]) == Open {
      var _ := DecideScriptIs(config, store, planId, verdict);
    }
  }

  lemma ScriptAbout(world: World, config: Option<Config>, call: Call)
    requires Inv(world)
    ensures About(ScriptOf(config, world.store, call).effects, call.planId)
  {
    assert Tidy(world, call.planId);
    match call
    case Create(planId, action) =>
    case Decide(planId, verdict) =>
      if IsBusiness(world.store, planId) {
        DecideScriptAbout(config, world.store, planId, verdict);
      }
    case Execute(planId, withExecutor, succeeds) =>
      ExecuteEither(config, world.store, planId, withExecutor, succeeds);
      if IsBusiness(world.store, planId) && PhaseOf(world.store[planId]) == Cleared {
        RunScriptAbout(config, world.store[planId], succeeds);
      }
  }

  /** Refused, interrupted while running, or finished. */
  predicate Settled(store: Store, planId: string) {
    IsBusiness(store, planId) && PhaseOf(store[planId]) !in {Open, Cleared}
  }

  lemma SettledScript(config: Option<Config>, store: Store, call: Call)
    requires Settled(store, call.planId)
    ensures ScriptOf(config, store, call).effects == []
  {
  }

  lemma UntouchedTransitive(a: World, b: World, c: World, planId: string)
    requires Untouched(a, b, planId) && Untouched(b, c, planId)
    ensures Untouched(a, c, planId)
  {
  }

  lemma AttemptLeavesSettled(world: World, attempt: Attempt, planId: string)
    requires Inv(world) && Settled(world.store, planId)
    ensures Untouched(world, Attempted(world, attempt), planId)
  {
    if attempt.call.planId == planId {
      SettledScript(attempt.config, world.store, attempt.call);
    } else {
      ScriptAbout(world, attempt.config, attempt.call);
      PerformTouchesSubject(world, ScriptOf(attempt.config, world.store, attempt.call).effects, attempt.budget,
                            attempt.call.planId, planId);
    }
  }

  lemma AfterLast(world: World, attempts: seq<Attempt>, last: Attempt)
    ensures After(world, attempts + [last]) == Attempted(After(world, attempts), last)
  {
    assert (attempts + [last])[..|attempts|] == attempts;
  }

  lemma AfterMore(world: World, attempts: seq<Attempt>, more: seq<Attempt>)
    requires more != []
    ensures After(world, attempts + more) == Attempted(After(world, attempts + more[..|more| - 1]), more[|more| - 1])
  {
    var init, last := more[..|more| - 1], more[|more| - 1];
    assert attempts + more == (attempts + init) + [last];
    AfterLast(world, attempts + init, last);
  }

  /** Once a plan is settled no later call does anything for it. A run cut short is never taken up
      again, and a report cut short is never made up for. */
  lemma {:induction false} SettledForever(world: World, attempts: seq<Attempt>, more: seq<Attempt>, planId: string)
    requires Initial(world) && Settled(After(world, attempts).store, planId)
    ensures Untouched(After(world, attempts), After(world, attempts + more), planId)
  {
    if more == [] {
      assert attempts + more == attempts;
    } else {
      var before := attempts + more[..|more| - 1];
      SettledForever(world, attempts, more[..|more| - 1], planId);
      InvAlways(world, before);
      AttemptLeavesSettled(After(world, before), more[|more| - 1], planId);
      AfterMore(world, attempts, more);
      UntouchedTransitive(After(world, attempts), After(world, before), After(world, attempts + more), planId);
    }
  }

  // ----- Which calls report -----

  lemma {:induction false} CountPerformed(world: World, effects: seq<Effect>, budget: nat, tag: Tag, planId: string,
                                          p: int)
    requires forall i :: 0 <= i < |effects| ==> (Bears(effects[i], tag, planId) <==> i == p)
    ensures Times(Perform(world, effects, budget).log, tag, planId)
         == Times(world.log, tag, planId) + if 0 <= p < |effects| && p < budget then 1 else 0
    decreases |effects|
  {
    if effects != [] && budget > 0 {
      CountLast(world.log, effects[0], tag, planId);
      assert forall i :: 0 <= i < |effects| - 1 ==> effects[1..][i] == effects[i + 1];
      CountPerformed(Apply(world, effects[0]), effects[1..], budget - 1, tag, planId, p - 1);
    }
  }

  lemma RunEffectAt(config: Option<Config>, running: Plan, finished: Plan, succeeds: bool, i: nat)
    requires finished.metadata.Business?
    ensures var effects := [Save(running), RunAction(finished.planId), Save(finished)]
            + Report(config, finished, succeeds);
            && (config.Some? ==> |effects| >= 5)
            && |effects| >= 3
            && (i < |effects| ==>
                 && (Bears(effects[i], Runs, finished.planId) <==> i == 1)
                 && (Bears(effects[i], Evidence, finished.planId) <==> i == if config.Some? then 3 else -1)
                 && (Bears(effects[i], Events, finished.planId) <==> i == if config.Some? then 4 else -1))
  {
  }

  /** Where in a run an effect of this kind stands, if it is there at all. */
  function PlaceOf(tag: Tag, config: Option<Config>): int {
    match tag
    case Runs => 1
    case Evidence => if config.Some? then 3 else -1
    case Events => if config.Some? then 4 else -1
  }

  lemma TagPerformed(world: World, config: Option<Config>, running: Plan, finished: Plan, succeeds: bool, budget: nat,
                     tag: Tag)
    requires finished.metadata.Business?
    ensures var effects := [Save(running), RunAction(finished.planId), Save(finished)]
            + Report(config, finished, succeeds);
            Times(Perform(world, effects, budget).log, tag, finished.planId)
            == Times(world.log, tag, finished.planId) + if 0 <= PlaceOf(tag, config) < budget then 1 else 0
  {
    var effects := [Save(running), RunAction(finished.planId), Save(finished)] + Report(config, finished, succeeds);
    forall i | 0 <= i < |effects|
      ensures Bears(effects[i], tag, finished.planId) <==> i == PlaceOf(tag, config)
    {
      RunEffectAt(config, running, finished, succeeds, i);
    }
    RunEffectAt(config, running, finished, succeeds, 0);
    CountPerformed(world, effects, budget, tag, finished.planId, PlaceOf(tag, config));
  }

  lemma TagReportedExactlyWhen(world: World, config: Option<Config>, planId: string, succeeds: bool, budget: nat,
                               tag: Tag)
    requires Inv(world) && IsBusiness(world.store, planId) && InPhase(world.store[planId], Cleared)
    ensures var log := Perform(world, RunScript(config, world.store[planId], succeeds).effects, budget).log;
            Times(log, tag, planId) == 1 <==> 0 <= PlaceOf(tag, config) < budget
  {
    assert Tidy(world, planId);
    var plan := world.store[planId];
    var running, finished := RunScriptIs(config, plan, succeeds);
    TagPerformed(world, config, running, finished, succeeds, budget, tag);
  }

  /** The call that runs an action marks the plan as running, runs it, stores the outcome, and then
      reports it: the run needs two effects, evidence four and the task event five, the last two
      only with a configuration. */
  lemma RunReportedExactlyWhen(world: World, config: Option<Config>, planId: string, succeeds: bool, budget: nat)
    requires Inv(world) && IsBusiness(world.store, planId) && InPhase(world.store[planId], Cleared)
    ensures var log := Perform(world, RunScript(config, world.store[planId], succeeds).effects, budget).log;
            && (Times(log, Runs, planId) == 1 <==> budget >= 2)
            && (Times(log, Evidence, planId) == 1 <==> config.Some? && budget >= 4)
            && (Times(log, Events, planId) == 1 <==> config.Some? && budget >= 5)
  {
    TagReportedExactlyWhen(world, config, planId, succeeds, budget, Runs);
    TagReportedExactlyWhen(world, config, planId, succeeds, budget, Evidence);
    TagReportedExactlyWhen(world, config, planId, succeeds, budget, Events);
  }

  lemma {:induction false} PerformSavesFirst(world: World, plan: Plan, rest: seq<Effect>, budget: nat)
    requires budget > 0 && Inv(world) && AllAllowed(world, [Save(plan)] + rest)
    requires Settled(Apply(world, Save(plan)).store, plan.planId)
    ensures Settled(Perform(world, [Save(plan)] + rest, budget).store, plan.planId)
  {
    assert ([Save(plan)] + rest)[1..] == rest;
    var saved := Apply(world, Save(plan));
    ApplyKeepsInv(world, Save(plan));
    PerformMovesForward(saved, rest, budget - 1);
    PerformKeepsInv(saved, rest, budget - 1);
    assert Forward(saved.store[plan.planId], Perform(saved, rest, budget - 1).store[plan.planId]);
  }

  lemma RunScriptSettles(world: World, config: Option<Config>, planId: string, succeeds: bool, budget: nat)
    requires Inv(world) && IsBusiness(world.store, planId) && InPhase(world.store[planId], Cleared) && budget > 0
    ensures Settled(Perform(world, RunScript(config, world.store[planId], succeeds).effects, budget).store, planId)
  {
    assert Tidy(world, planId);
    var running, finished := RunScriptIs(config, world.store[planId], succeeds);
    var rest := [RunAction(planId)] + ([Save(finished)] + Report(config, finished, succeeds));
    ThreeFirst(Save(running), RunAction(planId), Save(finished), Report(config, finished, succeeds));
    StartAllowed(world, config, running, finished, succeeds);
    PerformSavesFirst(world, running, rest, budget);
  }

  /** `execute` gets as far as running the action. */
  predicate Starts(config: Option<Config>, store: Store, planId: string, withExecutor: bool) {
    && ValidId(planId) && IsBusiness(store, planId) && PhaseOf(store[planId]) == Cleared
    && store[planId].metadata.action != OtherAction && (config.Some? || withExecutor)
  }

  lemma StartsRun(config: Option<Config>, store: Store, planId: string, withExecutor: bool, succeeds: bool)
    requires Starts(config, store, planId, withExecutor)
    ensures ExecuteScript(config, store, planId, withExecutor, succeeds) == RunScript(config, store[planId], succeeds)
  {
  }

  lemma AttemptReports(world: World, attempt: Attempt)
    requires Inv(world) && attempt.call.Execute? && attempt.budget > 0
    requires Starts(attempt.config, world.store, attempt.call.planId, attempt.call.withExecutor)
    ensures var after := Attempted(world, attempt);
            && Settled(after.store, attempt.call.planId)
            && (Times(after.log, Runs, attempt.call.planId) == 1 <==> attempt.budget >= 2)
            && (Times(after.log, Evidence, attempt.call.planId) == 1 <==> attempt.config.Some? && attempt.budget >= 4)
            && (Times(after.log, Events, attempt.call.planId) == 1 <==> attempt.config.Some? && attempt.budget >= 5)
  {
    var planId := attempt.call.planId;
    assert Tidy(world, planId);
    StartsRun(attempt.config, world.store, planId, attempt.call.withExecutor, attempt.call.succeeds);
    RunReportedExactlyWhen(world, attempt.config, planId, attempt.call.succeeds, attempt.budget);
    RunScriptSettles(world, attempt.config, planId, attempt.call.succeeds, attempt.budget);
  }

  /** The documentation promises a task event for every attempted execution. A plan whose execution
      was started by a call gets its event, then or at any later time, exactly when that call had a
      configuration and was not cut short before its fifth effect. */
  lemma ExecutionReportedExactlyWhen(world: World, attempts: seq<Attempt>, attempt: Attempt, more: seq<Attempt>)
    requires Initial(world) && attempt.call.Execute? && attempt.budget > 0
    requires Starts(attempt.config, After(world, attempts).store, attempt.call.planId, attempt.call.withExecutor)
    ensures var log := After(world, attempts + [attempt] + more).log;
            && (Times(log, Runs, attempt.call.planId) == 1 <==> attempt.budget >= 2)
            && (Times(log, Evidence, attempt.call.planId) == 1 <==> attempt.config.Some? && attempt.budget >= 4)
            && (Times(log, Events, attempt.call.planId) == 1 <==> attempt.config.Some? && attempt.budget >= 5)
  {
    InvAlways(world, attempts);
    AfterMore(world, attempts, [attempt]);
    assert attempts + [] == attempts;
    AttemptReports(After(world, attempts), attempt);
    SettledForever(world, attempts + [attempt], more, attempt.call.planId);
  }

  lemma RejectionReports(world: World, config: Option<Config>, planId: string, budget: nat)
    requires Inv(world) && ValidId(planId) && IsBusiness(world.store, planId) && InPhase(world.store[planId], Open)
    ensures var log := Perform(world, DecideScript(config, world.store, planId, Reject).effects, budget).log;
            Times(log, Events, planId) == 1 <==> config.Some? && budget >= if config.value.learning then 3 else 2
  {
    assert Tidy(world, planId);
    var plan := DecideScriptIs(config, world.store, planId, Reject);
    var effects := DecideScript(config, world.store, planId, Reject).effects;
    var p := if config.None? then -1 else if config.value.learning then 2 else 1;
    assert effects[0] == Save(plan);
    CountPerformed(world, effects, budget, Events, planId, p);
  }

  lemma RejectionSettles(world: World, config: Option<Config>, planId: string, budget: nat)
    requires Inv(world) && ValidId(planId) && IsBusiness(world.store, planId) && InPhase(world.store[planId], Open)
    requires budget > 0
    ensures Settled(Perform(world, DecideScript(config, world.store, planId, Reject).effects, budget).store, planId)
  {
    assert Tidy(world, planId);
    DecideScriptAllowed(world, config, planId, Reject);
    var plan := DecideScriptIs(config, world.store, planId, Reject);
    var effects := DecideScript(config, world.store, planId, Reject).effects;
    assert effects == [Save(plan)] + effects[1..];
    PerformSavesFirst(world, plan, effects[1..], budget);
  }

  /** A rejected plan gets its event, then or at any later time, exactly when the rejecting call had a
      configuration and got past the lesson, if there was one. */
  lemma RejectionReportedExactlyWhen(world: World, attempts: seq<Attempt>, attempt: Attempt, more: seq<Attempt>)
    requires Initial(world) && attempt.call.Decide? && attempt.call.verdict == Reject && attempt.budget > 0
    requires ValidId(attempt.call.planId) && IsBusiness(After(world, attempts).store, attempt.call.planId)
    requires PhaseOf(After(world, attempts).store[attempt.call.planId]) == Open
    ensures var log := After(world, attempts + [attempt] + more).log;
            Times(log, Events, attempt.call.planId) == 1 <==>
              attempt.config.Some? && attempt.budget >= if attempt.config.value.learning then 3 else 2
  {
    var before, planId := After(world, attempts), attempt.call.planId;
    InvAlways(world, attempts);
    assert Tidy(before, planId);
    AfterMore(world, attempts, [attempt]);
    assert attempts + [] == attempts;
    RejectionReports(before, attempt.config, planId, attempt.budget);
    RejectionSettles(before, attempt.config, planId, attempt.budget);
    SettledForever(world, attempts + [attempt], more, planId);
  }

  // ----- The service itself -----

  /** Processes that come and go, each handling one call on the store the last one left behind. */
  method Serve(world: World, attempts: seq<Attempt>) returns (result: World, replies: seq<Reply>)
    ensures result == After(world, attempts)
    ensures |replies| == |attempts|
    ensures Initial(world) ==> IllegalTransition !in replies
  {
    result, replies := world, [];
    for a := 0 to |attempts|
      invariant result == After(world, attempts[..a])
      invariant |replies| == a
      invariant Initial(world) ==> IllegalTransition !in replies
    {
      var attempt := attempts[a];
      assert attempts[..a + 1][..a] == attempts[..a];
      if Initial(world) {
        NeverIllegal(world, attempts[..a], attempt.config, attempt.call, attempt.budget);
      }
      var service := new DecisionService(attempt.config, result, attempt.budget);
      var reply := service.Handle(attempt.call);
      result, replies := service.Value(), replies + [reply];
    }
    assert attempts[..|attempts|] == attempts;
  }
}
