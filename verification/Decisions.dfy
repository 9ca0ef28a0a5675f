/** Business decisions over stored plans: created, decided by a human, executed once approved. */
module Decisions {
  import opened Messages
  import opened PlanEngine

  // ----- Stored plans -----

  type Store = map<string, Plan>

  function StepsWith(approve: StepStatus, execute: StepStatus): seq<Step> {
    [Step(ApproveOption, approve, [], 1), Step(ExecuteAction, execute, [ApproveOption], 1)]
  }

  /** The plan `create` stores. */
  function NewPlan(planId: string, action: ActionKind): Plan {
    Plan(planId, PlanRunning, StepsWith(Verifying, Pending), Business(Undecided, NotExecuted, action))
  }

  /** `PlanStore.path` accepts the id. */
  predicate ValidId(planId: string) {
    planId != "" && '/' !in planId && '\\' !in planId && planId != "." && planId != ".."
  }

  // ----- Effects -----

  /** What the world gets to see. A task event shows the plan as it was when it was emitted. */
  datatype Effect =
    | Save(plan: Plan)
    | RunAction(planId: string)
    | SaveEvidence(planId: string, success: bool)
    | EmitTaskEvent(planId: string, decision: Decision, execution: Execution)
    | Learn(planId: string)

  /** The store, which survives crashes, and everything that was done. */
  datatype World = World(store: Store, log: seq<Effect>)

  function Apply(world: World, effect: Effect): World {
    World(if effect.Save? then world.store[effect.plan.planId := effect.plan] else world.store, world.log + [effect])
  }

  /** The first `budget` effects happen; a crash prevents the others. */
  function Perform(world: World, effects: seq<Effect>, budget: nat): World
    decreases |effects|
  {
    if effects == [] || budget == 0 then world else Perform(Apply(world, effects[0]), effects[1..], budget - 1)
  }

  // ----- Calls -----

  datatype Config = Config(learning: bool)

  datatype Verdict = Approve | Reject | OtherVerdict

  datatype Call =
    | Create(planId: string, action: ActionKind)
    | Decide(planId: string, verdict: Verdict)
    | Execute(planId: string, withExecutor: bool, succeeds: bool)

  datatype Reply =
    | Returned(plan: Plan)
    | Decided(plan: Plan, decision: Decision, changed: bool)
    | InvalidId
    | NotFound
    | InvalidDecision
    | Conflict
    | InvalidAction
    | ConfigRequired
    | IllegalTransition
    | Crashed

  /** All a call does if it is not interrupted. */
  datatype Script = Script(effects: seq<Effect>, reply: Reply)

  function Lessons(config: Option<Config>, planId: string): seq<Effect> {
    if config.Some? && config.value.learning then [Learn(planId)] else []
  }

  /** `_emit_task_event` */
  function TaskEventOf(plan: Plan): Effect
    requires plan.metadata.Business?
  {
    EmitTaskEvent(plan.planId, plan.metadata.decision, plan.metadata.execution)
  }

  function Moved(plan: Plan, id: StepId, to: StepStatus): Option<Plan> {
    match Transitioned(plan.status, plan.steps, Request(id, to, Plain))
    case Some((status, steps)) => Some(plan.(status := status, steps := steps))
    case None => None
  }

  function CreateScript(store: Store, planId: string, action: ActionKind): Script {
    if !ValidId(planId) then Script([], InvalidId)
    else if planId in store then Script([], Returned(store[planId]))
    else Script([Save(NewPlan(planId, action))], Returned(NewPlan(planId, action)))
  }

  function DecideScript(config: Option<Config>, store: Store, planId: string, verdict: Verdict): Script {
    if verdict.OtherVerdict? then Script([], InvalidDecision)
    else if !ValidId(planId) then Script([], InvalidId)
    else if planId !in store || store[planId].metadata.NotBusiness? then Script([], NotFound)
    else
      var plan := store[planId];
      var desired := if verdict.Approve? then Approved else Rejected;
      if plan.metadata.decision == desired then Script([], Decided(plan, desired, false))
      else if plan.metadata.decision != Undecided then Script([], Conflict)
      else
        match Moved(plan, ApproveOption, if verdict.Approve? then Verified else Failed)
        case None => Script([], IllegalTransition)
        case Some(moved) =>
          var decided := moved.(metadata := moved.metadata.(decision := desired),
                                status := if verdict.Reject? then PlanFailed else moved.status);
          Script([Save(decided)] + Lessons(config, plan.planId)
                 + (if verdict.Reject? && config.Some? then [TaskEventOf(decided)] else []),
                 Decided(decided, desired, true))
  }

  /** Where the action leaves a running plan. */
  function Outcome(running: Plan, succeeds: bool): Option<Plan>
    requires running.metadata.Business?
  {
    if succeeds then
      match Moved(running, ExecuteAction, Done)
      case None => None
      case Some(done) =>
        match Moved(done, ExecuteAction, Verifying)
        case None => None
        case Some(verifying) =>
          match Moved(verifying, ExecuteAction, Verified)
          case None => None
          case Some(verified) =>
            Some(verified.(status := PlanCompleted, metadata := running.metadata.(execution := Completed)))
    else
      match Moved(running, ExecuteAction, Failed)
      case None => None
      case Some(failed) =>
        Some(failed.(status := PlanFailed, metadata := running.metadata.(execution := ExecutionFailed)))
  }

  function Report(config: Option<Config>, finished: Plan, succeeds: bool): seq<Effect>
    requires finished.metadata.Business?
  {
    (if config.Some? then [SaveEvidence(finished.planId, succeeds), TaskEventOf(finished)] else [])
      + Lessons(config, finished.planId)
  }

  /** An approved plan whose action has not been run is marked as running, then run, then recorded. */
  function RunScript(config: Option<Config>, plan: Plan, succeeds: bool): Script
    requires plan.metadata.Business?
  {
    match Moved(plan, ExecuteAction, Running)
    case None => Script([], IllegalTransition)
    case Some(moved) =>
      var running := moved.(metadata := moved.metadata.(execution := Executing));
      match Outcome(running, succeeds)
      case None => Script([Save(running), RunAction(plan.planId)], IllegalTransition)
      case Some(finished) =>
        Script([Save(running), RunAction(plan.planId), Save(finished)] + Report(config, finished, succeeds),
               Returned(finished))
  }

  function ExecuteScript(config: Option<Config>, store: Store, planId: string, withExecutor: bool,
                         succeeds: bool): Script {
    if !ValidId(planId) then Script([], InvalidId)
    else if planId !in store || store[planId].metadata.NotBusiness? then Script([], NotFound)
    else
      var plan := store[planId];
      if plan.metadata.decision != Approved then Script([], Conflict)
      else if plan.metadata.execution == Completed then Script([], Returned(plan))
      else if plan.metadata.execution != NotExecuted then Script([], Conflict)
      else if plan.metadata.action == OtherAction then Script([], InvalidAction)
      else if config.None? && !withExecutor then Script([], ConfigRequired)
      else RunScript(config, plan, succeeds)
  }

  function ScriptOf(config: Option<Config>, store: Store, call: Call): Script {
    match call
    case Create(planId, action) => CreateScript(store, planId, action)
    case Decide(planId, verdict) => DecideScript(config, store, planId, verdict)
    case Execute(planId, withExecutor, succeeds) => ExecuteScript(config, store, planId, withExecutor, succeeds)
  }

  function ReplyTo(script: Script, budget: nat): Reply {
    if budget < |script.effects| then Crashed else script.reply
  }

  // ----- The service -----

  /** A service with the world it acts on. `budget` is how many more effects happen before the process dies. */
  class DecisionService {
    const config: Option<Config>
    var store: Store
    var log: seq<Effect>
    var budget: nat

    constructor (config: Option<Config>, world: World, budget: nat)
      ensures this.config == config && Value() == world && this.budget == budget
    {
      this.config, store, log, this.budget := config, world.store, world.log, budget;
    }

    function Value(): World
      reads this
    {
      World(store, log)
    }

    /** Does the next thing there is to do, unless the process is dead. */
    method Do(effect: Effect, ghost todo: seq<Effect>) returns (alive: bool)
      requires todo != [] && effect == todo[0]
      modifies this`store, this`log, this`budget
      ensures alive <==> old(budget) > 0
      ensures alive ==> Value() == Apply(old(Value()), effect) && budget == old(budget) - 1
      ensures Perform(Value(), if alive then todo[1..] else todo, budget) == Perform(old(Value()), todo, old(budget))
      ensures !alive ==> Value() == old(Value()) == Perform(old(Value()), todo, old(budget))
    {
      alive := budget > 0;
      if alive {
        if effect.Save? {
          store := store[effect.plan.planId := effect.plan];
        }
        log := log + [effect];
        budget := budget - 1;
      }
    }

    method CreatePlan(planId: string, action: ActionKind) returns (reply: Reply)
      modifies this`store, this`log, this`budget
      ensures var script := CreateScript(old(store), planId, action);
              Value() == Perform(old(Value()), script.effects, old(budget)) && reply == ReplyTo(script, old(budget))
    {
      if !ValidId(planId) {
        return InvalidId;
      }
      if planId in store {
        return Returned(store[planId]);
      }
      var plan := NewPlan(planId, action);
      var alive := Do(Save(plan), [Save(plan)]);
      reply := if alive then Returned(plan) else Crashed;
    }

    /** Carries out what a call still has to do. */
    method DoAll(effects: seq<Effect>) returns (alive: bool)
      modifies this`store, this`log, this`budget
      ensures Value() == Perform(old(Value()), effects, old(budget))
      ensures alive <==> old(budget) >= |effects|
    {
      ghost var before, available := Value(), budget;
      for i := 0 to |effects|
        invariant budget == available - i
        invariant Perform(Value(), effects[i..], budget) == Perform(before, effects, available)
      {
        alive := Do(effects[i], effects[i..]);
        if !alive {
          return;
        }
        assert effects[i..][1..] == effects[i + 1..];
      }
      alive := true;
    }

    method DecidePlan(planId: string, verdict: Verdict) returns (reply: Reply)
      modifies this`store, this`log, this`budget
      ensures var script := DecideScript(config, old(store), planId, verdict);
              Value() == Perform(old(Value()), script.effects, old(budget)) && reply == ReplyTo(script, old(budget))
    {
      if verdict.OtherVerdict? {
        return InvalidDecision;
      }
      if !ValidId(planId) {
        return InvalidId;
      }
      if planId !in store || store[planId].metadata.NotBusiness? {
        return NotFound;
      }
      var plan := new LoadedPlan(store[planId]);
      var desired := if verdict.Approve? then Approved else Rejected;
      if plan.metadata.decision == desired {
        return Decided(plan.Value(), desired, false);
      }
      if plan.metadata.decision != Undecided {
        return Conflict;
      }
      var applied := plan.Transition(ApproveOption, if verdict.Approve? then Verified else Failed, Plain);
      if !applied {
        return IllegalTransition;
      }
      plan.metadata := plan.metadata.(decision := desired);
      if verdict.Reject? {
        plan.status := PlanFailed;
      }
      var rest := [Save(plan.Value())] + Lessons(config, plan.planId);
      if verdict.Reject? && config.Some? {
        rest := rest + [TaskEventOf(plan.Value())];
      } else {
        assert rest + [] == rest;
      }
      var alive := DoAll(rest);
      reply := if alive then Decided(plan.Value(), desired, true) else Crashed;
    }

    /** Takes the execution step to its end, in memory. */
    method FinishStep(plan: LoadedPlan, succeeds: bool) returns (applied: bool)
      requires plan.metadata.Business?
      modifies plan
      ensures match Outcome(old(plan.Value()), succeeds)
              case Some(finished) => applied && plan.Value() == finished
              case None => !applied
    {
      if succeeds {
        applied := plan.Transition(ExecuteAction, Done, Plain);
        if applied {
          applied := plan.Transition(ExecuteAction, Verifying, Plain);
        }
        if applied {
          applied := plan.Transition(ExecuteAction, Verified, Plain);
        }
        if applied {
          plan.status, plan.metadata := PlanCompleted, plan.metadata.(execution := Completed);
        }
      } else {
        applied := plan.Transition(ExecuteAction, Failed, Plain);
        if applied {
          plan.status, plan.metadata := PlanFailed, plan.metadata.(execution := ExecutionFailed);
        }
      }
    }

    /** Runs the action of a plan just saved as running, and records what became of it. */
    method RunAndRecord(plan: LoadedPlan, succeeds: bool, ghost todo: seq<Effect>, ghost last: Reply)
      returns (reply: Reply)
      requires plan.metadata.Business?
      requires match Outcome(plan.Value(), succeeds)
               case Some(finished) =>
                 && todo == [RunAction(plan.planId), Save(finished)] + Report(config, finished, succeeds)
                 && last == Returned(finished)
               case None => todo == [RunAction(plan.planId)] && last == IllegalTransition
      modifies this`store, this`log, this`budget, plan
      ensures Value() == Perform(old(Value()), todo, old(budget))
      ensures reply == if old(budget) < |todo| then Crashed else last
    {
      var alive := Do(RunAction(plan.planId), todo);
      if !alive {
        return Crashed;
      }
      var finished := FinishStep(plan, succeeds);
      if !finished {
        return IllegalTransition;
      }
      var rest := [Save(plan.Value())] + Report(config, plan.Value(), succeeds);
      assert todo[1..] == rest;
      alive := DoAll(rest);
      reply := if alive then Returned(plan.Value()) else Crashed;
    }

    method StartAndRun(plan: LoadedPlan, succeeds: bool) returns (reply: Reply)
      requires plan.metadata.Business?
      modifies this`store, this`log, this`budget, plan
      ensures var script := RunScript(config, old(plan.Value()), succeeds);
              Value() == Perform(old(Value()), script.effects, old(budget)) && reply == ReplyTo(script, old(budget))
    {
      ghost var script := RunScript(config, plan.Value(), succeeds);
      var applied := plan.Transition(ExecuteAction, Running, Plain);
      if !applied {
        return IllegalTransition;
      }
      plan.metadata := plan.metadata.(execution := Executing);
      var alive := Do(Save(plan.Value()), script.effects);
      if !alive {
        return Crashed;
      }
      reply := RunAndRecord(plan, succeeds, script.effects[1..], script.reply);
    }

    method ExecutePlan(planId: string, withExecutor: bool, succeeds: bool) returns (reply: Reply)
      modifies this`store, this`log, this`budget
      ensures var script := ExecuteScript(config, old(store), planId, withExecutor, succeeds);
              Value() == Perform(old(Value()), script.effects, old(budget)) && reply == ReplyTo(script, old(budget))
    {
      if !ValidId(planId) {
        return InvalidId;
      }
      if planId !in store || store[planId].metadata.NotBusiness? {
        return NotFound;
      }
      var plan := new LoadedPlan(store[planId]);
      if plan.metadata.decision != Approved {
        return Conflict;
      }
      if plan.metadata.execution == Completed {
        return Returned(plan.Value());
      }
      if plan.metadata.execution != NotExecuted {
        return Conflict;
      }
      if plan.metadata.action == OtherAction {
        return InvalidAction;
      }
      if config.None? && !withExecutor {
        return ConfigRequired;
      }
      reply := StartAndRun(plan, succeeds);
    }

    /** One call, uninterrupted or not: it does the first part of its script that the budget allows. */
    method Handle(call: Call) returns (reply: Reply)
      modifies this`store, this`log, this`budget
      ensures var script := ScriptOf(config, old(store), call);
              Value() == Perform(old(Value()), script.effects, old(budget)) && reply == ReplyTo(script, old(budget))
    {
      match call
      case Create(planId, action) => reply := CreatePlan(planId, action);
      case Decide(planId, verdict) => reply := DecidePlan(planId, verdict);
      case Execute(planId, withExecutor, succeeds) => reply := ExecutePlan(planId, withExecutor, succeeds);
    }
  }
}
