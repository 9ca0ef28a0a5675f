/** Where the decision service's promises end: calls that overlap, and runs that leave no report. */
module DecisionLimits {
  import opened Messages
  import opened PlanEngine
  import opened Decisions
  import opened DecisionTheorems

  // ----- Calls that overlap -----

  /** The effects a process lives to see. */
  function Lived(effects: seq<Effect>, budget: nat): seq<Effect> {
    if budget < |effects| then effects[..budget] else effects
  }

  /** Two processes take turns; `first` says who is next, and who is left over comes last. */
  function Interleaved(turns: seq<bool>, a: seq<Effect>, b: seq<Effect>): seq<Effect>
    decreases |a| + |b|
  {
    if a == [] then b
    else if b == [] then a
    else
      var rest := if turns == [] then [] else turns[1..];
      if turns == [] || turns[0] then [a[0]] + Interleaved(rest, a[1..], b) else [b[0]] + Interleaved(rest, a, b[1..])
  }

  lemma {:induction false} CountConcat(a: seq<Effect>, b: seq<Effect>, tag: Tag, planId: string)
    ensures Times(a + b, tag, planId) == Times(a, tag, planId) + Times(b, tag, planId)
  {
    if b == [] {
      assert a + b == a;
    } else {
      var init, last := b[..|b| - 1], b[|b| - 1];
      CountConcat(a, init, tag, planId);
      CountLast(a + init, last, tag, planId);
      assert a + b == (a + init) + [last];
    }
  }

  lemma {:induction false} InterleavingCounts(turns: seq<bool>, a: seq<Effect>, b: seq<Effect>, tag: Tag,
                                              planId: string)
    ensures Times(Interleaved(turns, a, b), tag, planId) == Times(a, tag, planId) + Times(b, tag, planId)
    decreases |a| + |b|
  {
    if a != [] && b != [] {
      var rest := if turns == [] then [] else turns[1..];
      if turns == [] || turns[0] {
        InterleavingCounts(rest, a[1..], b, tag, planId);
        CountConcat([a[0]], Interleaved(rest, a[1..], b), tag, planId);
        CountConcat([a[0]], a[1..], tag, planId);
        assert [a[0]] + a[1..] == a;
      } else {
        InterleavingCounts(rest, a, b[1..], tag, planId);
        CountConcat([b[0]], Interleaved(rest, a, b[1..]), tag, planId);
        CountConcat([b[0]], b[1..], tag, planId);
        assert [b[0]] + b[1..] == b;
      }
    }
  }

  lemma {:induction false} PerformLogs(world: World, effects: seq<Effect>, budget: nat)
    ensures Perform(world, effects, budget).log == world.log + Lived(effects, budget)
    decreases |effects|
  {
    if effects != [] && budget > 0 {
      PerformLogs(Apply(world, effects[0]), effects[1..], budget - 1);
      assert Lived(effects, budget) == [effects[0]] + Lived(effects[1..], budget - 1);
    }
  }

  /** A call that loads the plan when the call that runs it has performed `k` effects runs it as well
      exactly when `k` is 0; later on there is nothing for it to do. */
  lemma LateCallStartsExactlyWhen(world: World, first: Attempt, second: Attempt, k: nat)
    requires Inv(world) && first.call.Execute? && second.call.Execute? && first.call.planId == second.call.planId
    requires Starts(first.config, world.store, first.call.planId, first.call.withExecutor)
    requires Starts(second.config, world.store, second.call.planId, second.call.withExecutor)
    ensures var loaded := Perform(world, ScriptOf(first.config, world.store, first.call).effects, k);
            && (Starts(second.config, loaded.store, second.call.planId, second.call.withExecutor) <==> k == 0)
            && (k > 0 ==> ScriptOf(second.config, loaded.store, second.call).effects == [])
  {
    var planId := first.call.planId;
    assert Tidy(world, planId);
    StartsRun(first.config, world.store, planId, first.call.withExecutor, first.call.succeeds);
    if k > 0 {
      RunScriptSettles(world, first.config, planId, first.call.succeeds, k);
      SettledScript(second.config, Perform(world, ScriptOf(first.config, world.store, first.call).effects, k).store,
                    second.call);
    }
  }

  lemma RunsIn(config: Option<Config>, plan: Plan, succeeds: bool, budget: nat)
    requires InPhase(plan, Cleared)
    ensures Times(Lived(RunScript(config, plan, succeeds).effects, budget), Runs, plan.planId)
         == if budget >= 2 then 1 else 0
  {
    var running, finished := RunScriptIs(config, plan, succeeds);
    var effects := RunScript(config, plan, succeeds).effects;
    forall i | 0 <= i < |effects|
      ensures Bears(effects[i], Runs, plan.planId) <==> i == 1
    {
      RunEffectAt(config, running, finished, succeeds, i);
    }
    RunEffectAt(config, running, finished, succeeds, 0);
    var nothing := World(map[], []);
    CountPerformed(nothing, effects, budget, Runs, plan.planId, 1);
    PerformLogs(nothing, effects, budget);
    assert [] + Lived(effects, budget) == Lived(effects, budget);
  }

  /** What is done when `second` loads the plan once `first` has performed `k` effects, and from then on
      the two take turns in any way. */
  function Overlapped(world: World, first: Attempt, second: Attempt, k: nat, turns: seq<bool>): seq<Effect> {
    var effects := Lived(ScriptOf(first.config, world.store, first.call).effects, first.budget);
    var done := Lived(effects, k);
    var loaded := Perform(world, effects, k);
    done + Interleaved(turns, effects[|done|..],
                       Lived(ScriptOf(second.config, loaded.store, second.call).effects, second.budget))
  }

  lemma {:induction false} PerformLived(world: World, effects: seq<Effect>, budget: nat, k: nat)
    requires k <= budget
    ensures Perform(world, Lived(effects, budget), k) == Perform(world, effects, k)
    decreases |effects|
  {
    if effects != [] && k > 0 {
      PerformLived(Apply(world, effects[0]), effects[1..], budget - 1, k - 1);
      assert Lived(effects, budget)[1..] == Lived(effects[1..], budget - 1);
    }
  }

  /** What the late call does. */
  function LateEffects(world: World, first: Attempt, second: Attempt, k: nat): seq<Effect> {
    var loaded := Perform(world, ScriptOf(first.config, world.store, first.call).effects, k);
    Lived(ScriptOf(second.config, loaded.store, second.call).effects, second.budget)
  }

  /** The first call's effects fall into those before the second one loads and those after. */
  lemma OverlapSplits(world: World, first: Attempt, second: Attempt, k: nat, turns: seq<bool>)
    returns (done: seq<Effect>, rest: seq<Effect>)
    requires k <= first.budget
    ensures done + rest == Lived(ScriptOf(first.config, world.store, first.call).effects, first.budget)
    ensures Overlapped(world, first, second, k, turns)
         == done + Interleaved(turns, rest, LateEffects(world, first, second, k))
  {
    var script := ScriptOf(first.config, world.store, first.call).effects;
    var effects := Lived(script, first.budget);
    PerformLived(world, script, first.budget, k);
    done := Lived(effects, k);
    rest := effects[|done|..];
  }

  lemma SplitCounts(turns: seq<bool>, done: seq<Effect>, rest: seq<Effect>, late: seq<Effect>, tag: Tag, planId: string)
    ensures Times(done + Interleaved(turns, rest, late), tag, planId)
         == Times(done + rest, tag, planId) + Times(late, tag, planId)
  {
    CountConcat(done, Interleaved(turns, rest, late), tag, planId);
    InterleavingCounts(turns, rest, late, tag, planId);
    CountConcat(done, rest, tag, planId);
  }

  /** Whatever the schedule, each call's effects are done once. */
  lemma OverlapCounts(world: World, first: Attempt, second: Attempt, k: nat, turns: seq<bool>, tag: Tag, planId: string)
    requires k <= first.budget
    ensures Times(Overlapped(world, first, second, k, turns), tag, planId)
         == Times(Lived(ScriptOf(first.config, world.store, first.call).effects, first.budget), tag, planId)
            + Times(LateEffects(world, first, second, k), tag, planId)
  {
    var done, rest := OverlapSplits(world, first, second, k, turns);
    SplitCounts(turns, done, rest, LateEffects(world, first, second, k), tag, planId);
  }

  lemma LateRuns(world: World, first: Attempt, second: Attempt, k: nat)
    requires Inv(world) && first.call.Execute? && second.call.Execute? && first.call.planId == second.call.planId
    requires Starts(first.config, world.store, first.call.planId, first.call.withExecutor)
    requires Starts(second.config, world.store, second.call.planId, second.call.withExecutor)
    ensures Times(LateEffects(world, first, second, k), Runs, first.call.planId)
         == if k == 0 && second.budget >= 2 then 1 else 0
  {
    var planId := second.call.planId;
    assert Tidy(world, planId);
    LateCallStartsExactlyWhen(world, first, second, k);
    if k == 0 {
      StartsRun(second.config, world.store, planId, second.call.withExecutor, second.call.succeeds);
      RunsIn(second.config, world.store[planId], second.call.succeeds, second.budget);
    }
  }

  /** At most once holds for calls that follow one another. Two overlapping calls, in any schedule, run
      the action twice exactly when the second one loads the plan before the first has saved it as
      running, and both live to run it. */
  lemma OverlapRunsTwiceExactlyWhen(world: World, first: Attempt, second: Attempt, k: nat, turns: seq<bool>)
    requires Inv(world) && first.call.Execute? && second.call.Execute? && first.call.planId == second.call.planId
    requires Starts(first.config, world.store, first.call.planId, first.call.withExecutor)
    requires Starts(second.config, world.store, second.call.planId, second.call.withExecutor)
    requires k <= first.budget
    ensures Times(world.log + Overlapped(world, first, second, k, turns), Runs, first.call.planId) == 2
       <==> k == 0 && first.budget >= 2 && second.budget >= 2
  {
    var planId := first.call.planId;
    assert Tidy(world, planId);
    StartsRun(first.config, world.store, planId, first.call.withExecutor, first.call.succeeds);
    RunsIn(first.config, world.store[planId], first.call.succeeds, first.budget);
    LateRuns(world, first, second, k);
    OverlapCounts(world, first, second, k, turns, Runs, planId);
    CountConcat(world.log, Overlapped(world, first, second, k, turns), Runs, planId);
  }

  // ----- Decisions that overlap -----

  /** A decision that can be recorded. */
  predicate Decidable(world: World, call: Call) {
    && call.Decide? && call.verdict != OtherVerdict && ValidId(call.planId)
    && IsBusiness(world.store, call.planId) && PhaseOf(world.store[call.planId]) == Open
  }

  function Desired(verdict: Verdict): Decision {
    if verdict.Approve? then Approved else Rejected
  }

  predicate Records(effect: Effect, planId: string, decision: Decision) {
    match effect
    case Save(plan) => plan.planId == planId && plan.metadata.Business? && plan.metadata.decision == decision
    case _ => false
  }

  /** A decision was recorded for the plan, and later on another one. */
  ghost predicate Overwritten(effects: seq<Effect>, planId: string) {
    exists p, q, d, e {:trigger Records(effects[p], planId, d), Records(effects[q], planId, e)} ::
      0 <= p < q < |effects| && d != e && Records(effects[p], planId, d) && Records(effects[q], planId, e)
  }

  /** A call that decides records its decision first, and none after it. */
  lemma DecidesOnce(world: World, decide: Attempt)
    requires Inv(world) && Decidable(world, decide.call)
    ensures var call := decide.call;
            var effects := ScriptOf(decide.config, world.store, call).effects;
            && effects != [] && Records(effects[0], call.planId, Desired(call.verdict))
            && (forall p :: 0 < p < |effects| ==> !effects[p].Save?)
  {
    assert Tidy(world, decide.call.planId);
    var decided := DecideScriptIs(decide.config, world.store, decide.call.planId, decide.call.verdict);
  }

  lemma {:induction false} RestSavesNothing(world: World, effects: seq<Effect>, k: nat)
    requires forall p :: 0 <= p < |effects| ==> !effects[p].Save?
    ensures Perform(world, effects, k).store == world.store
    decreases |effects|
  {
    if effects != [] && k > 0 {
      RestSavesNothing(Apply(world, effects[0]), effects[1..], k - 1);
    }
  }

  /** A contrary decision on a plan loaded once `k` effects of the first one have been performed goes
      through exactly when `k` is 0; later on it is a conflict. */
  lemma LateDecisionConflictsExactlyWhen(world: World, first: Attempt, second: Attempt, k: nat)
    requires Inv(world) && Decidable(world, first.call) && Decidable(world, second.call)
    requires first.call.planId == second.call.planId && first.call.verdict != second.call.verdict
    ensures var loaded := Perform(world, ScriptOf(first.config, world.store, first.call).effects, k);
            && (ScriptOf(second.config, loaded.store, second.call) == Script([], Conflict) <==> k > 0)
            && (Decidable(loaded, second.call) <==> k == 0)
  {
    DecidesOnce(world, first);
    DecidesOnce(world, second);
    var effects := ScriptOf(first.config, world.store, first.call).effects;
    if k > 0 {
      RestSavesNothing(Apply(world, effects[0]), effects[1..], k - 1);
      assert Perform(world, effects, k).store == Apply(world, effects[0]).store;
    }
  }

  lemma {:induction false} InterleavingHolds(turns: seq<bool>, a: seq<Effect>, b: seq<Effect>, effect: Effect)
    ensures effect in Interleaved(turns, a, b) <==> effect in a || effect in b
    decreases |a| + |b|
  {
    if a != [] && b != [] {
      var rest := if turns == [] then [] else turns[1..];
      if turns == [] || turns[0] {
        InterleavingHolds(rest, a[1..], b, effect);
        assert a == [a[0]] + a[1..];
      } else {
        InterleavingHolds(rest, a, b[1..], effect);
        assert b == [b[0]] + b[1..];
      }
    }
  }

  /** What overlapping calls do is what either of them does. */
  lemma OverlapHolds(world: World, first: Attempt, second: Attempt, k: nat, turns: seq<bool>, effect: Effect)
    requires k <= first.budget
    ensures effect in Overlapped(world, first, second, k, turns)
       <==> effect in Lived(ScriptOf(first.config, world.store, first.call).effects, first.budget)
            || effect in LateEffects(world, first, second, k)
  {
    var done, rest := OverlapSplits(world, first, second, k, turns);
    InterleavingHolds(turns, rest, LateEffects(world, first, second, k), effect);
  }

  /** These effects record this decision and no other. */
  ghost predicate RecordsOnly(effects: seq<Effect>, planId: string, decision: Decision) {
    forall effect, d {:trigger Records(effect, planId, d)} ::
      effect in effects && Records(effect, planId, d) ==> d == decision
  }

  lemma LivedDecision(world: World, decide: Attempt)
    requires Inv(world) && Decidable(world, decide.call)
    ensures var effects := Lived(ScriptOf(decide.config, world.store, decide.call).effects, decide.budget);
            && RecordsOnly(effects, decide.call.planId, Desired(decide.call.verdict))
            && (decide.budget >= 1 ==>
                  effects != [] && Records(effects[0], decide.call.planId, Desired(decide.call.verdict)))
            && (decide.budget == 0 ==> effects == [])
  {
    DecidesOnce(world, decide);
    var script := ScriptOf(decide.config, world.store, decide.call).effects;
    var effects := Lived(script, decide.budget);
    forall effect, d | effect in effects && Records(effect, decide.call.planId, d)
      ensures d == Desired(decide.call.verdict)
    {
      var p :| 0 <= p < |effects| && effects[p] == effect;
      assert script[p] == effect;
    }
  }

  lemma BothRecorded(effects: seq<Effect>, planId: string, a: Effect, b: Effect, d: Decision, e: Decision)
    requires a in effects && b in effects && d != e && Records(a, planId, d) && Records(b, planId, e)
    ensures Overwritten(effects, planId)
  {
    var p :| 0 <= p < |effects| && effects[p] == a;
    var q :| 0 <= q < |effects| && effects[q] == b;
    if p < q {
      assert Records(effects[p], planId, d) && Records(effects[q], planId, e);
    } else {
      assert Records(effects[q], planId, e) && Records(effects[p], planId, d);
    }
  }

  lemma OneDecision(effects: seq<Effect>, planId: string, decision: Decision)
    requires RecordsOnly(effects, planId, decision)
    ensures !Overwritten(effects, planId)
  {
    forall p, q, d, e | 0 <= p < q < |effects| && Records(effects[p], planId, d) && Records(effects[q], planId, e)
      ensures d == e
    {
      assert effects[p] in effects && effects[q] in effects;
    }
  }

  /** Two contrary decisions that overlap, in any schedule, both get recorded, the later one over the
      earlier, exactly when the second call loads the plan before the first has saved it and both
      live to save. */
  lemma OverlapOverwritesExactlyWhen(world: World, first: Attempt, second: Attempt, k: nat, turns: seq<bool>)
    requires Inv(world) && Decidable(world, first.call) && Decidable(world, second.call)
    requires first.call.planId == second.call.planId && first.call.verdict != second.call.verdict
    requires k <= first.budget
    ensures Overwritten(Overlapped(world, first, second, k, turns), first.call.planId)
       <==> k == 0 && first.budget >= 1 && second.budget >= 1
  {
    var planId, effects := first.call.planId, Overlapped(world, first, second, k, turns);
    var early := Lived(ScriptOf(first.config, world.store, first.call).effects, first.budget);
    var late := LateEffects(world, first, second, k);
    LateDecisionConflictsExactlyWhen(world, first, second, k);
    LivedDecision(world, first);
    if k == 0 {
      LivedDecision(world, second);
    }
    if k == 0 && first.budget >= 1 && second.budget >= 1 {
      OverlapHolds(world, first, second, k, turns, early[0]);
      OverlapHolds(world, first, second, k, turns, late[0]);
      BothRecorded(effects, planId, early[0], late[0], Desired(first.call.verdict), Desired(second.call.verdict));
    } else {
      var decision := Desired(if k > 0 || second.budget == 0 then first.call.verdict else second.call.verdict);
      forall effect, d | effect in effects && Records(effect, planId, d)
        ensures d == decision
      {
        OverlapHolds(world, first, second, k, turns, effect);
      }
      OneDecision(effects, planId, decision);
    }
  }

  // ----- Runs at which the promises fail -----

  const NOWHERE := World(map[], [])

  /** A plan created and approved by processes that die right after saving it. */
  function Approval(planId: string): seq<Attempt> {
    [Attempt(None, Create(planId, Notify), 1), Attempt(None, Decide(planId, Approve), 1)]
  }

  lemma FirstEffectOnly(world: World, effects: seq<Effect>)
    requires effects != []
    ensures Perform(world, effects, 1) == Apply(world, effects[0])
  {
  }

  lemma ApproveClears(world: World, planId: string)
    requires Inv(world) && ValidId(planId) && IsBusiness(world.store, planId) && InPhase(world.store[planId], Open)
    ensures var approved := Attempted(world, Attempt(None, Decide(planId, Approve), 1)).store;
            && IsBusiness(approved, planId) && InPhase(approved[planId], Cleared)
            && approved[planId].metadata.action == world.store[planId].metadata.action
  {
    assert Tidy(world, planId);
    var plan := DecideScriptIs(None, world.store, planId, Approve);
    var effects := DecideScript(None, world.store, planId, Approve).effects;
    assert effects[0] == Save(plan);
    FirstEffectOnly(world, effects);
  }

  lemma CreateOpens(planId: string)
    requires ValidId(planId)
    ensures Attempted(NOWHERE, Attempt(None, Create(planId, Notify), 1)).store == map[planId := NewPlan(planId, Notify)]
  {
    FirstEffectOnly(NOWHERE, [Save(NewPlan(planId, Notify))]);
  }

  /** A plan can be brought to the point where its execution starts. */
  lemma ApprovalReachesStart(planId: string, config: Option<Config>)
    requires ValidId(planId)
    ensures Initial(NOWHERE)
    ensures Starts(config, After(NOWHERE, Approval(planId)).store, planId, true)
  {
    var create, approve := Attempt(None, Create(planId, Notify), 1), Attempt(None, Decide(planId, Approve), 1);
    CreateOpens(planId);
    AfterLast(NOWHERE, [], create);
    assert [] + [create] == [create];
    AfterLast(NOWHERE, [create], approve);
    assert [create] + [approve] == Approval(planId);
    InvAlways(NOWHERE, [create]);
    ApproveClears(After(NOWHERE, [create]), planId);
  }

  /** An execution without a configuration runs and leaves no report, whenever one looks. */
  lemma RunWithoutReport(planId: string, more: seq<Attempt>)
    requires ValidId(planId)
    ensures var log := After(NOWHERE, Approval(planId) + [Attempt(None, Execute(planId, true, true), 3)] + more).log;
            Times(log, Runs, planId) == 1 && Times(log, Evidence, planId) == 0 && Times(log, Events, planId) == 0
  {
    var execute := Attempt(None, Execute(planId, true, true), 3);
    ApprovalReachesStart(planId, None);
    ExecutionReportedExactlyWhen(NOWHERE, Approval(planId), execute, more);
    ReportedAtMostOnce(NOWHERE, Approval(planId) + [execute] + more, planId);
  }

  /** An execution with a configuration whose process dies after saving the evidence never gets its event. */
  lemma RunWithoutEvent(planId: string, config: Config, more: seq<Attempt>)
    requires ValidId(planId)
    ensures var log := After(NOWHERE,
                             Approval(planId) + [Attempt(Some(config), Execute(planId, true, true), 4)] + more).log;
            Times(log, Runs, planId) == 1 && Times(log, Evidence, planId) == 1 && Times(log, Events, planId) == 0
  {
    var execute := Attempt(Some(config), Execute(planId, true, true), 4);
    ApprovalReachesStart(planId, Some(config));
    ExecutionReportedExactlyWhen(NOWHERE, Approval(planId), execute, more);
    ReportedAtMostOnce(NOWHERE, Approval(planId) + [execute] + more, planId);
  }

  /** Two executions that both load the approved plan do run its action twice, in every schedule. */
  lemma OverlapRunsTwice(planId: string, turns: seq<bool>)
    requires ValidId(planId)
    ensures var world, execute := After(NOWHERE, Approval(planId)), Attempt(None, Execute(planId, true, true), 3);
            Times(world.log + Overlapped(world, execute, execute, 0, turns), Runs, planId) == 2
  {
    ApprovalReachesStart(planId, None);
    InvAlways(NOWHERE, Approval(planId));
    var execute := Attempt(None, Execute(planId, true, true), 3);
    OverlapRunsTwiceExactlyWhen(After(NOWHERE, Approval(planId)), execute, execute, 0, turns);
  }

  /** An approval and a rejection that both load the open plan are both recorded, in every schedule. */
  lemma OverlapOverwrites(planId: string, turns: seq<bool>)
    requires ValidId(planId)
    ensures var world := After(NOWHERE, [Attempt(None, Create(planId, Notify), 1)]);
            var approve, reject := Attempt(None, Decide(planId, Approve), 1), Attempt(None, Decide(planId, Reject), 1);
            Overwritten(Overlapped(world, approve, reject, 0, turns), planId)
  {
    var create := Attempt(None, Create(planId, Notify), 1);
    CreateOpens(planId);
    AfterLast(NOWHERE, [], create);
    assert [] + [create] == [create];
    InvAlways(NOWHERE, [create]);
    OverlapOverwritesExactlyWhen(After(NOWHERE, [create]), Attempt(None, Decide(planId, Approve), 1),
                                 Attempt(None, Decide(planId, Reject), 1), 0, turns);
  }
}
