/** `run_experiment`: 1000 rounds of agent decision, environment update
    and evaluator update, stopping at the first failure, which is reported
    as an `ExperimentError` naming the component to blame. */
module Experiment {
  import opened Exceptions
  import opened World
  import opened Evaluation

  /** The loop runs t = 1, ..., 1000 (a function rather than a constant,
      so that the verifier does not unfold runs of that literal length). */
  function NumSteps(): nat { 1000 }

  /** The component an `ExperimentError` blames. */
  datatype Component = AgentComponent | EnvironmentComponent

  /** The tag `run_experiment` passes to `ExperimentError`; the two tags
      tell the components apart. */
  function ComponentName(c: Component): (name: string)
    ensures name == "agent" <==> c == AgentComponent
    ensures name == "environment" <==> c == EnvironmentComponent
  {
    match c
    case AgentComponent => "agent"
    case EnvironmentComponent => "environment"
  }

  /** `ExperimentError(component, cause)`. */
  datatype ExperimentError = ExperimentError(component: Component, cause: Exception)

  /** A ValueError from `decide` means the environment fed the agent an
      illegal percept; anything else is the agent's own fault. */
  function DecideFailureComponent(e: Exception): (c: Component)
    ensures c == EnvironmentComponent <==> e.ValueError?
    ensures c == AgentComponent <==> !e.ValueError?
  {
    if e.ValueError? then EnvironmentComponent else AgentComponent
  }

  /** A ValueError from `update` means the agent chose an illegal action;
      anything else is the environment's own fault. */
  function UpdateFailureComponent(e: Exception): (c: Component)
    ensures c == AgentComponent <==> e.ValueError?
    ensures c == EnvironmentComponent <==> !e.ValueError?
  {
    if e.ValueError? then AgentComponent else EnvironmentComponent
  }

  /** The two tables blame opposite components for every exception. */
  lemma FailureTablesOpposite(e: Exception)
    ensures DecideFailureComponent(e) != UpdateFailureComponent(e)
  {
  }

  /** An agent: its `decide` method, which maps a percept to an action or
      raises. */
  type Agent = Percept -> Result<string>

  /** `SuckyAgent.decide`: always SUCK, whatever it perceives, so it never
      raises and always names a legal action. */
  function SuckyDecide(percept: Percept): (r: Result<string>)
    ensures r.Success? && r.value == Suck && r.value in Actions
  {
    Success(Suck)
  }

  /** The outcome of one round of the loop body. */
  datatype RoundOutcome = Stepped(next: WorldState) | Failed(error: ExperimentError)

  /** One round: decide on the percept, then update; each failure is tagged
      by its table. */
  function Round(s: WorldState, agent: Agent): (r: RoundOutcome)
    requires WellFormed(s)
    ensures r.Stepped? ==> WellFormed(r.next)
    ensures r.Failed? && agent(Observe(s)).Failure? ==>
              r.error == ExperimentError(DecideFailureComponent(agent(Observe(s)).error), agent(Observe(s)).error)
    ensures r.Failed? && agent(Observe(s)).Success? ==>
              && agent(Observe(s)).value !in Actions
              && r.error == ExperimentError(AgentComponent, ValueError(Str(agent(Observe(s)).value)))
  {
    match agent(Observe(s))
    case Failure(e) => Failed(ExperimentError(DecideFailureComponent(e), e))
    case Success(decision) =>
      match Step(s, decision)
      case Failure(e) => Failed(ExperimentError(UpdateFailureComponent(e), e))
      case Success(next) => Stepped(next)
  }

  /** A round is decide-then-update: a failing `decide` fails the round
      with its table's tag; otherwise the round steps exactly when the
      decision is a legal action, and then to `Step`'s successor. */
  lemma RoundDecidesThenSteps(s: WorldState, agent: Agent)
    requires WellFormed(s)
    ensures agent(Observe(s)).Failure? ==>
              Round(s, agent) == Failed(ExperimentError(DecideFailureComponent(agent(Observe(s)).error), agent(Observe(s)).error))
    ensures agent(Observe(s)).Success? ==> (Round(s, agent).Stepped? <==> agent(Observe(s)).value in Actions)
    ensures Round(s, agent).Stepped? ==>
              agent(Observe(s)).Success? && Round(s, agent).next == Step(s, agent(Observe(s)).value).value
  {
  }

  /** What a run leaves behind: the states the evaluator was updated with
      (one per completed round), the error that stopped it, if any, and the
      environment's final state. */
  datatype Trial = Trial(scored: seq<WorldState>, error: Option<ExperimentError>, final: WorldState)

  /** Up to `n` rounds from `s`, stopping at the first failure. */
  function Run(s: WorldState, agent: Agent, n: nat): (r: Trial)
    requires WellFormed(s)
    ensures |r.scored| <= n
    ensures r.error.None? <==> |r.scored| == n
    ensures WellFormed(r.final)
    decreases n
  {
    if n == 0 then Trial([], None, s)
    else
      match Round(s, agent)
      case Failed(e) => Trial([], Some(e), s)
      case Stepped(next) =>
        var rest := Run(next, agent, n - 1);
        Trial([next] + rest.scored, rest.error, rest.final)
  }

  /** The run ends where its last completed round left the world, and a run
      that stopped early stopped because the next round from there fails
      with exactly the reported error: no round runs after a failure. */
  lemma {:induction false} RunStopsAtFailure(s: WorldState, agent: Agent, n: nat)
    requires WellFormed(s)
    ensures var r := Run(s, agent, n);
            r.final == if r.scored == [] then s else r.scored[|r.scored| - 1]
    ensures var r := Run(s, agent, n);
            r.error.Some? ==> Round(r.final, agent) == Failed(r.error.value)
    decreases n
  {
    if n > 0 && Round(s, agent).Stepped? {
      RunStopsAtFailure(Round(s, agent).next, agent, n - 1);
    }
  }

  /** Every scored state is the round's successor of the one before it (of
      the starting state, for the first). */
  lemma {:induction false} RunChains(s: WorldState, agent: Agent, n: nat, i: nat)
    requires WellFormed(s)
    requires i < |Run(s, agent, n).scored|
    ensures var scored := Run(s, agent, n).scored;
            var before := if i == 0 then s else scored[i - 1];
            WellFormed(before) && Round(before, agent) == Stepped(scored[i])
    decreases i
  {
    if i > 0 {
      var next := Round(s, agent).next;
      RunChains(next, agent, n - 1, i - 1);
      if i > 1 {
        assert Run(s, agent, n).scored[i - 1] == Run(next, agent, n - 1).scored[i - 2];
      }
    }
  }

  /** `trial` is what is left of a run after the rounds that scored
      `scored`, with `m` rounds still to go from state `s`. */
  ghost predicate Resumes(trial: Trial, scored: seq<WorldState>, s: WorldState, agent: Agent, m: nat)
    requires WellFormed(s)
  {
    var rest := Run(s, agent, m);
    trial.scored == scored + rest.scored && trial.error == rest.error && trial.final == rest.final
  }

  lemma ResumesStart(s: WorldState, agent: Agent, n: nat)
    requires WellFormed(s)
    ensures Resumes(Run(s, agent, n), [], s, agent, n)
  {
    assert [] + Run(s, agent, n).scored == Run(s, agent, n).scored;
  }

  /** A completed round moves one state from the rest of the run to the
      scored part. */
  lemma ResumesStep(trial: Trial, scored: seq<WorldState>, s: WorldState, agent: Agent, m: nat)
    requires WellFormed(s) && m > 0 && Round(s, agent).Stepped?
    requires Resumes(trial, scored, s, agent, m)
    ensures Resumes(trial, scored + [Round(s, agent).next], Round(s, agent).next, agent, m - 1)
  {
    var next := Round(s, agent).next;
    var rest := Run(next, agent, m - 1);
    assert Run(s, agent, m).scored == [next] + rest.scored;
    assert scored + ([next] + rest.scored) == (scored + [next]) + rest.scored;
  }

  /** A failed round ends the run right there, with that round's error. */
  lemma ResumesFail(trial: Trial, scored: seq<WorldState>, s: WorldState, agent: Agent, m: nat)
    requires WellFormed(s) && m > 0 && Round(s, agent).Failed?
    requires Resumes(trial, scored, s, agent, m)
    ensures trial == Trial(scored, Some(Round(s, agent).error), s)
  {
    assert scored + [] == scored;
  }

  /** With no rounds left, the run has ended without error. */
  lemma ResumesEnd(trial: Trial, scored: seq<WorldState>, s: WorldState, agent: Agent)
    requires WellFormed(s)
    requires Resumes(trial, scored, s, agent, 0)
    ensures trial == Trial(scored, None, s)
  {
    assert scored + [] == scored;
  }

  /** The score a run adds is between 0 and twice the rounds completed. */
  lemma RunScoreBound(s: WorldState, agent: Agent, n: nat)
    requires WellFormed(s)
    ensures TotalClean(Run(s, agent, n).scored) <= 2 * |Run(s, agent, n).scored| <= 2 * n
  {
    TotalCleanBound(Run(s, agent, n).scored);
  }

  /** The sucky agent never fails, stays where it is, and after its first
      round the world never changes again: every scored state is the start
      with the agent's square cleaned. */
  lemma {:induction false} SuckyRun(s: WorldState, n: nat)
    requires WellFormed(s)
    ensures Run(s, SuckyDecide, n).error.None?
    ensures forall i :: 0 <= i < n ==> Run(s, SuckyDecide, n).scored[i] == Step(s, Suck).value
    decreases n
  {
    if n > 0 {
      var next := Step(s, Suck).value;
      SuckIdempotent(s);
      SuckyRun(next, n - 1);
    }
  }

  /** The sucky agent's score after n rounds: n points for its own square,
      plus n more if the other square started clean. */
  lemma SuckyScore(s: WorldState, n: nat)
    requires WellFormed(s)
    ensures TotalClean(Run(s, SuckyDecide, n).scored) == n * (1 + CleanAt(s.dirtStatus, Other(s.agentLocation)))
  {
    SuckyRun(s, n);
    var sucked := Step(s, Suck).value;
    assert CleanCount(sucked.dirtStatus) == 1 + CleanAt(s.dirtStatus, Other(s.agentLocation)) by {
      if s.agentLocation == A {} else {}
    }
    TotalCleanConstant(Run(s, SuckyDecide, n).scored, 1 + CleanAt(s.dirtStatus, Other(s.agentLocation)));
  }

  /** The body of the loop in `run_experiment`: one round, played on the
      objects. On failure it changes neither object; on success the
      environment is in the round's next state and the evaluator has scored
      it. */
  method PlayRound(environment: BasicVacuumWorld, agent: Agent, evaluator: CleanFloorEvaluator)
    returns (err: Option<ExperimentError>)
    requires environment.Valid() && evaluator.Valid()
    modifies environment, evaluator
    ensures environment.Valid() && evaluator.Valid()
    ensures Round(old(environment.State()), agent).Failed? ==>
              && err == Some(Round(old(environment.State()), agent).error)
              && environment.State() == old(environment.State())
              && evaluator.Seen == old(evaluator.Seen) && evaluator.score == old(evaluator.score)
    ensures Round(old(environment.State()), agent).Stepped? ==>
              && err == None
              && environment.State() == Round(old(environment.State()), agent).next
              && evaluator.Seen == old(evaluator.Seen) + [environment.State()]
              && evaluator.score == old(evaluator.score) + CleanCount(environment.State().dirtStatus)
  {
    var decision := agent(environment.ObservableState());
    if decision.Failure? {
      return Some(ExperimentError(DecideFailureComponent(decision.error), decision.error));
    }
    var updateError := environment.Update(decision.value);
    if updateError.Some? {
      return Some(ExperimentError(UpdateFailureComponent(updateError.value), updateError.value));
    }
    evaluator.Update(environment.State());
    return None;
  }

  /** One round of the loop, in the middle of a run: on failure the run
      ends here with that round's error; otherwise the round's state is
      scored and the run goes on with one round fewer. */
  method PlayResumedRound(environment: BasicVacuumWorld, agent: Agent, evaluator: CleanFloorEvaluator,
                          ghost trial: Trial, ghost scored: seq<WorldState>, ghost m: nat)
    returns (err: Option<ExperimentError>)
    requires environment.Valid() && evaluator.Valid() && m > 0
    requires Resumes(trial, scored, environment.State(), agent, m)
    modifies environment, evaluator
    ensures environment.Valid() && evaluator.Valid()
    ensures err.Some? ==> trial == Trial(scored, err, environment.State()) && evaluator.Seen == old(evaluator.Seen)
    ensures err.None? ==> && evaluator.Seen == old(evaluator.Seen) + [environment.State()]
                          && Resumes(trial, scored + [environment.State()], environment.State(), agent, m - 1)
  {
    ghost var current := environment.State();
    err := PlayRound(environment, agent, evaluator);
    if err.Some? {
      ResumesFail(trial, scored, current, agent, m);
    } else {
      ResumesStep(trial, scored, current, agent, m);
    }
  }

  /** `run_experiment(environment, agent, evaluator)`: the environment ends
      in the run's final state, the evaluator has been updated with exactly
      the scored states, and the error (if any) is the one that stopped it. */
  method RunExperiment(environment: BasicVacuumWorld, agent: Agent, evaluator: CleanFloorEvaluator)
    returns (err: Option<ExperimentError>)
    requires environment.Valid() && evaluator.Valid()
    modifies environment, evaluator
    ensures environment.Valid() && evaluator.Valid()
    ensures var trial := Run(old(environment.State()), agent, NumSteps());
            && err == trial.error
            && environment.State() == trial.final
            && evaluator.Seen == old(evaluator.Seen) + trial.scored
            && evaluator.score == old(evaluator.score) + TotalClean(trial.scored)
  {
    ghost var trial := Run(environment.State(), agent, NumSteps());
    ghost var scored: seq<WorldState> := [];
    ResumesStart(environment.State(), agent, NumSteps());
    for t := 1 to NumSteps() + 1
      invariant environment.Valid() && evaluator.Valid()
      invariant evaluator.Seen == old(evaluator.Seen) + scored
      invariant Resumes(trial, scored, environment.State(), agent, NumSteps() - (t - 1))
    {
      err := PlayResumedRound(environment, agent, evaluator, trial, scored, NumSteps() - (t - 1));
      if err.Some? {
        TotalCleanAppend(old(evaluator.Seen), scored);
        return;
      }
      scored := scored + [environment.State()];
    }
    ResumesEnd(trial, scored, environment.State(), agent);
    TotalCleanAppend(old(evaluator.Seen), scored);
    return None;
  }
}
