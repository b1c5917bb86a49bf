# Vacuum world simulator, modelled in Dafny

This project models the simulator in `practical_02/vacuum_world.py`. It
covers the two-square vacuum world of AIMA, page 38, and the machinery that
scores an agent in it:

- **`BasicVacuumWorld`** (module `World`). The environment: the agent
  stands on square A or B, and each square is dirty or clean. The
  constructor validates its two arguments and converts the dirt strings.
  `update` applies `SUCK`, `RIGHT` or `LEFT` and raises `ValueError` for
  anything else. `observable_state` is what the agent perceives. The pure
  functions `InitState`, `Step` and `Observe` are the specification. The
  class `BasicVacuumWorld` holds the location and the dirt dictionary as
  fields that its methods reassign.
- **Dirt strings** (module `DirtStrings`). `_convert_to_dirt_status` and
  its twin `_strtobool` lower-case a string and classify it as dirty, clean
  or an error.
- **`CleanFloorEvaluator`** (module `Evaluation`). An accumulator that adds
  the number of clean squares of each state it is shown.
- **`run_experiment`** (module `Experiment`). Up to 1000 rounds of agent
  decision, environment update and evaluator update. The first failure stops
  the run and becomes an `ExperimentError` that blames the agent or the
  environment. `Run` specifies the run as a function, and `RunExperiment`
  is the loop over the two objects. `SuckyAgent.decide` is `SuckyDecide`.
- **`_extract_environment_args`** (module `EnvArgs`). It groups
  `--env-NAME value ...` tokens into a dictionary. `Extract` is the
  specification, and `ExtractEnvironmentArgs` is the nested-loop method.

Exceptions are values. An operation that can raise returns a `Result`
(module `Exceptions`), or an `Option` holding the exception when it has no
other result (`BasicVacuumWorld.Update`, `RunExperiment`). The error is the
exception it would raise:
`ValueError`, argparse's `ArgumentTypeError`, or any other exception
(`OtherError`). Each error carries the exception's first argument.

## Model

| member | source | states |
|---|---|---|
| `DirtStrings.ToLower` | practical_02/vacuum_world.py:163 | `str.lower()` keeps the length, lower-cases each ASCII capital and leaves no capital behind |
| `DirtStrings.ToLowerIdempotent` | practical_02/vacuum_world.py:163 | lower-casing twice gives the same result as lower-casing once |
| `DirtStrings.DirtyCleanDisjoint` | practical_02/vacuum_world.py:27-28 | no spelling is both dirty and clean, so the classification is well defined |
| `DirtStrings.ConvertToDirtStatus` | practical_02/vacuum_world.py:161-171 | true exactly when the lower-cased string is a dirty spelling, false exactly when it is a clean one, otherwise ValueError with "Invalid dirt status string: " followed by the lower-cased string |
| `DirtStrings.StrToBool` | practical_02/vacuum_world.py:286-295 | fails exactly on strings that are neither spelling, raising ArgumentTypeError with the same message |
| `DirtStrings.StrToBoolAgreesWithConvert` | practical_02/vacuum_world.py:286-295 | the two classifiers succeed on the same strings with the same value, and on failure they carry the same message; only the exception kind differs |
| `DirtStrings.ConvertIgnoresCase` | practical_02/vacuum_world.py:162-171 | a string and its lower-cased form classify identically, under both classifiers |
| `World.ParseLocation` | practical_02/vacuum_world.py:100-101 | a location name is accepted exactly when it is "A" or "B" |
| `World.LocationNameRoundTrip` | practical_02/vacuum_world.py:85 | parsing and naming locations are inverse in both directions |
| `World.WellFormedBothKeys` | practical_02/vacuum_world.py:108-109 | a world is well formed exactly when both A and B carry a dirt flag |
| `World.InitState` | practical_02/vacuum_world.py:97-110 | ValueError(agent_location) unless there is exactly one location; ValueError(location) unless it is A or B; ValueError(dirt_status) unless there are exactly two dirt strings; otherwise the first failing conversion's error, A's string first; on success A gets the first converted flag, B the second, and the agent is on the named square |
| `World.DefaultInit` | practical_02/vacuum_world.py:88 | the default arguments put the agent on A with both squares dirty |
| `World.Step` | practical_02/vacuum_world.py:144-159 | succeeds exactly for LEFT, RIGHT and SUCK, otherwise raises ValueError(action); a success keeps both flags present |
| `World.SuckCleansCurrentSquare` | practical_02/vacuum_world.py:152-153 | SUCK clears the current square's flag, keeps the other square's flag and the location, and the new percept reports no dirt |
| `World.SuckIdempotent` | practical_02/vacuum_world.py:152-153 | sucking twice has the same effect as sucking once |
| `World.MovesKeepDirt` | practical_02/vacuum_world.py:154-157 | RIGHT puts the agent on B and LEFT on A, leaving every flag unchanged; repeating either changes nothing more |
| `World.CleanStaysClean` | practical_02/vacuum_world.py:79-81 | no action makes a clean square dirty |
| `World.StepChangesOneThing` | practical_02/vacuum_world.py:152-157 | a successful action changes either the location or the flags, never both, and never the other square's flag |
| `World.ObserveAfterMove` | practical_02/vacuum_world.py:139-142 | after a move, the percept gives the new square and that square's own flag |
| `World.BasicVacuumWorld.ObservableState` | practical_02/vacuum_world.py:129-142 | the percept is the agent's location paired with that location's dirt flag in the current state |
| `World.BasicVacuumWorld.New` | practical_02/vacuum_world.py:88-110 | the constructor raises exactly the error `InitState` gives; otherwise it yields a fresh, well-formed world in `InitState`'s state |
| `World.BasicVacuumWorld.Update` | practical_02/vacuum_world.py:144-159 | the new state is `Step` of the old one; a rejected action returns its ValueError and changes nothing |
| `Evaluation.CleanCount` | practical_02/vacuum_world.py:190 | the number of False flags is A's clean share plus B's, so at most 2 |
| `Evaluation.CleanSquaresByFlags` | practical_02/vacuum_world.py:190 | the clean-square set has exactly as many members as the two per-square shares add up to |
| `Evaluation.TotalCleanBound` | practical_02/vacuum_world.py:192-198 | after n states the score is at most 2·n |
| `Evaluation.TotalCleanMonotone` | practical_02/vacuum_world.py:182-190 | the score never decreases as more states are seen |
| `Evaluation.TotalCleanSnoc` | practical_02/vacuum_world.py:190 | each update adds exactly the clean count of its state |
| `Evaluation.TotalCleanAppend` | practical_02/vacuum_world.py:182-190 | the score over two stretches of states seen one after the other is the sum of their scores |
| `Evaluation.TotalCleanConstant` | practical_02/vacuum_world.py:192-198 | n states with the same clean count c score c·n |
| `Evaluation.CleanFloorEvaluator.constructor` | practical_02/vacuum_world.py:179-180 | the score starts at 0, with no states seen |
| `Evaluation.CleanFloorEvaluator.Score` | practical_02/vacuum_world.py:192-198 | the score is the clean count summed over every state seen, between 0 and 2 per state |
| `Evaluation.CleanFloorEvaluator.Update` | practical_02/vacuum_world.py:182-190 | adds the state's clean count, which is between 0 and 2, and keeps the score equal to the total over all states seen |
| `Experiment.ComponentName` | practical_02/vacuum_world.py:52-67 | the tag is "agent" exactly for the agent and "environment" exactly for the environment |
| `Experiment.SuckyDecide` | practical_02/vacuum_world.py:205-211 | the sucky agent never raises and always returns SUCK, a legal action |
| `Experiment.DecideFailureComponent` | practical_02/vacuum_world.py:53-60 | a ValueError from `decide` blames the environment; any other exception blames the agent |
| `Experiment.UpdateFailureComponent` | practical_02/vacuum_world.py:62-67 | a ValueError from `update` blames the agent; any other exception blames the environment |
| `Experiment.FailureTablesOpposite` | practical_02/vacuum_world.py:52-67 | for every exception, the two tables blame opposite components |
| `Experiment.Round` | practical_02/vacuum_world.py:52-68 | a failed round whose `decide` failed is tagged by the decide table; a failed round whose `decide` succeeded failed on an action outside LEFT/RIGHT/SUCK and blames the agent with ValueError(action); a round that steps leaves a well-formed world |
| `Experiment.RoundDecidesThenSteps` | practical_02/vacuum_world.py:52-68 | a failing `decide` always fails the round with its table's tag; after a successful `decide` the round steps exactly when the action is legal, and it steps to `Step`'s successor of the current state |
| `Experiment.Run` | practical_02/vacuum_world.py:51-68 | at most n rounds complete; the run ends without error exactly when all n rounds complete |
| `Experiment.RunStopsAtFailure` | practical_02/vacuum_world.py:51-67 | the run ends in the state its last completed round left; an error means the next round from there fails with that error, and no round runs after it |
| `Experiment.RunChains` | practical_02/vacuum_world.py:51-68 | each scored state is the successor, under one round, of the state before it |
| `Experiment.RunScoreBound` | practical_02/vacuum_world.py:68 | a run adds at most 2 points per completed round, hence at most 2·n |
| `Experiment.SuckyRun` | practical_02/vacuum_world.py:201-211 | the sucky agent never fails, and every scored state is the start state with the agent's square cleaned |
| `Experiment.SuckyScore` | practical_02/vacuum_world.py:201-211 | over n rounds the sucky agent scores n points, plus n more if the other square started clean |
| `Experiment.PlayRound` | practical_02/vacuum_world.py:53-68 | one loop body on the objects: on failure neither object changes; on success the world is in the round's next state and the evaluator has scored it |
| `Experiment.PlayResumedRound` | practical_02/vacuum_world.py:51-68 | one loop body in the middle of a run: a failure ends the run in the current state with that round's error and scores nothing; a success scores the new state and leaves the rest of the run one round shorter |
| `Experiment.RunExperiment` | practical_02/vacuum_world.py:37-68 | after the 1000-round loop the error, the world's final state and the evaluator's states and score all equal those of `Run` over 1000 rounds |
| `EnvArgs.ParamName` | practical_02/vacuum_world.py:334 | the key is the flag minus its six-character prefix, character by character, with each '-' turned into '_', so no '-' is left in it |
| `EnvArgs.GroupEnd` | practical_02/vacuum_world.py:337-342 | the group is the maximal run of leading tokens that are not flags: none before the end index is a flag, and the token at the end index is a flag |
| `EnvArgs.ExtractFailsIff` | practical_02/vacuum_world.py:331-333 | the extraction fails exactly when the first token is not a flag, and it fails with ValueError(that token) |
| `EnvArgs.ExtractEmpty` | practical_02/vacuum_world.py:330-331 | empty input gives an empty dictionary |
| `EnvArgs.ExtractKeys` | practical_02/vacuum_world.py:329-349 | the dictionary's keys are exactly the names of the flags in the input |
| `EnvArgs.ExtractValuesHaveNoFlags` | practical_02/vacuum_world.py:337-343 | no value contains a flag |
| `EnvArgs.ExtractLastGroupWins` | practical_02/vacuum_world.py:343 | a repeated name keeps the group after its last flag |
| `EnvArgs.ExtractEnvironmentArgs` | practical_02/vacuum_world.py:329-349 | the nested loops compute `Extract`; the outer loop terminates because each iteration shortens the remaining tokens |

## Left out

- `main`, the logging set-up and the log messages in `run_experiment` are left out because they are I/O only.
- `_parse_arguments` is left out because it wraps argparse, which is not part of this model. Only `_extract_environment_args`, which it calls, is modelled.
- `_load_class` and `_try_load_class` are left out because they do dynamic imports, a `globals()` lookup and `sys.exit`.
- `RandomAgent` and `RationalAgent` are left out because their `decide` bodies are empty stubs.
- `NUM_TRIALS` is left out because it is unused; the loop bound 1000 is written in the loop itself.
- DirtStrings.ToLower: only ASCII letters are lower-cased. Python's `str.lower` also maps other Unicode capitals. That does not change which strings are accepted, but it can change the text of the error message.
- World.BasicVacuumWorld.State: returns a copy of the state. In the source, the `state` dictionary shares the environment's live `dirt_status` dictionary; that aliasing is not modelled.
- Experiment.RunExperiment: an agent is a pure function from percept to decision. Agents with their own state or randomness are not modelled. A decision that is not a string (such as None) is not modelled either.
- Experiment.RunExperiment: the environment is always `BasicVacuumWorld`, whose `update` raises only ValueError. The blame for other exceptions from `update` is therefore stated only in `UpdateFailureComponent`.
- Experiment.RunExperiment: an `ExperimentError` is returned as a value instead of being raised.
- World.InitState: its arguments are sequences of strings. A constructor call whose sequences hold non-strings is not modelled. In Python a non-string dirt string raises AttributeError from `lower`, and a non-string location raises ValueError(location). An argument that is not a sequence at all, which raises TypeError from `len`, is not modelled either.
- World.Observe: `observable_state` could raise KeyError for a location without a flag. A constructed world always has both flags, so the model requires that. In `run_experiment` such a KeyError would be raised inside the `try` around `decide` and tagged 'agent'.
