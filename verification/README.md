# Boids flocking app: a verified model of its control core

The FinalProject app simulates a flock of boids in a periodic box. Around the
force law sits a control layer, and that layer is what this project models:

- **Parameter set** (`parameters.dfy`, module `ParameterSet`). It holds the live
  parameter values, which the simulation reads, and a committed `save*`
  snapshot, which `reset()` restores. The domain centre and the start point are
  vector objects. The model keeps them as `Vector2` objects, because copying a
  vector and aliasing one behave differently.
- **Periodic boundary** (`pbc.dfy`, module `PeriodicBoundary`). It shifts each
  component of a position or distance vector by at most one domain extent.
- **Speed controller** (`speedcontroller.dfy`, module `SpeedControl`). It builds
  the slider's snap points from N using JavaScript's `>>` on ToInt32(N), moves
  clashing points apart, and sets `speed` from play, pause or the snap point
  nearest the handle.
- **Statistics recorder** (`statistics.dfy`, module `Statistics`). It holds the
  series in the data controller. In the first realization each completed
  timestep appends an entry. In later realizations the same entry is overwritten
  by an incremental mean.
- **Flocking field** (`flocking.dfy`, module `Field`). It holds the boids and
  repellants, the per-boid `updated` flags, the batched `updateBoids` pass,
  `restart`, and the recording of a completed timestep.
- **Experiment program** (`runcontroller.dfy`, module `Interpreter`). A program is
  a list of steps: Run, Then, ChangeParameter, Repeat and ResetParams. It runs on
  the counters `run` (the program counter), `runNum`, `numRuns` and
  `realizations`. `nextRunStep` interprets steps until it starts a run or walks
  off the end of the program. Every call halts, because element 0 is always a
  run step.
- **Scheduler** (`scheduler.dfy`, module `Scheduler`). It models the
  update-batching loop of the field's `draw`, the max-speed loop up to its
  first yield, and timestep completion with its hand-back to the interpreter at the end of a
  run. It is a separate module because Dafny modules cannot import each other in
  a cycle, whereas the field and the run controller call each other.
- **Helper modules.** `jsnumbers.dfy` (module `JsNumbers`) covers the JavaScript
  number semantics the code relies on: how many times `for (i = 0; i < x; i++)`
  runs for a real `x`, ToInt32, and `>>`. `vectors.dfy` holds the vector value
  and object types. `wrappers.dfy` holds `Option`.

Each stateful source class becomes a Dafny class with the same fields. Each
method is proved against a pure function of the old state:
`Pass` for `updateBoids`, `Record` for the recorder, `ApplyStep`/`Interpret` for
the interpreter, `SnapPointsFor`, `ResolvePass`/`SettledSnapPoints` and `Nearest` for the speed
controller, and
`With`/`Committed`/`ChangeLive` for the parameter set. Lemmas then state what the
source promises about those functions.

JavaScript's `undefined` is written `None`. This covers:

- a run element whose duration was never chosen;
- a Repeat's `times` and `timesLeft`, which the element never declares;
- the run controller's `numRuns`, which is never initialised.

The model reproduces what these values do in the code:

- `runNum > numRuns` is false, so `numRuns` stays undefined.
- An undefined `timesLeft` is never 0 and never positive, so every Repeat jumps
  back to element 0.
- An undefined run length never ends a run. The recorder's index is then NaN,
  which writes nothing.

### Behaviour of the code that the model keeps

- A ChangeParameter step changes only the live value, never the committed
  snapshot (`runcontroller.ts:136-349`).
- A run step advances the program counter as soon as it starts the run
  (`runcontroller.ts:130`), so a later call continues after it.
- Boids are updated in place, so a boid's update reads peers already moved in
  the same timestep (`flocking.ts:107-113`). The model passes the current,
  partly updated boid sequence to the force law.
- A Repeat's remaining count is decremented whenever it is positive
  (`runcontroller.ts:357-359`). This does not depend on whether `times` is
  finite.
- With zero boids and a positive speed, every request of the batching loop in
  `draw` gets no update, so every turn completes a timestep
  (`flocking.ts:256-270`). The loop is left only if one of those completions
  ends a run and the interpreter refills the field; otherwise it never exits.
- `pause()` sets `speed` to the last snap point's *position*, not its value 0
  (`speedcontroller.ts:58`). The model keeps this (`Paused()`).
- The data controller file declares plain arrays for only some parameters. The
  field, however, writes series for all sixteen parameters
  (`flocking.ts:182-203`). The model keys the parameter series by parameter
  name, as the field uses them.

## Model

| member | source | states |
|---|---|---|
| ParameterSet.Parameters.constructor | FinalProject/src/parameters.ts:151-179 | live and saved values both equal the parsed initial values; the saved centre and start are separate fresh copies, not aliases of the live vectors |
| ParameterSet.Parameters.SetLive | FinalProject/src/parameters.ts:181-267 | the change handler's first assignment: exactly the named live value becomes the new value (a vector component is set in place on the live vector), the snapshot is untouched |
| ParameterSet.Parameters.Save | FinalProject/src/parameters.ts:181-267 | the handler's save: a scalar copies its live value into the snapshot, a vector component saves a fresh clone of the whole live vector; live values unchanged |
| ParameterSet.Committed | FinalProject/src/parameters.ts:205-227 | committing a centre or start component saves the new value and the other component's current live value; every other saved value stays |
| ParameterSet.Parameters.Commit | FinalProject/src/parameters.ts:181-267 | a commit sets live to the edited values and saved to `Committed`; it reports a restart exactly for N, R, width, height and the centre and start components |
| ParameterSet.Parameters.Reset | FinalProject/src/parameters.ts:273-288 | every live value becomes its saved value, the snapshot is unchanged, and the live centre and start are fresh objects |
| ParameterSet.ResetIdempotent | FinalProject/src/parameters.ts:273-288 | resetting twice leaves the same live and saved values as resetting once |
| ParameterSet.ResetThenEditCenter | FinalProject/src/parameters.ts:278-279 | after a reset, an in-place edit of the live centre leaves the snapshot unchanged |
| ParameterSet.Selected | FinalProject/src/simulation/controllers/runcontroller/runcontroller.ts:138-347 | a recognised selector string names the parameter it is the select-box string of; any other string names none |
| ParameterSet.SelectorRoundTrip | FinalProject/src/simulation/controllers/runcontroller/elements/changeparameterelement.ts:43-47 | each of the sixteen offered select-box strings selects its own parameter ('vlim' selects vlimit) |
| ParameterSet.ChangeLive | FinalProject/src/simulation/controllers/runcontroller/runcontroller.ts:136-349 | a ChangeParameter step applies its operation to exactly the named parameter; all others stay; an unknown name or a division by 0 changes nothing |
| ParameterSet.Parameters.Change | FinalProject/src/simulation/controllers/runcontroller/runcontroller.ts:136-349 | the live values become `ChangeLive` of the old ones; the snapshot and all four vector objects are kept |
| PeriodicBoundary.Wrap | FinalProject/src/utils/pbc2vec.ts:15-19 | one axis moves by exactly one of 0, -w or +w, and a component inside [c - w/2, c + w/2] is unchanged |
| PeriodicBoundary.WrapDirection | FinalProject/src/utils/pbc2vec.ts:15-18 | above c + w/2 a component becomes x - w; below c - w/2 it becomes x + w |
| PeriodicBoundary.WrapInRange | FinalProject/src/utils/pbc2vec.ts:15-24 | for w > 0, an input within 3w/2 of the centre lands in [c - w/2, c + w/2] |
| PeriodicBoundary.WrapIdempotent | FinalProject/src/utils/pbc2vec.ts:15-24 | under the same condition, wrapping twice equals wrapping once |
| PeriodicBoundary.WrapCenter | FinalProject/src/utils/pbc2vec.ts:11-14 | 'position' vectors wrap about the domain centre, every other kind about the origin |
| PeriodicBoundary.ApplyPBC2Vector | FinalProject/src/utils/pbc2vec.ts:10-24 | the vector's x and y become their independent wraps about that centre, with the width and height |
| JsNumbers.CountBelowCounts | FinalProject/src/simulation/flocking.ts:55-60 | `for (i = 0; i < x; i++)` runs exactly `CountBelow(x)` times: the ceiling of x for x > 0, none otherwise |
| SpeedControl.ShrPositive | FinalProject/src/simulation/controllers/speedcontroller.ts:79 | `N >> k > 0` holds exactly while k is below the bit length of ToInt32(N), and never for N <= 0 |
| SpeedControl.SpeedController.BuildSnapPoints | FinalProject/src/simulation/controllers/speedcontroller.ts:64-91 | the push loop builds exactly `SnapPointsFor(width, N)`, labels included |
| SpeedControl.SnapPointsShape | FinalProject/src/simulation/controllers/speedcontroller.ts:66-91 | the list is 'Max' (value -1, right end), '2x' (value 2N), one tick per bit of N, then 'Paused' (value 0, left end): 3 + bit length points |
| SpeedControl.TickValues | FinalProject/src/simulation/controllers/speedcontroller.ts:78-90 | the tick values are at least 1, strictly decreasing, and the last one is 1 |
| SpeedControl.TickLabelSpelled | FinalProject/src/simulation/controllers/speedcontroller.ts:80-87 | tick k is labelled "1x" for k = 0 and "1/2^kx" after |
| SpeedControl.SpeedController.CheckAndResolveSnapConflicts | FinalProject/src/simulation/controllers/speedcontroller.ts:108-123 | the list becomes `ResolvePass` of the old list (every ordered pair in turn, on the list as changed so far, moves the greater-valued of two clashing points right by 1); reports true exactly when the old list has a clash; no clash means no change |
| SpeedControl.SpeedController.ResolveRowInPlace | FinalProject/src/simulation/controllers/speedcontroller.ts:111-119 | the inner scan of point i becomes `ResolveRow`; it sees a clash exactly when point i clashes with some point of the list it started on, and otherwise changes nothing |
| SpeedControl.ResolvePassMoved | FinalProject/src/simulation/controllers/speedcontroller.ts:108-123 | a pass keeps length, order, values and captions, and only moves positions right |
| SpeedControl.ResolvePassSettled | FinalProject/src/simulation/controllers/speedcontroller.ts:108-123 | a pass over a list without clashes changes nothing |
| SpeedControl.PassesSettled | FinalProject/src/simulation/controllers/speedcontroller.ts:92-100 | once a pass finds no clash, more passes change nothing, so breaking out early gives the same list as running all 401 passes |
| SpeedControl.PassesMoved | FinalProject/src/simulation/controllers/speedcontroller.ts:92-100 | any number of passes only moves positions right |
| SpeedControl.SettledSnapPoints | FinalProject/src/simulation/controllers/speedcontroller.ts:63-102 | the resolved list is the built list with positions only moved right |
| SpeedControl.SpeedController.UpdateSnapPoints | FinalProject/src/simulation/controllers/speedcontroller.ts:63-102 | the list becomes `SettledSnapPoints`: the built list after 401 passes, which is also what stopping at the first pass without a clash leaves; at most 401 passes; a settled list has no clash |
| SpeedControl.SpeedController.constructor | FinalProject/src/simulation/controllers/speedcontroller.ts:31-43 | snap points are `SettledSnapPoints` for N, then paused: handle and speed at the last point's position |
| SpeedControl.PlayValue | FinalProject/src/simulation/controllers/speedcontroller.ts:48-51 | the third point, which play selects, has value N for N >= 1 and 0 otherwise |
| SpeedControl.SpeedController.Play | FinalProject/src/simulation/controllers/speedcontroller.ts:48-51 | handle and speed take the third point's position and value |
| SpeedControl.SpeedController.Pause | FinalProject/src/simulation/controllers/speedcontroller.ts:56-59 | handle and speed both take the last point's position |
| SpeedControl.NearestIsNearest | FinalProject/src/simulation/controllers/speedcontroller.ts:166-173 | the frame's scan selects a point at least as near the handle as every other, and strictly nearer than every earlier one |
| SpeedControl.NearestUnique | FinalProject/src/simulation/controllers/speedcontroller.ts:166-173 | there is exactly one such nearest-and-earliest point |
| SpeedControl.SpeedController.ClosestSnapPoint | FinalProject/src/simulation/controllers/speedcontroller.ts:165-173 | the scan loop returns that nearest-and-earliest point |
| SpeedControl.SpeedController.Frame | FinalProject/src/simulation/controllers/speedcontroller.ts:153-186 | the snap points become `SettledSnapPoints` for N; speed becomes the value of the point nearest the old handle; the handle follows the constrained mouse position while dragging, else snaps to that point |
| Statistics.EmptySeries | FinalProject/src/simulation/controllers/datacontroller.ts:37-49 | a new recorder has every series present and empty |
| Statistics.DataController.constructor | FinalProject/src/simulation/controllers/datacontroller.ts:35-61 | the controller starts with empty series and `numRuns` undefined |
| Statistics.RunningMean | FinalProject/src/simulation/flocking.ts:207-214 | the weighted update lies between the stored value and the sample, and keeps the stored value when they are equal |
| Statistics.AveragedIsMean | FinalProject/src/simulation/flocking.ts:205-215 | appending once and folding in each later realization with weights 1 - 1/r and 1/r gives the arithmetic mean of all samples |
| Statistics.RecordIndexBlock | FinalProject/src/simulation/flocking.ts:206 | for a positive run length m, timestep t of run n addresses an entry in [(n-1)m, nm) |
| Statistics.RecordIndexInjective | FinalProject/src/simulation/flocking.ts:206 | distinct (run, timestep) pairs of such runs address distinct entries |
| Statistics.UpdatedAt | FinalProject/src/simulation/flocking.ts:207-214 | only the addressed in-range entry changes, to the running mean; a NaN or negative index changes nothing |
| Statistics.AppendParams | FinalProject/src/simulation/flocking.ts:185-204 | every parameter series gets the live value of its parameter appended; no series added or dropped |
| Statistics.FirstRealizationAppends | FinalProject/src/simulation/flocking.ts:181-204 | in the first realization the timestep and both samples are appended to their series, old entries kept; parameter series grow only at timestep 1 |
| Statistics.LaterRealizationUpdatesOneEntry | FinalProject/src/simulation/flocking.ts:205-215 | in later realizations nothing grows, timesteps and parameter series are untouched, and only the indexed entry changes, to the running mean |
| Statistics.EqualSampleKeepsSeries | FinalProject/src/simulation/flocking.ts:205-215 | a sample equal to the stored entries leaves every series unchanged |
| Statistics.RecordKeepsMean | FinalProject/src/simulation/flocking.ts:205-215 | an entry that held the mean of r - 1 samples holds the mean of all r after realization r is recorded |
| Field.Spawned | FinalProject/src/simulation/objects/boid.ts:21-29 | a new boid is not updated, sits at start + P·(normal draws), and moves at V·(normal draws) |
| Field.PlacedInDomain | FinalProject/src/repellant.ts:14-20 | with uniform draws in [0, 1), a repellant lies inside the domain box |
| Field.Flocking.constructor | FinalProject/src/simulation/flocking.ts:32-46 | no boids or repellants, timestep 0, run length -1, not playing at max speed |
| Field.Flocking.Restart | FinalProject/src/simulation/flocking.ts:51-61 | timestep 0; one fresh, not-updated boid per integer below N and one repellant per integer below R, from a new draw |
| Field.Flocking.UpdateBoids | FinalProject/src/simulation/flocking.ts:105-118 | the boids become those of `Pass` over the old boids, with the force law given the repellants, the live parameters, the population and the timestep; the result is the request minus the number processed |
| Field.PassFacts | FinalProject/src/simulation/flocking.ts:105-118 | a pass processes min(pending, loop count of amount) boids in array order; it never touches an updated boid or clears a flag; processing none changes nothing |
| Field.Deficit | FinalProject/src/simulation/flocking.ts:105-118 | a pass processes min(pending, loop count) boids and leaves that many fewer pending, changing nothing when it processes none; `updateBoids` returns its whole input exactly when no boid is pending or the input is not positive; for a whole input >= 0 the result is in [0, input] |
| Field.EmptyFieldProcessesNothing | FinalProject/src/simulation/flocking.ts:105-118 | with no boids a pass processes nothing, whatever it is asked |
| Field.Flagged | FinalProject/src/simulation/flocking.ts:124-128 | every flag becomes the given value; length and kinematics unchanged |
| Field.Flocking.SetBoidsUpdated | FinalProject/src/simulation/flocking.ts:124-128 | the boids become `Flagged` of the old boids |
| Field.Flocking.CalculateOutputValues | FinalProject/src/simulation/flocking.ts:181-215 | the series become `Record` of the old series with the current sample, realization, run number and run length |
| Interpreter.Rearmed | FinalProject/src/simulation/controllers/runcontroller/runcontroller.ts:367-372 | every Repeat's remaining count becomes its `times`; other elements unchanged |
| Interpreter.ApplyStep | FinalProject/src/simulation/controllers/runcontroller/runcontroller.ts:132-375 | a non-run step keeps the program length, the run elements and the snapshot, and moves the counter on by one or, on a Repeat jump, to 0 |
| Interpreter.InterpretShape | FinalProject/src/simulation/controllers/runcontroller/runcontroller.ts:111-376 | a call ends past the end or just after the run element whose duration it reports; the program keeps its length and all non-Repeat elements; the snapshot is unchanged; realizations never decrease |
| Interpreter.RunNumbering | FinalProject/src/simulation/controllers/runcontroller/runcontroller.ts:121-126 | starting a run raises `runNum` by one (to 1 after a reset); `numRuns` is a high-water mark of `runNum` and stays undefined if undefined |
| Interpreter.RepeatCounts | FinalProject/src/simulation/controllers/runcontroller/runcontroller.ts:351-372 | Repeat elements keep lines and times; their remaining counts never rise without a reset and are at most `times` after one |
| Interpreter.RepeatJumpStartsFirstRun | FinalProject/src/simulation/controllers/runcontroller/runcontroller.ts:351-362 | a Repeat whose count is not 0 restarts the first run and leaves the counter at 1 |
| Interpreter.NewSteps | FinalProject/src/simulation/controllers/runcontroller/runcontroller.ts:60-92 | parameter and reset kinds push two elements, the trailing Then first; every other kind pushes one |
| Interpreter.RunController.AddElement | FinalProject/src/simulation/controllers/runcontroller/runcontroller.ts:60-92 | the program grows by `NewSteps(kind)` at its end, `step` by the same count, and the counter is set to 0 |
| Interpreter.RunController.RemoveElementsAfter | FinalProject/src/simulation/controllers/runcontroller/runcontroller.ts:100-106 | exactly the elements 0..index are kept, in order, and `step` becomes index + 1 |
| Interpreter.RunController.RearmRepeats | FinalProject/src/simulation/controllers/runcontroller/runcontroller.ts:367-372 | the program becomes `Rearmed` of the old program |
| Interpreter.RunController.ExecuteStep | FinalProject/src/simulation/controllers/runcontroller/runcontroller.ts:132-375 | the controller's state becomes `ApplyStep` of the old state |
| Interpreter.RunController.Stop | FinalProject/src/simulation/controllers/runcontroller/runcontroller.ts:113-117 | past the end the speed controller is paused and the field repopulated |
| Interpreter.RunController.BeginRun | FinalProject/src/simulation/controllers/runcontroller/runcontroller.ts:121-131 | a run element counts the run, hands its duration to the field, repopulates it and advances the counter |
| Interpreter.RunController.NextRunStep | FinalProject/src/simulation/controllers/runcontroller/runcontroller.ts:111-376 | the new state and outcome are `Interpret` of the old state; past the end nothing but the pause and restart happens; a started run sets the field's run length; `numRuns` reaches the data controller when raised |
| Interpreter.RunController.constructor | FinalProject/src/simulation/controllers/runcontroller/runcontroller.ts:28-54 | the program is one run element with no duration; the initial call starts it: run 1, runNum 1, `step` 1, realizations 1, field repopulated with undefined run length |
| Scheduler.IndefiniteRunNeverEnds | FinalProject/src/simulation/flocking.ts:261 | an undefined or non-positive run length never ends a run |
| Interpreter.InterpretMovesForward | FinalProject/src/simulation/controllers/runcontroller/runcontroller.ts:111-376 | without a Repeat that can jump, a call from element 1 or later never goes back: it ends at or after its start and a run it starts lies after it |
| Scheduler.BumpedSkipsFirstRun | FinalProject/src/simulation/flocking.ts:262-265 | after the bump from 0 to 1, and with no Repeat able to jump, the interpreter call never restarts element 0, the run that just ended; from counter 0 it would restart it |
| Scheduler.AdvanceAndRecord | FinalProject/src/simulation/flocking.ts:258-260 | flags cleared, timestep + 1, and that timestep recorded |
| Scheduler.EndRun | FinalProject/src/simulation/flocking.ts:261-266 | at a run's end the state becomes `Interpret` of the bumped state and the field is repopulated with every flag clear |
| Scheduler.CompleteTimestep | FinalProject/src/simulation/flocking.ts:257-267 | the timestep is recorded; it ends the run exactly when the run length is positive and reached; otherwise only flags and timestep change |
| Scheduler.BatchPass | FinalProject/src/simulation/flocking.ts:268-269 | one request: the boids become `Pass` of the old boids, that many fewer stay pending, and the loop count still owed drops by the number processed |
| Scheduler.CompleteInBatch | FinalProject/src/simulation/flocking.ts:257-267 | after a completion inside the batching loop every boid is pending again |
| Scheduler.DrawBatch | FinalProject/src/simulation/flocking.ts:253-270 | when the loop ends it has made exactly as many boid updates as the loop count of `speed`; if it completed no timestep the boids are one `Pass` of the old boids and the timestep is unchanged; it stops early only on an empty field, after `fuel` + 1 empty completions |
| Scheduler.BurstSize | FinalProject/src/simulation/flocking.ts:79-80 | a burst requests min(N, 300) |
| Scheduler.MaxSpeedBurst | FinalProject/src/simulation/flocking.ts:78-91 | a burst completes a timestep exactly when its `Pass` processes no boid; otherwise only the pass happens; a completion records the timestep, ends the run exactly when the run length is positive and reached, and then the state is `Interpret` of the bumped state and the field is repopulated, else flags are cleared and the timestep advances |
| Scheduler.RunMax | FinalProject/src/simulation/flocking.ts:77-98 | at a negative speed at least one burst runs and at most `extraBursts` + 1 before the clock yield; a loop left before the yield means the speed is no longer negative, and the max-speed flag is cleared; after a yield the flag is kept |
| Scheduler.Draw | FinalProject/src/simulation/flocking.ts:253-274 | at a positive speed the batching loop's guarantees hold and the max-speed flag is kept; at speed 0, or with the max-speed loop already running, nothing changes; a negative speed otherwise starts the max-speed loop, which makes at least one burst at once |

## Left out

- Rendering, the DOM and every p5 `setup`/`draw` drawing call, the graphs, the help panel and the colour controller are left out. They only consume values.
- The boid force law (`updateFromInteractions`) is an opaque function `physics` of the current boid sequence, a `Context` and the boid's index. The context holds the repellants, the live parameter values, the population number and the timestep; those and the index select the boid's fresh noise draws. The law itself uses floating-point square roots and divisions.
- The output geometry of `calculateOutputValues` (centre of mass, radius of gyration, alignment) is an opaque function `observe` of the boids and live values. It uses floating-point trigonometry.
- `randn` and `Math.random` are fixed draw streams indexed by the population number (`generation`) and the boid's index. The model does not state their distributions.
- Real numbers stand for JavaScript doubles: rounding, NaN and infinities are not modelled, except that an undefined run length gives a NaN recorder index, which writes nothing.
- Scheduler.RunMax: the clock is a parameter: `extraBursts` is how many bursts after the first one the 33 ms budget lets through before the loop yields. The bursts after the yield run in later tasks and are not modelled.
- Scheduler.DrawBatch: on an empty field the source keeps completing timesteps in the same call; it leaves the loop when a run end refills the field and otherwise loops for ever. The model follows this for `fuel` empty completions after the first and then returns `stalled`, so the endless loop itself is not modelled.
- Statistics.UpdatedAt: a positive index beyond the series end makes JavaScript lengthen the array with holes and store NaN. The model leaves the series unchanged there.
- ParameterSet.Parameters.Commit: the handlers' call to `flocking.restart()` is returned as the flag `restarts`. The parameter object cannot call the field here without a module cycle.
- The constructors of the step elements are reduced to their data. For a run element this is the duration (undefined until picked). For a parameter element it is operation, name 'N' and amount 1. A Repeat element keeps `lines` 1 and undefined counts. Their DOM handlers are not part of this model, including the run element's edit handler, which re-enters the interpreter.
- The `step` ids passed to new elements are left out. The bookkeeping around a trailing Then leaves `step` at the same value as plain pushes would.
- The centre-of-mass and centre-vector outputs of the data controller, and the graphs it feeds, are left out.
- The HW3 copies of the same logic and the Python scripts are not part of this model.
