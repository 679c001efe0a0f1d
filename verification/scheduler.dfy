/**
 * The field's stepping schedule: each frame asks for `speed` boid updates, made
 * in batches across timesteps; a timestep completes when a batch finds every
 * boid already updated. Completing a timestep records it and, at the end of a
 * finite run, hands control back to the program interpreter.
 */
module Scheduler {
  import opened Wrappers
  import opened JsNumbers
  import opened ParameterSet
  import opened Statistics
  import opened Field
  import opened SpeedControl
  import opened Interpreter

  /** Whether a completed timestep ends the current run: only a positive run length ends runs. */
  predicate RunEnds(maxTimestep: Option<int>, timestep: int)
  {
    maxTimestep.Some? && maxTimestep.value > 0 && timestep >= maxTimestep.value
  }

  /** An indefinite run (length undefined or at most 0) is never ended by the timestep count. */
  lemma IndefiniteRunNeverEnds(maxTimestep: Option<int>, timestep: int)
    requires maxTimestep.None? || maxTimestep.value <= 0
    ensures !RunEnds(maxTimestep, timestep)
  {
  }

  /** Before the interpreter is invoked at a run's end, a counter at 0 is moved to 1. */
  function Bumped(m: Machine): (r: Machine)
    ensures r.pc == (if m.pc == 0 then 1 else m.pc)
    ensures r.(pc := m.pc) == m
  {
    if m.pc == 0 then m.(pc := 1) else m
  }

  /**
   * At a run's end the counter is moved off 0 before the interpreter is called.
   * Unless a Repeat jumps back, the call then never restarts element 0, the
   * run that has just ended; from counter 0 it would restart it.
   */
  lemma BumpedSkipsFirstRun(m: Machine)
    requires WellFormed(m.program) && NoJumpBack(m.program) && m.pc <= 1
    ensures var (r, o) := Interpret(Bumped(m)); o.Started? ==> r.pc >= 2
    ensures var (r, o) := Interpret(m.(pc := 0)); o == Started(m.program[0].duration) && r.pc == 1
  {
    InterpretMovesForward(Bumped(m));
  }

  /** The first half of completing a timestep: clear the flags, advance the timestep, record it. */
  method AdvanceAndRecord(rc: RunController)
    requires rc.Valid()
    modifies rc.flocking`timestep, rc.flocking`boids
    modifies rc.data`timesteps, rc.data`radiusOfGyration, rc.data`alignment, rc.data`params
    ensures rc.flocking.timestep == old(rc.flocking.timestep) + 1
    ensures rc.flocking.boids == Flagged(old(rc.flocking.boids), false)
    ensures rc.data.Contents() ==
      Record(old(rc.data.Contents()), old(rc.flocking.timestep) + 1, rc.realizations, rc.runNum,
             rc.flocking.maxTimestep, rc.flocking.observe(Flagged(old(rc.flocking.boids), false),
             rc.params.Live()), rc.params.Live())
  {
    var fl := rc.flocking;
    fl.SetBoidsUpdated(false);
    fl.timestep := fl.timestep + 1;
    fl.CalculateOutputValues(rc.realizations, rc.runNum);
  }

  /** The end of a finite run: the counter is moved off 0 and the interpreter is called. */
  method EndRun(rc: RunController)
    requires rc.Valid()
    modifies rc`elements, rc`run, rc`runNum, rc`numRuns, rc`realizations
    modifies rc.params, rc.params.center, rc.params.start
    modifies rc.speedController`speed, rc.speedController`handlePosition
    modifies rc.flocking`generation, rc.flocking`timestep, rc.flocking`boids, rc.flocking`repellants
    modifies rc.flocking`maxTimestep, rc.data`numRuns
    ensures rc.Valid()
    ensures rc.State() == Interpret(Bumped(old(rc.State()))).0
    ensures rc.flocking.Populated(old(rc.flocking.generation))
    ensures forall j :: 0 <= j < |rc.flocking.boids| ==> !rc.flocking.boids[j].updated
    ensures rc.params.center == old(rc.params.center) || fresh(rc.params.center)
    ensures rc.params.start == old(rc.params.start) || fresh(rc.params.start)
  {
    if rc.run == 0 {
      rc.run := rc.run + 1;
    }
    ghost var outcome := rc.NextRunStep();
  }

  /**
   * Completes a timestep: clears every flag, advances the timestep and records it.
   * When that ends a finite run, the counter is bumped from 0 to 1 and the
   * interpreter is called, which restarts the field.
   */
  method CompleteTimestep(rc: RunController) returns (ghost ended: bool)
    requires rc.Valid()
    modifies rc`elements, rc`run, rc`runNum, rc`numRuns, rc`realizations
    modifies rc.params, rc.params.center, rc.params.start
    modifies rc.speedController`speed, rc.speedController`handlePosition
    modifies rc.flocking`generation, rc.flocking`timestep, rc.flocking`boids, rc.flocking`repellants
    modifies rc.flocking`maxTimestep
    modifies rc.data`timesteps, rc.data`radiusOfGyration, rc.data`alignment, rc.data`params, rc.data`numRuns
    ensures rc.Valid()
    ensures ended == RunEnds(old(rc.flocking.maxTimestep), old(rc.flocking.timestep) + 1)
    ensures rc.data.Contents() ==
      Record(old(rc.data.Contents()), old(rc.flocking.timestep) + 1, old(rc.realizations), old(rc.runNum),
             old(rc.flocking.maxTimestep), rc.flocking.observe(Flagged(old(rc.flocking.boids), false),
             old(rc.params.Live())), old(rc.params.Live()))
    ensures !ended ==>
      rc.flocking.timestep == old(rc.flocking.timestep) + 1 &&
      rc.flocking.boids == Flagged(old(rc.flocking.boids), false) &&
      rc.flocking.generation == old(rc.flocking.generation) &&
      rc.State() == old(rc.State()) && rc.data.numRuns == old(rc.data.numRuns)
    ensures ended ==>
      rc.State() == Interpret(Bumped(old(rc.State()))).0 &&
      rc.flocking.Populated(old(rc.flocking.generation))
    ensures forall j :: 0 <= j < |rc.flocking.boids| ==> !rc.flocking.boids[j].updated
    ensures rc.params.center == old(rc.params.center) || fresh(rc.params.center)
    ensures rc.params.start == old(rc.params.start) || fresh(rc.params.start)
  {
    var fl := rc.flocking;
    AdvanceAndRecord(rc);
    var runEnds := fl.maxTimestep.Some? && fl.maxTimestep.value > 0 && fl.timestep >= fl.maxTimestep.value;
    ended := runEnds;
    if runEnds {
      EndRun(rc);
    }
  }

  /**
   * One request of the batching loop: a pass for `toUpdate` updates. It reports
   * what is still owed; the loop count of that is the request's less the updates made.
   */
  method BatchPass(fl: Flocking, toUpdate: real) returns (out: real, ghost k: nat)
    modifies fl`boids
    ensures var (bs, n) := Pass(old(fl.boids), fl.CurrentContext(), fl.physics, toUpdate, 0, 0);
      fl.boids == bs && k == n
    ensures k == Min(Pending(old(fl.boids), 0), CountBelow(toUpdate))
    ensures Pending(fl.boids, 0) == Pending(old(fl.boids), 0) - k
    ensures k == 0 ==> fl.boids == old(fl.boids)
    ensures out == toUpdate - k as real && out <= toUpdate
    ensures CountBelow(out) == CountBelow(toUpdate) - k
  {
    k := Pass(fl.boids, fl.CurrentContext(), fl.physics, toUpdate, 0, 0).1;
    Deficit(fl.boids, fl.CurrentContext(), fl.physics, toUpdate);
    out := fl.UpdateBoids(toUpdate);
    CountBelowShift(toUpdate, k);
  }

  /**
   * A completion inside the batching loop, as the loop sees it: afterwards every
   * boid is pending again, whether or not the run ended and the field was refilled.
   */
  method CompleteInBatch(rc: RunController)
    requires rc.Valid()
    modifies rc`elements, rc`run, rc`runNum, rc`numRuns, rc`realizations
    modifies rc.params, rc.params.center, rc.params.start
    modifies rc.speedController`speed, rc.speedController`handlePosition
    modifies rc.flocking`generation, rc.flocking`timestep, rc.flocking`boids, rc.flocking`repellants
    modifies rc.flocking`maxTimestep
    modifies rc.data`timesteps, rc.data`radiusOfGyration, rc.data`alignment, rc.data`params, rc.data`numRuns
    ensures rc.Valid()
    ensures rc.params.center == old(rc.params.center) || fresh(rc.params.center)
    ensures rc.params.start == old(rc.params.start) || fresh(rc.params.start)
    ensures Pending(rc.flocking.boids, 0) == |rc.flocking.boids|
  {
    ghost var ended := CompleteTimestep(rc);
    PendingAllClear(rc.flocking.boids, 0);
  }

  /**
   * The batching loop of one frame at a positive speed. It keeps asking for the
   * updates still owed; a request that gets none completes a timestep. When it
   * ends, it has made exactly as many boid updates as the loop count of `speed`;
   * when it completes no timestep, it has made one pass and left the timestep
   * alone. A completion that leaves the field empty gets no update after it, so
   * the loop goes on only through further completions, one of which may end the
   * run and repopulate the field; the model completes at most `fuel` timesteps on
   * an empty field after the first and then reports a stall.
   */
  method DrawBatch(rc: RunController, fuel: nat)
    returns (stalled: bool, idle: nat, ghost updates: nat, ghost completions: nat)
    requires rc.Valid() && rc.speedController.speed > 0.0
    modifies rc`elements, rc`run, rc`runNum, rc`numRuns, rc`realizations
    modifies rc.params, rc.params.center, rc.params.start
    modifies rc.speedController`speed, rc.speedController`handlePosition
    modifies rc.flocking`generation, rc.flocking`timestep, rc.flocking`boids, rc.flocking`repellants
    modifies rc.flocking`maxTimestep
    modifies rc.data`timesteps, rc.data`radiusOfGyration, rc.data`alignment, rc.data`params, rc.data`numRuns
    ensures rc.Valid()
    ensures rc.params.center == old(rc.params.center) || fresh(rc.params.center)
    ensures rc.params.start == old(rc.params.start) || fresh(rc.params.start)
    ensures stalled ==> |rc.flocking.boids| == 0 && idle == fuel + 1
    ensures !stalled ==> updates == CountBelow(old(rc.speedController.speed)) && idle <= fuel
    ensures idle <= completions
    ensures completions == 0 ==>
      rc.flocking.boids == Pass(old(rc.flocking.boids), old(rc.flocking.CurrentContext()), rc.flocking.physics,
                                old(rc.speedController.speed), 0, 0).0 &&
      rc.flocking.timestep == old(rc.flocking.timestep)
  {
    var fl := rc.flocking;
    var toUpdate := rc.speedController.speed;
    ghost var first := Pass(fl.boids, fl.CurrentContext(), fl.physics, toUpdate, 0, 0);
    var out, k := BatchPass(fl, toUpdate);
    updates, completions, idle := k, 0, 0;
    stalled := false;
    while out > 0.0
      invariant rc.Valid() && rc.flocking == fl
      invariant rc.params.center == old(rc.params.center) || fresh(rc.params.center)
      invariant rc.params.start == old(rc.params.start) || fresh(rc.params.start)
      invariant out <= toUpdate && idle <= fuel && idle <= completions
      invariant updates + CountBelow(out) == CountBelow(old(rc.speedController.speed))
      invariant completions == 0 ==> fl.boids == first.0 && fl.timestep == old(fl.timestep)
      invariant completions == 0 && out > 0.0 && out != toUpdate ==> Pending(fl.boids, 0) == 0
      decreases fuel - idle, 2 * CountBelow(out) + (if out == toUpdate then 0 else 1)
    {
      if out == toUpdate {
        CompleteInBatch(rc);
        completions := completions + 1;
        if |fl.boids| == 0 {
          idle := idle + 1;
          if idle > fuel {
            stalled := true;
            return;
          }
        }
      }
      toUpdate := out;
      out, k := BatchPass(fl, toUpdate);
      updates := updates + k;
    }
  }

  /** The request of a max-speed burst: min(N, 300). */
  function BurstSize(n: real): (r: real)
    ensures r <= 300.0 && r <= n && (r == n || r == 300.0)
  {
    if n <= 300.0 then n else 300.0
  }

  /**
   * One iteration of the max-speed loop: a request for min(N, 300) updates. A
   * request that gets none completes the timestep, recording it and, at the end
   * of a finite run, calling the interpreter; otherwise only the pass happens.
   */
  method MaxSpeedBurst(rc: RunController) returns (ghost completed: bool, ghost ended: bool)
    requires rc.Valid()
    modifies rc`elements, rc`run, rc`runNum, rc`numRuns, rc`realizations
    modifies rc.params, rc.params.center, rc.params.start
    modifies rc.speedController`speed, rc.speedController`handlePosition
    modifies rc.flocking`generation, rc.flocking`timestep, rc.flocking`boids, rc.flocking`repellants
    modifies rc.flocking`maxTimestep
    modifies rc.data`timesteps, rc.data`radiusOfGyration, rc.data`alignment, rc.data`params, rc.data`numRuns
    ensures rc.Valid()
    ensures rc.params.center == old(rc.params.center) || fresh(rc.params.center)
    ensures rc.params.start == old(rc.params.start) || fresh(rc.params.start)
    ensures var (bs, k) := Pass(old(rc.flocking.boids), old(rc.flocking.CurrentContext()), rc.flocking.physics,
                                BurstSize(old(rc.params.N)), 0, 0);
      (completed <==> k == 0) &&
      (!completed ==>
        rc.flocking.boids == bs && rc.flocking.timestep == old(rc.flocking.timestep) &&
        rc.State() == old(rc.State()) && rc.data.Contents() == old(rc.data.Contents()) && !ended)
    ensures completed ==>
      ended == RunEnds(old(rc.flocking.maxTimestep), old(rc.flocking.timestep) + 1) &&
      rc.data.Contents() ==
        Record(old(rc.data.Contents()), old(rc.flocking.timestep) + 1, old(rc.realizations), old(rc.runNum),
               old(rc.flocking.maxTimestep), rc.flocking.observe(Flagged(old(rc.flocking.boids), false),
               old(rc.params.Live())), old(rc.params.Live()))
    ensures completed && !ended ==>
      rc.flocking.timestep == old(rc.flocking.timestep) + 1 &&
      rc.flocking.boids == Flagged(old(rc.flocking.boids), false) && rc.State() == old(rc.State())
    ensures ended ==>
      rc.State() == Interpret(Bumped(old(rc.State()))).0 && rc.flocking.Populated(old(rc.flocking.generation))
  {
    var fl := rc.flocking;
    var input := BurstSize(rc.params.N);
    Deficit(fl.boids, fl.CurrentContext(), fl.physics, input);
    var output := fl.UpdateBoids(input);
    completed, ended := input == output, false;
    if input == output {
      ended := CompleteTimestep(rc);
    }
  }

  /** A burst as the max-speed loop sees it: the controller stays valid. */
  method MaxSpeedTurn(rc: RunController)
    requires rc.Valid()
    modifies rc`elements, rc`run, rc`runNum, rc`numRuns, rc`realizations
    modifies rc.params, rc.params.center, rc.params.start
    modifies rc.speedController`speed, rc.speedController`handlePosition
    modifies rc.flocking`generation, rc.flocking`timestep, rc.flocking`boids, rc.flocking`repellants
    modifies rc.flocking`maxTimestep
    modifies rc.data`timesteps, rc.data`radiusOfGyration, rc.data`alignment, rc.data`params, rc.data`numRuns
    ensures rc.Valid()
    ensures rc.params.center == old(rc.params.center) || fresh(rc.params.center)
    ensures rc.params.start == old(rc.params.start) || fresh(rc.params.start)
  {
    ghost var completed, ended := MaxSpeedBurst(rc);
  }

  /**
   * The part of the max-speed loop that runs inside the frame that starts it:
   * bursts while the speed stays negative, until the clock says the frame's 33 ms
   * are up, which happens after burst `extraBursts + 1`; the loop then yields and
   * goes on in later tasks. A loop left because the speed is no longer negative
   * clears the max-speed flag.
   */
  method RunMax(rc: RunController, extraBursts: nat) returns (bursts: nat)
    requires rc.Valid()
    modifies rc`elements, rc`run, rc`runNum, rc`numRuns, rc`realizations
    modifies rc.params, rc.params.center, rc.params.start
    modifies rc.speedController`speed, rc.speedController`handlePosition
    modifies rc.flocking`generation, rc.flocking`timestep, rc.flocking`boids, rc.flocking`repellants
    modifies rc.flocking`maxTimestep, rc.flocking`playingMaxSpeed
    modifies rc.data`timesteps, rc.data`radiusOfGyration, rc.data`alignment, rc.data`params, rc.data`numRuns
    ensures rc.Valid()
    ensures bursts <= extraBursts + 1
    ensures old(rc.speedController.speed) < 0.0 ==> bursts >= 1
    ensures bursts <= extraBursts ==> rc.speedController.speed >= 0.0 && !rc.flocking.playingMaxSpeed
    ensures bursts == extraBursts + 1 ==> rc.flocking.playingMaxSpeed == old(rc.flocking.playingMaxSpeed)
  {
    bursts := 0;
    while rc.speedController.speed < 0.0 && bursts <= extraBursts
      invariant rc.Valid() && bursts <= extraBursts + 1
      invariant rc.params.center == old(rc.params.center) || fresh(rc.params.center)
      invariant rc.params.start == old(rc.params.start) || fresh(rc.params.start)
      invariant rc.flocking.playingMaxSpeed == old(rc.flocking.playingMaxSpeed)
      invariant bursts == 0 ==> rc.speedController.speed == old(rc.speedController.speed)
      decreases extraBursts + 1 - bursts
    {
      MaxSpeedTurn(rc);
      bursts := bursts + 1;
    }
    if bursts <= extraBursts {
      rc.flocking.playingMaxSpeed := false;
    }
  }

  /**
   * The stepping part of one frame: at a positive speed the batching loop runs;
   * at a negative speed the max-speed loop is started unless it is already
   * running, and makes its first bursts at once. At speed 0, or with the
   * max-speed loop already running, the frame changes nothing.
   */
  method Draw(rc: RunController, fuel: nat, extraBursts: nat)
    returns (stalled: bool, ghost updates: nat, ghost completions: nat, ghost bursts: nat)
    requires rc.Valid()
    modifies rc`elements, rc`run, rc`runNum, rc`numRuns, rc`realizations
    modifies rc.params, rc.params.center, rc.params.start
    modifies rc.speedController`speed, rc.speedController`handlePosition
    modifies rc.flocking`generation, rc.flocking`timestep, rc.flocking`boids, rc.flocking`repellants
    modifies rc.flocking`maxTimestep, rc.flocking`playingMaxSpeed
    modifies rc.data`timesteps, rc.data`radiusOfGyration, rc.data`alignment, rc.data`params, rc.data`numRuns
    ensures rc.Valid()
    ensures old(rc.speedController.speed) > 0.0 ==>
      (stalled ==> |rc.flocking.boids| == 0) &&
      (!stalled ==> updates == CountBelow(old(rc.speedController.speed))) &&
      (completions == 0 ==>
        rc.flocking.boids == Pass(old(rc.flocking.boids), old(rc.flocking.CurrentContext()), rc.flocking.physics,
                                  old(rc.speedController.speed), 0, 0).0 &&
        rc.flocking.timestep == old(rc.flocking.timestep)) &&
      rc.flocking.playingMaxSpeed == old(rc.flocking.playingMaxSpeed)
    ensures old(rc.speedController.speed) == 0.0 ||
            (old(rc.speedController.speed) < 0.0 && old(rc.flocking.playingMaxSpeed)) ==>
      !stalled && bursts == 0 &&
      rc.flocking.boids == old(rc.flocking.boids) && rc.flocking.timestep == old(rc.flocking.timestep) &&
      rc.State() == old(rc.State()) && rc.data.Contents() == old(rc.data.Contents()) &&
      rc.flocking.playingMaxSpeed == old(rc.flocking.playingMaxSpeed)
    ensures old(rc.speedController.speed) < 0.0 && !old(rc.flocking.playingMaxSpeed) ==>
      !stalled && 1 <= bursts <= extraBursts + 1 &&
      (bursts <= extraBursts ==> rc.speedController.speed >= 0.0 && !rc.flocking.playingMaxSpeed) &&
      (bursts == extraBursts + 1 ==> rc.flocking.playingMaxSpeed)
  {
    stalled, updates, completions, bursts := false, 0, 0, 0;
    if rc.speedController.speed > 0.0 {
      var idle;
      stalled, idle, updates, completions := DrawBatch(rc, fuel);
    } else if !rc.flocking.playingMaxSpeed && rc.speedController.speed < 0.0 {
      rc.flocking.playingMaxSpeed := true;
      bursts := RunMax(rc, extraBursts);
    }
  }
}
