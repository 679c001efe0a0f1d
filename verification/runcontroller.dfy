/**
 * The experiment-program interpreter. A program is a list of steps (run, then,
 * change a parameter, repeat, reset the parameters); `run` is its program
 * counter. Each call interprets steps until it starts a run or walks off the
 * end of the list. Element 0 is always a run step, which is why every call halts.
 */
module Interpreter {
  import opened Wrappers
  import opened JsNumbers
  import opened ParameterSet
  import opened Statistics
  import opened Field
  import opened SpeedControl

  /**
   * The data of one program element. `duration`, `times` and `timesLeft` are
   * `None` while the corresponding JavaScript field is undefined; a Repeat's
   * `lines` is kept although interpretation never reads it.
   */
  datatype Step =
    | Run(duration: Option<int>)
    | Then
    | ChangeParameter(operation: Op, parameter: string, amount: real)
    | Repeat(lines: int, times: Option<int>, timesLeft: Option<int>)
    | ResetParams

  /** Every program starts with the run element created with the controller. */
  predicate WellFormed(program: seq<Step>)
  {
    |program| >= 1 && program[0].Run?
  }

  /** The interpreter's state as values: program, counters and the parameter object. */
  datatype Machine = Machine(
    program: seq<Step>,
    pc: nat,
    runNum: int,
    numRuns: Option<int>,
    realizations: int,
    params: ParamState)

  /** How a call ends: off the end of the program, or by starting a run of the given duration. */
  datatype Outcome = Finished | Started(duration: Option<int>)

  /** A Repeat's remaining count after a jump: decremented only when positive. */
  function Decremented(timesLeft: Option<int>): Option<int>
  {
    if timesLeft.Some? && timesLeft.value > 0 then Some(timesLeft.value - 1) else timesLeft
  }

  /** A parameter reset re-arms a Repeat element with its full count; other elements are untouched. */
  function Rearm(s: Step): (r: Step)
    ensures s.Repeat? ==> r == s.(timesLeft := s.times)
    ensures !s.Repeat? ==> r == s
  {
    if s.Repeat? then s.(timesLeft := s.times) else s
  }

  function Rearmed(program: seq<Step>): (r: seq<Step>)
    ensures |r| == |program|
    ensures forall i :: 0 <= i < |program| ==> r[i] == Rearm(program[i])
  {
    seq(|program|, i requires 0 <= i < |program| => Rearm(program[i]))
  }

  /**
   * One step that does not start a run. The program keeps its length and its run
   * elements, the committed parameters never change, and the counter moves forward
   * by exactly one, or back to 0 on a Repeat jump.
   */
  function ApplyStep(m: Machine): (r: Machine)
    requires m.pc < |m.program| && !m.program[m.pc].Run?
    ensures |r.program| == |m.program|
    ensures forall i :: 0 <= i < |m.program| && m.program[i].Run? ==> r.program[i] == m.program[i]
    ensures r.params.saved == m.params.saved
    ensures r.pc == m.pc + 1 || (r.pc == 0 && m.program[m.pc].Repeat?)
  {
    match m.program[m.pc]
    case Then => m.(pc := m.pc + 1)
    case ChangeParameter(op, parameter, amount) =>
      m.(params := m.params.(live := ChangeLive(m.params.live, parameter, op, amount)), pc := m.pc + 1)
    case Repeat(lines, times, timesLeft) =>
      if timesLeft == Some(0) then m.(pc := m.pc + 1)
      else m.(program := m.program[m.pc := Repeat(lines, times, Decremented(timesLeft))], pc := 0)
    case ResetParams =>
      m.(params := AfterReset(m.params), realizations := m.realizations + 1, runNum := 0,
         program := Rearmed(m.program), pc := m.pc + 1)
  }

  /** A run step: the run number goes up, `numRuns` follows it when exceeded, and the counter advances. */
  function StartRun(m: Machine): (Machine, Outcome)
    requires m.pc < |m.program| && m.program[m.pc].Run?
  {
    var runNum := m.runNum + 1;
    var numRuns := if m.numRuns.Some? && runNum > m.numRuns.value then Some(m.numRuns.value + 1) else m.numRuns;
    (m.(runNum := runNum, numRuns := numRuns, pc := m.pc + 1), Started(m.program[m.pc].duration))
  }

  /** One call of the interpreter. */
  function Interpret(m: Machine): (Machine, Outcome)
    requires WellFormed(m.program)
    decreases if m.pc == 0 then 0 else 1, |m.program| - m.pc
  {
    if m.pc >= |m.program| then (m, Finished)
    else if m.program[m.pc].Run? then StartRun(m)
    else Interpret(ApplyStep(m))
  }

  /**
   * A call ends at the end of the program or just after a run element, whose
   * duration it reports. The program keeps its length, its first element and every
   * element that is not a Repeat; the committed parameters never change and the
   * realization count never decreases.
   */
  lemma {:induction false} InterpretShape(m: Machine)
    requires WellFormed(m.program)
    decreases if m.pc == 0 then 0 else 1, |m.program| - m.pc
    ensures var (r, o) := Interpret(m);
      WellFormed(r.program) && |r.program| == |m.program| &&
      (o.Finished? ==> r.pc >= |r.program|) &&
      (o.Started? ==> 1 <= r.pc <= |r.program| && r.program[r.pc - 1] == Run(o.duration)) &&
      (forall i :: 0 <= i < |m.program| && !m.program[i].Repeat? ==> r.program[i] == m.program[i]) &&
      r.params.saved == m.params.saved && r.realizations >= m.realizations
  {
    if m.pc < |m.program| && !m.program[m.pc].Run? {
      var m' := ApplyStep(m);
      InterpretShape(m');
    }
  }

  /** The run-number bookkeeping: `runNum` is a count and never exceeds `numRuns` when that is defined. */
  predicate RunNumbersValid(m: Machine)
  {
    m.runNum >= 0 && (m.numRuns.Some? ==> m.runNum <= m.numRuns.value)
  }

  function Max(a: int, b: int): int
  {
    if a >= b then a else b
  }

  /**
   * `runNum` counts the runs started since the last parameter reset: a call that
   * starts a run without a reset raises it by exactly one, and one with a reset
   * leaves it at 1. `numRuns` is a high-water mark of `runNum`, and an undefined
   * `numRuns` stays undefined for ever.
   */
  lemma {:induction false} RunNumbering(m: Machine)
    requires WellFormed(m.program) && RunNumbersValid(m)
    decreases if m.pc == 0 then 0 else 1, |m.program| - m.pc
    ensures var (r, o) := Interpret(m);
      RunNumbersValid(r) &&
      (m.numRuns.None? ==> r.numRuns.None?) &&
      (m.numRuns.Some? ==> r.numRuns.Some? && r.numRuns.value == Max(m.numRuns.value, r.runNum)) &&
      (o.Started? && r.realizations == m.realizations ==> r.runNum == m.runNum + 1) &&
      (o.Started? && r.realizations != m.realizations ==> r.runNum == 1) &&
      (o.Finished? && r.realizations == m.realizations ==> r.runNum == m.runNum) &&
      (o.Finished? && r.realizations != m.realizations ==> r.runNum == 0)
  {
    if m.pc < |m.program| && !m.program[m.pc].Run? {
      var m' := ApplyStep(m);
      RunNumbering(m');
      InterpretShape(m');
    }
  }

  /** A count that is not raised: undefined and non-positive counts stay, positive ones only go down to 0. */
  predicate NotRaised(before: Option<int>, after: Option<int>)
  {
    if before.Some? && before.value > 0 then after.Some? && 0 <= after.value <= before.value
    else after == before
  }

  lemma NotRaisedTransitive(a: Option<int>, b: Option<int>, c: Option<int>)
    requires NotRaised(a, b) && NotRaised(b, c)
    ensures NotRaised(a, c)
  {
  }

  /**
   * Repeat elements stay Repeat elements with the same lines and times. Without a
   * reset their remaining count is never raised; after a reset it is at most `times`.
   */
  lemma {:induction false} RepeatCounts(m: Machine)
    requires WellFormed(m.program)
    decreases if m.pc == 0 then 0 else 1, |m.program| - m.pc
    ensures var (r, o) := Interpret(m);
      |r.program| == |m.program| &&
      forall i :: 0 <= i < |m.program| && m.program[i].Repeat? ==>
        r.program[i].Repeat? && r.program[i].lines == m.program[i].lines &&
        r.program[i].times == m.program[i].times &&
        (r.realizations == m.realizations ==> NotRaised(m.program[i].timesLeft, r.program[i].timesLeft)) &&
        (r.realizations != m.realizations ==> NotRaised(m.program[i].times, r.program[i].timesLeft))
  {
    if m.pc < |m.program| && !m.program[m.pc].Run? {
      var m' := ApplyStep(m);
      RepeatCounts(m');
      InterpretShape(m');
      var (r, o) := Interpret(m');
      forall i | 0 <= i < |m.program| && m.program[i].Repeat?
        ensures r.program[i].Repeat? && r.program[i].lines == m.program[i].lines
        ensures r.program[i].times == m.program[i].times
        ensures r.realizations == m.realizations ==> NotRaised(m.program[i].timesLeft, r.program[i].timesLeft)
        ensures r.realizations != m.realizations ==> NotRaised(m.program[i].times, r.program[i].timesLeft)
      {
        assert m'.program[i].Repeat?;
        if m.program[m.pc].ResetParams? {
          assert m'.program[i].timesLeft == m.program[i].times;
        } else {
          assert NotRaised(m.program[i].timesLeft, m'.program[i].timesLeft);
          if r.realizations == m.realizations {
            NotRaisedTransitive(m.program[i].timesLeft, m'.program[i].timesLeft, r.program[i].timesLeft);
          }
        }
      }
    }
  }

  /**
   * A Repeat whose remaining count is not 0 jumps to element 0, a run element, so
   * the call ends by starting that run. As shipped the count is always undefined,
   * so every Repeat restarts the program from its first run.
   */
  lemma RepeatJumpStartsFirstRun(m: Machine)
    requires WellFormed(m.program) && m.pc < |m.program|
    requires m.program[m.pc].Repeat? && m.program[m.pc].timesLeft != Some(0)
    ensures Interpret(m).1 == Started(m.program[0].duration)
    ensures Interpret(m).0.pc == 1
  {
    var m' := ApplyStep(m);
    assert m'.pc == 0 && m'.program[0] == m.program[0];
  }

  /** No Repeat element can jump: each has a remaining count of 0 and is re-armed to 0 by a reset. */
  predicate NoJumpBack(program: seq<Step>)
  {
    forall i :: 0 <= i < |program| && program[i].Repeat? ==>
      program[i].timesLeft == Some(0) && program[i].times == Some(0)
  }

  /**
   * Without a Repeat that can jump, a call that starts from element 1 or later
   * only moves forward: it ends at or after where it began, and a run it starts
   * lies at or after that point.
   */
  lemma {:induction false} InterpretMovesForward(m: Machine)
    requires WellFormed(m.program) && NoJumpBack(m.program) && m.pc >= 1
    decreases |m.program| - m.pc
    ensures var (r, o) := Interpret(m);
      NoJumpBack(r.program) && r.pc >= m.pc && (o.Started? ==> r.pc >= m.pc + 1)
  {
    if m.pc < |m.program| && !m.program[m.pc].Run? {
      var m' := ApplyStep(m);
      assert m'.pc == m.pc + 1;
      assert m'.program == m.program || m'.program == Rearmed(m.program);
      InterpretMovesForward(m');
    }
  }

  /** The pushes `addElement(kind)` makes; parameter and reset elements push their trailing Then first. */
  function NewSteps(kind: string): (s: seq<Step>)
    ensures |s| == 1 || |s| == 2
    ensures |s| == 2 <==> kind in {"add", "sub", "mult", "div", "reset"}
    ensures |s| == 2 ==> s[0] == Then
  {
    match kind
    case "then" => [Then]
    case "add" => [Then, ChangeParameter(Add, "N", 1.0)]
    case "sub" => [Then, ChangeParameter(Sub, "N", 1.0)]
    case "mult" => [Then, ChangeParameter(Mult, "N", 1.0)]
    case "div" => [Then, ChangeParameter(Div, "N", 1.0)]
    case "repeat" => [Repeat(1, None, None)]
    case "reset" => [Then, ResetParams]
    case _ => [Run(None)]
  }

  /** Whether the new element's constructor first adds its trailing Then. */
  predicate AddsTrailingThen(kind: string)
  {
    kind in {"add", "sub", "mult", "div", "reset"}
  }

  /** The run controller: the program, its counters and the objects a step acts on. */
  class RunController {
    const params: Parameters
    const flocking: Flocking
    const speedController: SpeedController
    const data: DataController
    var elements: seq<Step>
    var step: int
    var run: nat
    var runNum: int
    /** Never initialised in the controller, so `None` until something assigns it. */
    var numRuns: Option<int>
    var realizations: int

    ghost predicate Valid()
      reads this, params, speedController
    {
      params.Valid() && speedController.Valid() && WellFormed(elements) && realizations >= 1 &&
      flocking.params == params && flocking.data == data
    }

    ghost function State(): Machine
      reads this, params, params.center, params.start, params.saveCenter, params.saveStart
    {
      Machine(elements, run, runNum, numRuns, realizations, ParamState(params.Live(), params.Saved()))
    }

    /**
     * Creates the program with its single run element (duration not chosen yet)
     * and interprets it once, which starts that run.
     */
    constructor (params: Parameters, flocking: Flocking, speedController: SpeedController, data: DataController)
      requires params.Valid() && speedController.Valid()
      requires flocking.params == params && flocking.data == data
      modifies params, params.center, params.start, flocking, speedController, data
      ensures Valid()
      ensures this.params == params && this.flocking == flocking
      ensures this.speedController == speedController && this.data == data
      ensures elements == [Run(None)] && step == 1 && run == 1
      ensures runNum == 1 && numRuns.None? && realizations == 1
      ensures params.Live() == old(params.Live())
      ensures flocking.maxTimestep.None? && flocking.Populated(old(flocking.generation))
    {
      this.params, this.flocking, this.speedController, this.data := params, flocking, speedController, data;
      elements := [Run(None)];
      step := 1;
      realizations := 1;
      runNum := 0;
      run := 0;
      numRuns := None;
      new;
      ghost var outcome := NextRunStep();
    }

    /**
     * Appends the element `kind` names (an unknown kind makes a run element); a
     * parameter or reset element first appends its trailing Then, through a nested
     * call. The counter is reset to 0.
     */
    method AddElement(kind: string)
      modifies this`elements, this`step, this`run
      decreases if AddsTrailingThen(kind) then 1 else 0
      ensures elements == old(elements) + NewSteps(kind)
      ensures step == old(step) + |NewSteps(kind)| && run == 0
    {
      var element: Step;
      match kind {
        case "then" => element := Then;
        case "add" => element := ChangeParameter(Add, "N", 1.0); AddElement("then");
        case "sub" => element := ChangeParameter(Sub, "N", 1.0); AddElement("then");
        case "mult" => element := ChangeParameter(Mult, "N", 1.0); AddElement("then");
        case "div" => element := ChangeParameter(Div, "N", 1.0); AddElement("then");
        case "repeat" => element := Repeat(1, None, None);
        case "reset" => element := ResetParams; AddElement("then");
        case _ => element := Run(None);
      }
      elements := elements + [element];
      step := step + 1;
      run := 0;
    }

    /** Pops elements from the end until `index` is the last one kept; `step` becomes `index + 1`. */
    method RemoveElementsAfter(index: nat)
      modifies this`elements, this`step
      ensures elements == old(elements)[..if index + 1 < |old(elements)| then index + 1 else |old(elements)|]
      ensures step == index + 1
    {
      var i := |elements| - 1;
      assert old(elements)[..i + 1] == old(elements);
      while i > index
        invariant -1 <= i < |old(elements)|
        invariant i >= index || i == |old(elements)| - 1
        invariant elements == old(elements)[..i + 1]
      {
        elements := elements[..|elements| - 1];
        i := i - 1;
      }
      step := index + 1;
    }

    /** Sets every Repeat element's remaining count back to its `times`. */
    method RearmRepeats()
      modifies this`elements
      ensures elements == Rearmed(old(elements))
    {
      var i := 0;
      while i < |elements|
        invariant i <= |elements| == |old(elements)|
        invariant forall j :: 0 <= j < i ==> elements[j] == Rearm(old(elements)[j])
        invariant forall j :: i <= j < |elements| ==> elements[j] == old(elements)[j]
      {
        if elements[i].Repeat? {
          elements := elements[i := elements[i].(timesLeft := elements[i].times)];
        }
        i := i + 1;
      }
    }

    /** Performs the step at `run`, which is neither a run element nor past the end. */
    method ExecuteStep()
      requires Valid() && run < |elements| && !elements[run].Run?
      modifies this`elements, this`run, this`runNum, this`realizations, params, params.center, params.start
      ensures Valid()
      ensures State() == ApplyStep(old(State()))
      ensures params.center == old(params.center) || fresh(params.center)
      ensures params.start == old(params.start) || fresh(params.start)
    {
      match elements[run]
      case Then =>
        run := run + 1;
      case ChangeParameter(op, parameter, amount) =>
        params.Change(parameter, op, amount);
        run := run + 1;
      case Repeat(lines, times, timesLeft) =>
        var at := run;
        if timesLeft == Some(0) {
          run := run + 1;
        } else {
          run := 0;
          if timesLeft.Some? && timesLeft.value > 0 {
            elements := elements[at := Repeat(lines, times, Some(timesLeft.value - 1))];
          }
        }
      case ResetParams =>
        params.Reset();
        realizations := realizations + 1;
        runNum := 0;
        RearmRepeats();
        run := run + 1;
    }

    /** Past the end of the program: pause the speed controller and restart the field. */
    method Stop() returns (ghost outcome: Outcome)
      requires Valid() && run >= |elements|
      modifies speedController`speed, speedController`handlePosition
      modifies flocking`generation, flocking`timestep, flocking`boids, flocking`repellants
      ensures Valid() && outcome == Finished
      ensures speedController.Paused()
      ensures flocking.Populated(old(flocking.generation))
    {
      speedController.Pause();
      flocking.Restart();
      outcome := Finished;
    }

    /** A run element: count the run, hand its duration to the field and restart the field. */
    method BeginRun() returns (ghost outcome: Outcome)
      requires Valid() && run < |elements| && elements[run].Run?
      modifies this`run, this`runNum, this`numRuns, data`numRuns
      modifies flocking`maxTimestep, flocking`generation, flocking`timestep, flocking`boids, flocking`repellants
      ensures Valid()
      ensures (State(), outcome) == StartRun(old(State()))
      ensures flocking.maxTimestep == outcome.duration
      ensures data.numRuns == (if numRuns == old(numRuns) then old(data.numRuns) else numRuns)
      ensures flocking.Populated(old(flocking.generation))
    {
      var duration := elements[run].duration;
      runNum := runNum + 1;
      if numRuns.Some? && runNum > numRuns.value {
        numRuns := Some(numRuns.value + 1);
        data.numRuns := numRuns;
      }
      flocking.maxTimestep := duration;
      flocking.Restart();
      run := run + 1;
      outcome := Started(duration);
    }

    /**
     * Interprets steps from `run` on. Past the end it pauses the speed controller
     * and restarts the field, leaving the program and counters as they are; at a
     * run element it starts that run: the field takes the duration and is restarted,
     * and `numRuns` is passed on to the data controller whenever it is raised.
     */
    method NextRunStep() returns (ghost outcome: Outcome)
      requires Valid()
      modifies this`elements, this`run, this`runNum, this`numRuns, this`realizations
      modifies params, params.center, params.start, speedController`speed, speedController`handlePosition
      modifies flocking`generation, flocking`timestep, flocking`boids, flocking`repellants, flocking`maxTimestep
      modifies data`numRuns
      decreases if run == 0 then 0 else 1, |elements| - run
      ensures Valid()
      ensures (State(), outcome) == Interpret(old(State()))
      ensures old(run) >= old(|elements|) ==> State() == old(State())
      ensures outcome.Finished? ==> speedController.Paused() && flocking.maxTimestep == old(flocking.maxTimestep)
      ensures outcome.Started? ==>
        speedController.speed == old(speedController.speed) && flocking.maxTimestep == outcome.duration
      ensures data.numRuns == (if numRuns == old(numRuns) then old(data.numRuns) else numRuns)
      ensures flocking.Populated(old(flocking.generation))
      ensures params.center == old(params.center) || fresh(params.center)
      ensures params.start == old(params.start) || fresh(params.start)
    {
      if run >= |elements| {
        outcome := Stop();
      } else if elements[run].Run? {
        outcome := BeginRun();
      } else {
        ghost var before := State();
        ExecuteStep();
        assert State() == ApplyStep(before);
        assert Interpret(before) == Interpret(State());
        outcome := NextRunStep();
      }
    }
  }
}
