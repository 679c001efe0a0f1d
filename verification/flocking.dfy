/**
 * The flocking field: the boid and repellant collections, the batched boid
 * update with its `updated` flags, the timestep counter and the recording of
 * each completed timestep. The force law and the output geometry are opaque
 * functions the field is built with; random draws come from fixed streams.
 */
module Field {
  import opened Wrappers
  import opened JsNumbers
  import opened Vectors
  import opened ParameterSet
  import opened Statistics

  datatype Kinematics = Kinematics(position: Vec2, velocity: Vec2)

  /** A boid's state and whether it has already been moved in the current timestep. */
  datatype Boid = Boid(kin: Kinematics, updated: bool)

  /** Four standard normal draws: two for the position offset, two for the velocity. */
  datatype NormalDraws = NormalDraws(px: real, py: real, vx: real, vy: real)

  /** Two uniform draws in [0, 1) placing a repellant. */
  datatype UniformDraws = UniformDraws(ux: real, uy: real)

  /**
   * What the force law reads besides the boids: the repellants, the live
   * parameters (weights c1 to c4, N, vlimit, repellantStrength and the domain
   * size), and the population and timestep that, with the boid's index, select
   * its fresh normal noise draws.
   */
  datatype Context = Context(repellants: seq<Vec2>, live: Snapshot, generation: nat, timestep: int)

  /** The interaction update of boid `i`, reading every boid's current state in place. */
  type Physics = (seq<Boid>, Context, nat) -> Kinematics

  /** A new boid: Gaussian offset scaled by P around the start point, Gaussian velocity scaled by V. */
  function Spawned(live: Snapshot, g: NormalDraws): (b: Boid)
    ensures !b.updated
    ensures b.kin.position == Vec2(g.px * live.P + live.startX, g.py * live.P + live.startY)
    ensures b.kin.velocity == Vec2(g.vx * live.V, g.vy * live.V)
  {
    Boid(Kinematics(Vec2(g.px * live.P + live.startX, g.py * live.P + live.startY),
                    Vec2(g.vx * live.V, g.vy * live.V)), false)
  }

  /** A new repellant: a uniform point of the domain box. */
  function Placed(live: Snapshot, u: UniformDraws): Vec2
  {
    Vec2(u.ux * live.width + live.centerX - live.width / 2.0,
         u.uy * live.height + live.centerY - live.height / 2.0)
  }

  /** With draws in [0, 1) and a positive extent, a repellant lies inside the domain box. */
  lemma PlacedInDomain(live: Snapshot, u: UniformDraws)
    requires 0.0 <= u.ux < 1.0 && 0.0 <= u.uy < 1.0
    requires live.width > 0.0 && live.height > 0.0
    ensures live.centerX - live.width / 2.0 <= Placed(live, u).x < live.centerX + live.width / 2.0
    ensures live.centerY - live.height / 2.0 <= Placed(live, u).y < live.centerY + live.height / 2.0
  {
    ScaledFraction(u.ux, live.width);
    ScaledFraction(u.uy, live.height);
    var a, b := u.ux * live.width, u.uy * live.height;
    assert Placed(live, u) == Vec2(a + live.centerX - live.width / 2.0, b + live.centerY - live.height / 2.0);
  }

  lemma ScaledFraction(u: real, w: real)
    requires 0.0 <= u < 1.0 && w > 0.0
    ensures 0.0 <= u * w < w
  {
    assert w - u * w == (1.0 - u) * w;
  }

  function Min(a: nat, b: nat): nat
  {
    if a <= b then a else b
  }

  /** The number of boids at index `i` or later that are not yet updated. */
  function Pending(bs: seq<Boid>, i: nat): (n: nat)
    ensures n <= |bs| - i || i > |bs|
    decreases |bs| - i
  {
    if i >= |bs| then 0
    else (if bs[i].updated then 0 else 1) + Pending(bs, i + 1)
  }

  /** Pending counts depend only on the flags from `i` on. */
  lemma {:induction false} PendingSameFlags(bs: seq<Boid>, cs: seq<Boid>, i: nat)
    requires |bs| == |cs|
    requires forall j :: i <= j < |bs| ==> bs[j].updated == cs[j].updated
    ensures Pending(bs, i) == Pending(cs, i)
    decreases |bs| - i
  {
    if i < |bs| {
      PendingSameFlags(bs, cs, i + 1);
    }
  }

  /** With every flag clear, every boid is pending. */
  lemma {:induction false} PendingAllClear(bs: seq<Boid>, i: nat)
    requires i <= |bs|
    requires forall j :: 0 <= j < |bs| ==> !bs[j].updated
    ensures Pending(bs, i) == |bs| - i
    decreases |bs| - i
  {
    if i < |bs| {
      PendingAllClear(bs, i + 1);
    }
  }

  /** With no pending boid from `i` on, every flag from `i` on is set. */
  lemma {:induction false} NonePending(bs: seq<Boid>, i: nat)
    requires i <= |bs| && Pending(bs, i) == 0
    ensures forall j :: i <= j < |bs| ==> bs[j].updated
    decreases |bs| - i
  {
    if i < |bs| {
      NonePending(bs, i + 1);
    }
  }

  /**
   * The rest of an `updateBoids` pass from index `i`, with `done` boids already
   * processed: each boid not yet updated is moved and flagged while fewer than
   * `amount` have been processed. Yields the boids and the processed count.
   */
  function Pass(bs: seq<Boid>, ctx: Context, physics: Physics, amount: real,
                i: nat, done: nat): (seq<Boid>, nat)
    requires i <= |bs|
    decreases |bs| - i
  {
    if i == |bs| then (bs, done)
    else if !bs[i].updated && (done as real) < amount then
      Pass(bs[i := Boid(physics(bs, ctx, i), true)], ctx, physics, amount, i + 1, done + 1)
    else Pass(bs, ctx, physics, amount, i + 1, done)
  }

  /**
   * What a pass does: it keeps the length and the boids before `i`, never touches
   * a boid already updated and never clears a flag; it processes as many boids as
   * are pending, up to the iteration count of `amount`; it flags them in array
   * order (a pending boid left pending means every later pending boid is left too);
   * and processing none changes nothing.
   */
  lemma {:induction false} PassFacts(bs: seq<Boid>, ctx: Context, physics: Physics,
                                     amount: real, i: nat, done: nat)
    requires i <= |bs| && done <= CountBelow(amount)
    decreases |bs| - i
    ensures var (cs, k) := Pass(bs, ctx, physics, amount, i, done);
      |cs| == |bs| && done <= k &&
      (forall j :: 0 <= j < i ==> cs[j] == bs[j]) &&
      (forall j :: 0 <= j < |bs| && bs[j].updated ==> cs[j] == bs[j]) &&
      (forall j :: 0 <= j < |bs| ==> bs[j].updated ==> cs[j].updated) &&
      k - done == Min(Pending(bs, i), CountBelow(amount) - done) &&
      Pending(cs, i) == Pending(bs, i) - (k - done) &&
      (k == done ==> cs == bs) &&
      (forall j1, j2 :: i <= j1 < j2 < |bs| && !bs[j1].updated && !cs[j1].updated && !bs[j2].updated
         ==> !cs[j2].updated)
  {
    CountBelowCounts(amount, done);
    if i == |bs| {
    } else if !bs[i].updated && (done as real) < amount {
      var bs' := bs[i := Boid(physics(bs, ctx, i), true)];
      PassFacts(bs', ctx, physics, amount, i + 1, done + 1);
      var (cs, k) := Pass(bs', ctx, physics, amount, i + 1, done + 1);
      PendingSameFlags(bs, bs', i + 1);
      assert Pending(cs, i) == Pending(cs, i + 1);
    } else {
      PassFacts(bs, ctx, physics, amount, i + 1, done);
      var (cs, k) := Pass(bs, ctx, physics, amount, i + 1, done);
      if !bs[i].updated {
        assert done == CountBelow(amount);
        assert k == done && cs == bs;
      }
      assert cs[i] == bs[i];
    }
  }

  /**
   * A whole pass from index 0 processes min(pending, loop count) boids, leaves that
   * many fewer pending and changes nothing when it processes none.
   * The value `updateBoids(amount)` returns is `amount` minus the number processed.
   * It equals `amount` exactly when no boid was processed: every boid was already
   * updated or `amount` is not positive. For a whole `amount` it lies in [0, amount].
   */
  lemma Deficit(bs: seq<Boid>, ctx: Context, physics: Physics, amount: real)
    ensures var (cs, k) := Pass(bs, ctx, physics, amount, 0, 0);
      k == Min(Pending(bs, 0), CountBelow(amount)) &&
      |cs| == |bs| && Pending(cs, 0) == Pending(bs, 0) - k && (k == 0 ==> cs == bs) &&
      (amount - k as real == amount <==> Pending(bs, 0) == 0 || amount <= 0.0) &&
      (amount.Floor as real == amount && amount >= 0.0 ==> 0.0 <= amount - k as real <= amount)
  {
    PassFacts(bs, ctx, physics, amount, 0, 0);
  }

  /** The boids with every flag set to `value` and their kinematics kept. */
  function Flagged(bs: seq<Boid>, value: bool): (r: seq<Boid>)
    ensures |r| == |bs|
    ensures forall j :: 0 <= j < |bs| ==> r[j].kin == bs[j].kin && r[j].updated == value
  {
    seq(|bs|, j requires 0 <= j < |bs| => bs[j].(updated := value))
  }

  /** With no boids at all, a pass processes nothing, whatever it is asked to do. */
  lemma EmptyFieldProcessesNothing(ctx: Context, physics: Physics, amount: real)
    ensures Pass([], ctx, physics, amount, 0, 0) == ([], 0)
  {
  }

  /** The field: boids, repellants, the timestep counter and the run length. */
  class Flocking {
    const params: Parameters
    const data: DataController
    /** The force law of `updateFromInteractions`. */
    const physics: Physics
    /** The geometry of `calculateOutputValues`: radius of gyration and alignment. */
    const observe: (seq<Boid>, Snapshot) -> Sample
    /** The random draws of the `generation`-th population, boid by boid. */
    const normals: (nat, nat) -> NormalDraws
    const uniforms: (nat, nat) -> UniformDraws

    /** How many times the field was populated; selects fresh random draws. */
    var generation: nat
    var boids: seq<Boid>
    var repellants: seq<Vec2>
    var timestep: int
    /** The run length; `None` is a run element whose duration was never chosen. */
    var maxTimestep: Option<int>
    var playingMaxSpeed: bool

    constructor (params: Parameters, data: DataController, physics: Physics,
                 observe: (seq<Boid>, Snapshot) -> Sample,
                 normals: (nat, nat) -> NormalDraws, uniforms: (nat, nat) -> UniformDraws)
      ensures this.params == params && this.data == data && this.physics == physics
      ensures this.observe == observe && this.normals == normals && this.uniforms == uniforms
      ensures boids == [] && repellants == [] && timestep == 0
      ensures maxTimestep == Some(-1) && !playingMaxSpeed && generation == 0
    {
      this.params, this.data, this.physics := params, data, physics;
      this.observe, this.normals, this.uniforms := observe, normals, uniforms;
      generation := 0;
      boids, repellants := [], [];
      timestep := 0;
      playingMaxSpeed := false;
      maxTimestep := Some(-1);
    }

    /** What the force law reads now, besides the boids. */
    function CurrentContext(): Context
      reads this`repellants, this`generation, this`timestep
      reads params`N, params`R, params`width, params`height, params`center, params`start
      reads params.center, params.start, params`P, params`V, params`c1, params`c2, params`c3
      reads params`c4, params`vlimit, params`repellantStrength
    {
      Context(repellants, params.Live(), generation, timestep)
    }

    /**
     * The field right after its `g`-th population: timestep 0, one fresh boid per
     * integer below N and one repellant per integer below R, from that population's draws.
     */
    ghost predicate Populated(g: nat)
      reads this, params, params.center, params.start
    {
      timestep == 0 && generation == g + 1 &&
      |boids| == CountBelow(params.N) &&
      (forall i :: 0 <= i < |boids| ==> boids[i] == Spawned(params.Live(), normals(g, i))) &&
      |repellants| == CountBelow(params.R) &&
      (forall i :: 0 <= i < |repellants| ==> repellants[i] == Placed(params.Live(), uniforms(g, i)))
    }

    /**
     * Repopulates the field: one fresh, not yet updated boid for each integer `i`
     * with `0 <= i < N`, one repellant for each `i < R`, and the timestep back at 0.
     */
    method Restart()
      modifies this`generation, this`timestep, this`boids, this`repellants
      ensures Populated(old(generation))
    {
      timestep := 0;
      boids := [];
      repellants := [];
      var live := params.Live();
      var i := 0;
      while (i as real) < params.N
        modifies this`boids
        invariant i == |boids| && i <= CountBelow(params.N)
        invariant forall j :: 0 <= j < |boids| ==> boids[j] == Spawned(live, normals(generation, j))
        decreases CountBelow(params.N) - i
      {
        CountBelowCounts(params.N, i);
        boids := boids + [Spawned(live, normals(generation, i))];
        i := i + 1;
      }
      CountBelowCounts(params.N, i);
      i := 0;
      while (i as real) < params.R
        modifies this`repellants
        invariant i == |repellants| && i <= CountBelow(params.R)
        invariant forall j :: 0 <= j < |repellants| ==> repellants[j] == Placed(live, uniforms(generation, j))
        decreases CountBelow(params.R) - i
      {
        CountBelowCounts(params.R, i);
        repellants := repellants + [Placed(live, uniforms(generation, i))];
        i := i + 1;
      }
      CountBelowCounts(params.R, i);
      generation := generation + 1;
    }

    /**
     * Moves, in array order, boids not yet updated this timestep while fewer than
     * `amount` have been processed; returns how many of the requested updates
     * could not be made.
     */
    method UpdateBoids(amount: real) returns (deficit: real)
      modifies this`boids
      ensures var (bs, k) := Pass(old(boids), CurrentContext(), physics, amount, 0, 0);
        boids == bs && deficit == amount - k as real
    {
      var ctx := CurrentContext();
      var processed: nat := 0;
      var i := 0;
      while i < |boids|
        invariant i <= |boids|
        invariant Pass(boids, ctx, physics, amount, i, processed) ==
                  Pass(old(boids), ctx, physics, amount, 0, 0)
      {
        if !boids[i].updated && (processed as real) < amount {
          boids := boids[i := Boid(physics(boids, ctx, i), true)];
          processed := processed + 1;
        }
        i := i + 1;
      }
      deficit := amount - processed as real;
    }

    /** Sets every boid's flag to `value`; nothing else changes. */
    method SetBoidsUpdated(value: bool)
      modifies this`boids
      ensures boids == Flagged(old(boids), value)
    {
      var i := 0;
      while i < |boids|
        invariant i <= |boids| == |old(boids)|
        invariant forall j :: 0 <= j < i ==> boids[j] == old(boids[j]).(updated := value)
        invariant forall j :: i <= j < |boids| ==> boids[j] == old(boids[j])
      {
        boids := boids[i := boids[i].(updated := value)];
        i := i + 1;
      }
    }

    /**
     * Records the completed timestep: the geometry's sample of the current boids
     * goes into the series as `Record` describes, for the given realization and run.
     */
    method CalculateOutputValues(realizations: int, runNum: int)
      requires realizations >= 1
      modifies data`timesteps, data`radiusOfGyration, data`alignment, data`params
      ensures data.Contents() ==
        Record(old(data.Contents()), timestep, realizations, runNum, maxTimestep,
               observe(boids, params.Live()), params.Live())
      ensures data.numRuns == old(data.numRuns)
    {
      var live := params.Live();
      var sample := observe(boids, live);
      if realizations == 1 {
        data.timesteps := data.timesteps + [timestep as real];
        data.radiusOfGyration := data.radiusOfGyration + [sample.radiusOfGyration];
        data.alignment := data.alignment + [sample.alignment];
        if timestep == 1 {
          data.params := AppendParams(data.params, live);
        }
      } else {
        var index := RecordIndex(timestep, runNum, maxTimestep);
        data.radiusOfGyration := UpdatedAt(data.radiusOfGyration, index, realizations, sample.radiusOfGyration);
        data.alignment := UpdatedAt(data.alignment, index, realizations, sample.alignment);
      }
    }
  }
}
