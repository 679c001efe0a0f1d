/**
 * The statistics recorder: the series the data controller holds and the way a
 * completed timestep is written into them. During the first realization every
 * timestep appends; in later realizations the entry of the same run and timestep
 * is replaced by the running mean over realizations.
 */
module Statistics {
  import opened Wrappers
  import opened ParameterSet

  /** The two outputs of one timestep (computed by the field's geometry code). */
  datatype Sample = Sample(radiusOfGyration: real, alignment: real)

  /** Everything the data controller records, as values; parameter series are keyed by name. */
  datatype Series = Series(
    timesteps: seq<real>,
    radiusOfGyration: seq<real>,
    alignment: seq<real>,
    params: map<ParamName, seq<real>>)

  const AllNames: set<ParamName> :=
    {N, R, Width, Height, CenterX, CenterY, StartX, StartY,
     P, V, C1, C2, C3, C4, Vlimit, RepellantStrength}

  lemma AllNamesComplete(p: ParamName)
    ensures p in AllNames
  {
    match p
    case N => case R => case Width => case Height =>
    case CenterX => case CenterY => case StartX => case StartY =>
    case P => case V => case C1 => case C2 => case C3 => case C4 =>
    case Vlimit => case RepellantStrength =>
  }

  /** The empty recorder: every series present and empty. */
  function EmptySeries(): (s: Series)
    ensures s.timesteps == [] && s.radiusOfGyration == [] && s.alignment == []
    ensures forall p :: p in s.params && s.params[p] == []
  {
    var s := Series([], [], [], map p | p in AllNames :: []);
    assert forall p :: p in s.params by {
      forall p: ParamName
        ensures p in s.params
      {
        AllNamesComplete(p);
      }
    }
    s
  }

  /**
   * Realization `r` folds its sample into the stored value with weights `1 - 1/r`
   * and `1/r`. The result lies between the two and is the stored value when the
   * sample equals it.
   */
  function RunningMean(mean: real, sample: real, r: int): (m: real)
    requires r >= 1
    ensures mean <= sample ==> mean <= m <= sample
    ensures sample <= mean ==> sample <= m <= mean
    ensures sample == mean ==> m == mean
  {
    var w := 1.0 / (r as real);
    assert 0.0 < w <= 1.0;
    (1.0 - w) * mean + w * sample
  }

  function Sum(xs: seq<real>): real
  {
    if |xs| == 0 then 0.0 else Sum(xs[..|xs| - 1]) + xs[|xs| - 1]
  }

  /**
   * The value a slot holds after realizations 1..|xs| sampled `xs`: the first
   * realization appends, each later one folds in its sample.
   */
  function Averaged(xs: seq<real>): real
    requires |xs| >= 1
  {
    if |xs| == 1 then xs[0]
    else RunningMean(Averaged(xs[..|xs| - 1]), xs[|xs| - 1], |xs|)
  }

  /** The running mean is the arithmetic mean of the samples of all realizations so far. */
  lemma {:induction false} AveragedIsMean(xs: seq<real>)
    requires |xs| >= 1
    ensures Averaged(xs) == Sum(xs) / (|xs| as real)
  {
    if |xs| == 1 {
      assert xs[..0] == [];
    } else {
      var front := xs[..|xs| - 1];
      AveragedIsMean(front);
      MeanStep(Sum(front), xs[|xs| - 1], |xs| as real);
    }
  }

  /** Folding a sample into the mean of n - 1 values gives the mean of n values. */
  lemma MeanStep(s: real, x: real, n: real)
    requires n >= 2.0
    ensures (1.0 - 1.0 / n) * (s / (n - 1.0)) + (1.0 / n) * x == (s + x) / n
  {
    assert 1.0 - 1.0 / n == (n - 1.0) / n;
    assert ((n - 1.0) / n) * (s / (n - 1.0)) == s / n;
  }

  /**
   * The entry a later realization overwrites: the position the same run and
   * timestep had during the first realization. An undefined run length gives
   * NaN, which addresses no entry.
   */
  function RecordIndex(timestep: int, runNum: int, maxTimestep: Option<int>): Option<int>
  {
    match maxTimestep
    case None => None
    case Some(m) => Some(timestep + (runNum - 1) * m - 1)
  }

  /** For runs of a fixed positive length, each run owns one block of entries, in order. */
  lemma RecordIndexBlock(timestep: int, runNum: int, m: int)
    requires m > 0 && 1 <= timestep <= m && runNum >= 1
    ensures RecordIndex(timestep, runNum, Some(m)).Some?
    ensures (runNum - 1) * m <= RecordIndex(timestep, runNum, Some(m)).value < runNum * m
  {
  }

  /** Distinct (run, timestep) pairs of such runs never share an entry. */
  lemma RecordIndexInjective(t1: int, n1: int, t2: int, n2: int, m: int)
    requires m > 0 && 1 <= t1 <= m && 1 <= t2 <= m && n1 >= 1 && n2 >= 1
    requires RecordIndex(t1, n1, Some(m)) == RecordIndex(t2, n2, Some(m))
    ensures t1 == t2 && n1 == n2
  {
    assert t1 - t2 == (n2 - 1) * m - (n1 - 1) * m;
    assert (n2 - 1) * m - (n1 - 1) * m == (n2 - n1) * m;
    if n1 < n2 {
      MultipleAtLeast(n2 - n1, m);
    } else if n2 < n1 {
      MultipleAtLeast(n1 - n2, m);
    }
  }

  lemma MultipleAtLeast(d: int, m: int)
    requires d >= 1 && m > 0
    ensures d * m >= m
  {
    assert d * m - m == (d - 1) * m;
    assert (d - 1) * m >= 0;
  }

  /**
   * Folds a sample into entry `index` of a series. An index that is NaN or
   * negative names no array element, so the series is unchanged.
   */
  function UpdatedAt(xs: seq<real>, index: Option<int>, r: int, x: real): (ys: seq<real>)
    requires r >= 1
    ensures |ys| == |xs|
    ensures forall k :: 0 <= k < |xs| && index != Some(k) ==> ys[k] == xs[k]
    ensures index.Some? && 0 <= index.value < |xs| ==>
      ys[index.value] == RunningMean(xs[index.value], x, r)
  {
    if index.Some? && 0 <= index.value < |xs| then xs[index.value := RunningMean(xs[index.value], x, r)]
    else xs
  }

  /** Each parameter series with the current value of its parameter appended. */
  function AppendParams(params: map<ParamName, seq<real>>, live: Snapshot): (r: map<ParamName, seq<real>>)
    ensures r.Keys == params.Keys
    ensures forall p :: p in params ==> r[p] == params[p] + [Get(live, p)]
  {
    map p | p in params :: params[p] + [Get(live, p)]
  }

  /** What recording one completed timestep does to the series. */
  function Record(s: Series, timestep: int, realizations: int, runNum: int,
                  maxTimestep: Option<int>, sample: Sample, live: Snapshot): Series
    requires realizations >= 1
  {
    if realizations == 1 then
      Series(s.timesteps + [timestep as real],
             s.radiusOfGyration + [sample.radiusOfGyration],
             s.alignment + [sample.alignment],
             if timestep == 1 then AppendParams(s.params, live) else s.params)
    else
      var index := RecordIndex(timestep, runNum, maxTimestep);
      s.(radiusOfGyration := UpdatedAt(s.radiusOfGyration, index, realizations, sample.radiusOfGyration),
         alignment := UpdatedAt(s.alignment, index, realizations, sample.alignment))
  }

  /**
   * In the first realization the three output series grow by exactly one entry
   * (the timestep and the sample) and keep their old entries; the parameter
   * series grow by one, with the live value, exactly at the first timestep of a run.
   */
  lemma FirstRealizationAppends(s: Series, timestep: int, runNum: int,
                                maxTimestep: Option<int>, sample: Sample, live: Snapshot)
    ensures var r := Record(s, timestep, 1, runNum, maxTimestep, sample, live);
      |r.timesteps| == |s.timesteps| + 1 && r.timesteps[..|s.timesteps|] == s.timesteps &&
      r.timesteps[|s.timesteps|] == timestep as real &&
      |r.radiusOfGyration| == |s.radiusOfGyration| + 1 &&
      r.radiusOfGyration[..|s.radiusOfGyration|] == s.radiusOfGyration &&
      r.radiusOfGyration[|s.radiusOfGyration|] == sample.radiusOfGyration &&
      |r.alignment| == |s.alignment| + 1 && r.alignment[..|s.alignment|] == s.alignment &&
      r.alignment[|s.alignment|] == sample.alignment &&
      r.params.Keys == s.params.Keys &&
      (forall p :: p in s.params ==>
        |r.params[p]| == |s.params[p]| + (if timestep == 1 then 1 else 0) &&
        r.params[p][..|s.params[p]|] == s.params[p]) &&
      (timestep == 1 ==> forall p :: p in s.params ==> r.params[p][|s.params[p]|] == Get(live, p))
  {
    var r := Record(s, timestep, 1, runNum, maxTimestep, sample, live);
    assert r.timesteps[..|s.timesteps|] == s.timesteps;
    assert r.radiusOfGyration[..|s.radiusOfGyration|] == s.radiusOfGyration;
    assert r.alignment[..|s.alignment|] == s.alignment;
    forall p | p in s.params
      ensures r.params[p][..|s.params[p]|] == s.params[p]
    {
      if timestep == 1 {
        assert r.params[p] == s.params[p] + [Get(live, p)];
      }
    }
  }

  /**
   * In a later realization no series grows, the timesteps and parameter series are
   * untouched, and in the two output series only the entry `RecordIndex` names can
   * change: to the running mean of its old value and the sample.
   */
  lemma LaterRealizationUpdatesOneEntry(s: Series, timestep: int, realizations: int, runNum: int,
                                        maxTimestep: Option<int>, sample: Sample, live: Snapshot)
    requires realizations > 1
    ensures var r := Record(s, timestep, realizations, runNum, maxTimestep, sample, live);
      var index := RecordIndex(timestep, runNum, maxTimestep);
      r.timesteps == s.timesteps && r.params == s.params &&
      |r.radiusOfGyration| == |s.radiusOfGyration| && |r.alignment| == |s.alignment| &&
      (forall k :: 0 <= k < |s.radiusOfGyration| && index != Some(k) ==>
        r.radiusOfGyration[k] == s.radiusOfGyration[k]) &&
      (forall k :: 0 <= k < |s.alignment| && index != Some(k) ==> r.alignment[k] == s.alignment[k]) &&
      (index.Some? && 0 <= index.value < |s.radiusOfGyration| ==>
        r.radiusOfGyration[index.value] ==
          RunningMean(s.radiusOfGyration[index.value], sample.radiusOfGyration, realizations)) &&
      (index.Some? && 0 <= index.value < |s.alignment| ==>
        r.alignment[index.value] == RunningMean(s.alignment[index.value], sample.alignment, realizations))
  {
  }

  /** A later realization whose sample equals the stored entry leaves every series as it was. */
  lemma EqualSampleKeepsSeries(s: Series, timestep: int, realizations: int, runNum: int,
                               m: int, sample: Sample, live: Snapshot)
    requires realizations > 1
    requires var k := timestep + (runNum - 1) * m - 1;
      0 <= k < |s.radiusOfGyration| && 0 <= k < |s.alignment| &&
      s.radiusOfGyration[k] == sample.radiusOfGyration && s.alignment[k] == sample.alignment
    ensures Record(s, timestep, realizations, runNum, Some(m), sample, live) == s
  {
    var r := Record(s, timestep, realizations, runNum, Some(m), sample, live);
    assert r.radiusOfGyration == s.radiusOfGyration;
    assert r.alignment == s.alignment;
  }

  /**
   * Across realizations an entry holds the mean of its samples: if it held the
   * mean of the first r-1 realizations' samples, recording realization r leaves
   * the mean of all r.
   */
  lemma RecordKeepsMean(s: Series, timestep: int, runNum: int, m: int, k: int,
                        xs: seq<real>, sample: Sample, live: Snapshot)
    requires |xs| >= 1
    requires RecordIndex(timestep, runNum, Some(m)) == Some(k)
    requires 0 <= k < |s.radiusOfGyration| && s.radiusOfGyration[k] == Sum(xs) / (|xs| as real)
    ensures Record(s, timestep, |xs| + 1, runNum, Some(m), sample, live).radiusOfGyration[k] ==
      Sum(xs + [sample.radiusOfGyration]) / ((|xs| + 1) as real)
  {
    var x := sample.radiusOfGyration;
    var ys := xs + [x];
    LaterRealizationUpdatesOneEntry(s, timestep, |xs| + 1, runNum, Some(m), sample, live);
    AveragedIsMean(xs);
    assert ys[..|ys| - 1] == xs;
    assert Averaged(ys) == RunningMean(Averaged(xs), x, |ys|);
    AveragedIsMean(ys);
  }

  /** The data controller: a holder of series that the field writes into. */
  class DataController {
    var timesteps: seq<real>
    var radiusOfGyration: seq<real>
    var alignment: seq<real>
    var params: map<ParamName, seq<real>>
    /** Never assigned until the run controller raises it; `None` is JavaScript's undefined. */
    var numRuns: Option<int>

    function Contents(): Series
      reads this
    {
      Series(timesteps, radiusOfGyration, alignment, params)
    }

    constructor ()
      ensures Contents() == EmptySeries() && numRuns.None?
    {
      var empty := EmptySeries();
      timesteps, radiusOfGyration, alignment, params := [], [], [], empty.params;
      numRuns := None;
    }
  }
}
