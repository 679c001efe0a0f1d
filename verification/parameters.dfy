/**
 * The user-adjustable parameter set: live values that the simulation reads,
 * and a committed snapshot (`save*` fields) that `reset()` restores.
 * The domain centre and the boids' start point are vector objects, so copy
 * versus alias is modelled with `Vector2` objects.
 */
module ParameterSet {
  import opened Wrappers
  import opened Vectors

  /** The parameters, by the field names of the parameter object. */
  datatype ParamName =
    | N | R | Width | Height
    | CenterX | CenterY | StartX | StartY
    | P | V | C1 | C2 | C3 | C4 | Vlimit | RepellantStrength

  /** The values of all parameters at one moment (vector fields split into components). */
  datatype Snapshot = Snapshot(
    N: real, R: real, width: real, height: real,
    centerX: real, centerY: real, startX: real, startY: real,
    P: real, V: real, c1: real, c2: real, c3: real, c4: real,
    vlimit: real, repellantStrength: real)

  function Get(s: Snapshot, name: ParamName): real
  {
    match name
    case N => s.N
    case R => s.R
    case Width => s.width
    case Height => s.height
    case CenterX => s.centerX
    case CenterY => s.centerY
    case StartX => s.startX
    case StartY => s.startY
    case P => s.P
    case V => s.V
    case C1 => s.c1
    case C2 => s.c2
    case C3 => s.c3
    case C4 => s.c4
    case Vlimit => s.vlimit
    case RepellantStrength => s.repellantStrength
  }

  /** `s` with exactly one parameter replaced. */
  function With(s: Snapshot, name: ParamName, v: real): (r: Snapshot)
    ensures Get(r, name) == v
    ensures forall q :: q != name ==> Get(r, q) == Get(s, q)
  {
    match name
    case N => s.(N := v)
    case R => s.(R := v)
    case Width => s.(width := v)
    case Height => s.(height := v)
    case CenterX => s.(centerX := v)
    case CenterY => s.(centerY := v)
    case StartX => s.(startX := v)
    case StartY => s.(startY := v)
    case P => s.(P := v)
    case V => s.(V := v)
    case C1 => s.(c1 := v)
    case C2 => s.(c2 := v)
    case C3 => s.(c3 := v)
    case C4 => s.(c4 := v)
    case Vlimit => s.(vlimit := v)
    case RepellantStrength => s.(repellantStrength := v)
  }

  /** `r` is `s` with the value of `name` replaced by `v`, spelled out field by field. */
  predicate EditedAt(s: Snapshot, r: Snapshot, name: ParamName, v: real)
  {
    r.N == (if name.N? then v else s.N) &&
    r.R == (if name.R? then v else s.R) &&
    r.width == (if name.Width? then v else s.width) &&
    r.height == (if name.Height? then v else s.height) &&
    r.centerX == (if name.CenterX? then v else s.centerX) &&
    r.centerY == (if name.CenterY? then v else s.centerY) &&
    r.startX == (if name.StartX? then v else s.startX) &&
    r.startY == (if name.StartY? then v else s.startY) &&
    r.P == (if name.P? then v else s.P) &&
    r.V == (if name.V? then v else s.V) &&
    r.c1 == (if name.C1? then v else s.c1) &&
    r.c2 == (if name.C2? then v else s.c2) &&
    r.c3 == (if name.C3? then v else s.c3) &&
    r.c4 == (if name.C4? then v else s.c4) &&
    r.vlimit == (if name.Vlimit? then v else s.vlimit) &&
    r.repellantStrength == (if name.RepellantStrength? then v else s.repellantStrength)
  }

  /** The field-by-field description of an edit is `With`. */
  lemma EditedAtIsWith(s: Snapshot, r: Snapshot, name: ParamName, v: real)
    requires EditedAt(s, r, name, v)
    ensures r == With(s, name, v)
  {
  }

  /** Two snapshots agreeing on every parameter are equal. */
  lemma {:induction false} SnapshotExt(a: Snapshot, b: Snapshot)
    requires forall q :: Get(a, q) == Get(b, q)
    ensures a == b
  {
    assert Get(a, N) == Get(b, N) && Get(a, R) == Get(b, R);
    assert Get(a, Width) == Get(b, Width) && Get(a, Height) == Get(b, Height);
    assert Get(a, CenterX) == Get(b, CenterX) && Get(a, CenterY) == Get(b, CenterY);
    assert Get(a, StartX) == Get(b, StartX) && Get(a, StartY) == Get(b, StartY);
    assert Get(a, P) == Get(b, P) && Get(a, V) == Get(b, V);
    assert Get(a, C1) == Get(b, C1) && Get(a, C2) == Get(b, C2);
    assert Get(a, C3) == Get(b, C3) && Get(a, C4) == Get(b, C4);
    assert Get(a, Vlimit) == Get(b, Vlimit) && Get(a, RepellantStrength) == Get(b, RepellantStrength);
  }

  /** The parameter names a ChangeParameter step offers in its select box ('vlim' is the speed limit). */
  function Selector(name: ParamName): string
  {
    match name
    case N => "N"
    case R => "R"
    case Width => "width"
    case Height => "height"
    case CenterX => "centerX"
    case CenterY => "centerY"
    case StartX => "startX"
    case StartY => "startY"
    case P => "P"
    case V => "V"
    case C1 => "c1"
    case C2 => "c2"
    case C3 => "c3"
    case C4 => "c4"
    case Vlimit => "vlim"
    case RepellantStrength => "repellantStrength"
  }

  /** The parameter a ChangeParameter step's selector string names, if any. */
  function Selected(selector: string): (r: Option<ParamName>)
    ensures r.Some? ==> Selector(r.value) == selector
  {
    match selector
    case "N" => Some(N)
    case "R" => Some(R)
    case "width" => Some(Width)
    case "height" => Some(Height)
    case "centerX" => Some(CenterX)
    case "centerY" => Some(CenterY)
    case "startX" => Some(StartX)
    case "startY" => Some(StartY)
    case "P" => Some(P)
    case "V" => Some(V)
    case "c1" => Some(C1)
    case "c2" => Some(C2)
    case "c3" => Some(C3)
    case "c4" => Some(C4)
    case "vlim" => Some(Vlimit)
    case "repellantStrength" => Some(RepellantStrength)
    case _ => None
  }

  /** Every offered selector string names its own parameter. */
  lemma SelectorRoundTrip(name: ParamName)
    ensures Selected(Selector(name)) == Some(name)
  {
  }

  /** The arithmetic a ChangeParameter step can apply. */
  datatype Op = Add | Sub | Mult | Div

  /** One ChangeParameter operation; division by zero leaves the value alone. */
  function Apply(op: Op, x: real, amount: real): real
  {
    match op
    case Add => x + amount
    case Sub => x - amount
    case Mult => x * amount
    case Div => if amount != 0.0 then x / amount else x
  }

  /** The live values after a ChangeParameter step on the parameter named by `selector`. */
  function ChangeLive(s: Snapshot, selector: string, op: Op, amount: real): (r: Snapshot)
    ensures Selected(selector).None? ==> r == s
    ensures Selected(selector).Some? ==>
      var p := Selected(selector).value;
      Get(r, p) == Apply(op, Get(s, p), amount) &&
      forall q :: q != p ==> Get(r, q) == Get(s, q)
    ensures op == Div && amount == 0.0 ==> r == s
  {
    match Selected(selector)
    case None => s
    case Some(p) => With(s, p, Apply(op, Get(s, p), amount))
  }

  /** Commits to these parameters restart the simulation; commits to the others do not. */
  predicate RestartsSimulation(name: ParamName)
  {
    IsSize(name) || IsPlacement(name)
  }

  /** The counts and the domain extent. */
  predicate IsSize(name: ParamName)
  {
    name.N? || name.R? || name.Width? || name.Height?
  }

  /** The components of the domain centre and of the start point. */
  predicate IsPlacement(name: ParamName)
  {
    name.CenterX? || name.CenterY? || name.StartX? || name.StartY?
  }

  /** The weights of attraction, repulsion, heading and randomness. */
  predicate IsWeight(name: ParamName)
  {
    name.C1? || name.C2? || name.C3? || name.C4?
  }

  /** The two components of one vector field. */
  predicate SameVector(a: ParamName, b: ParamName)
  {
    ((a.CenterX? || a.CenterY?) && (b.CenterX? || b.CenterY?)) ||
    ((a.StartX? || a.StartY?) && (b.StartX? || b.StartY?))
  }

  /**
   * The snapshot after committing `v` to `name` from the form: a scalar is saved alone,
   * while a vector component saves a copy of the whole live vector.
   */
  function Committed(live: Snapshot, saved: Snapshot, name: ParamName, v: real): (r: Snapshot)
    ensures Get(r, name) == v
    ensures forall q :: q != name && SameVector(q, name) ==> Get(r, q) == Get(live, q)
    ensures forall q :: q != name && !SameVector(q, name) ==> Get(r, q) == Get(saved, q)
  {
    match name
    case CenterX => saved.(centerX := v, centerY := live.centerY)
    case CenterY => saved.(centerX := live.centerX, centerY := v)
    case StartX => saved.(startX := v, startY := live.startY)
    case StartY => saved.(startX := live.startX, startY := v)
    case _ => With(saved, name, v)
  }

  /**
   * `r` is `saved` with the committed parameter copied from `live`; for a vector
   * component, both components of that vector are copied.
   */
  predicate SavedFrom(live: Snapshot, saved: Snapshot, r: Snapshot, name: ParamName)
  {
    var center := name.CenterX? || name.CenterY?;
    var start := name.StartX? || name.StartY?;
    r.N == (if name.N? then live.N else saved.N) &&
    r.R == (if name.R? then live.R else saved.R) &&
    r.width == (if name.Width? then live.width else saved.width) &&
    r.height == (if name.Height? then live.height else saved.height) &&
    r.centerX == (if center then live.centerX else saved.centerX) &&
    r.centerY == (if center then live.centerY else saved.centerY) &&
    r.startX == (if start then live.startX else saved.startX) &&
    r.startY == (if start then live.startY else saved.startY) &&
    r.P == (if name.P? then live.P else saved.P) &&
    r.V == (if name.V? then live.V else saved.V) &&
    r.c1 == (if name.C1? then live.c1 else saved.c1) &&
    r.c2 == (if name.C2? then live.c2 else saved.c2) &&
    r.c3 == (if name.C3? then live.c3 else saved.c3) &&
    r.c4 == (if name.C4? then live.c4 else saved.c4) &&
    r.vlimit == (if name.Vlimit? then live.vlimit else saved.vlimit) &&
    r.repellantStrength == (if name.RepellantStrength? then live.repellantStrength else saved.repellantStrength)
  }

  /** Saving from the live values right after the edit is `Committed`. */
  lemma SavedFromIsCommitted(live: Snapshot, edited: Snapshot, saved: Snapshot, r: Snapshot, name: ParamName, v: real)
    requires edited == With(live, name, v)
    requires SavedFrom(edited, saved, r, name)
    ensures r == Committed(live, saved, name, v)
  {
  }

  class Parameters {
    var N: real
    var R: real
    var width: real
    var height: real
    var center: Vector2
    var start: Vector2
    var P: real
    var V: real
    var c1: real
    var c2: real
    var c3: real
    var c4: real
    var vlimit: real
    var repellantStrength: real

    var saveN: real
    var saveR: real
    var saveWidth: real
    var saveHeight: real
    var saveCenter: Vector2
    var saveStart: Vector2
    var saveP: real
    var saveV: real
    var saveC1: real
    var saveC2: real
    var saveC3: real
    var saveC4: real
    var saveVlimit: real
    var saveRepellantStrength: real

    /** The four vector objects are distinct: no live vector is an alias of a saved one. */
    ghost predicate Valid()
      reads this`center, this`start, this`saveCenter, this`saveStart
    {
      center != start && center != saveCenter && center != saveStart &&
      start != saveCenter && start != saveStart && saveCenter != saveStart
    }

    /** The live values, which the simulation reads. */
    function Live(): Snapshot
      reads this`N, this`R, this`width, this`height, this`center, this`start, center, start
      reads this`P, this`V, this`c1, this`c2, this`c3, this`c4, this`vlimit, this`repellantStrength
    {
      Snapshot(N, R, width, height, center.x, center.y, start.x, start.y,
               P, V, c1, c2, c3, c4, vlimit, repellantStrength)
    }

    /** The committed values that `Reset` restores. */
    ghost function Saved(): Snapshot
      reads this`saveN, this`saveR, this`saveWidth, this`saveHeight, this`saveCenter, this`saveStart
      reads saveCenter, saveStart, this`saveP, this`saveV, this`saveC1, this`saveC2, this`saveC3, this`saveC4
      reads this`saveVlimit, this`saveRepellantStrength
    {
      Snapshot(saveN, saveR, saveWidth, saveHeight, saveCenter.x, saveCenter.y,
               saveStart.x, saveStart.y, saveP, saveV, saveC1, saveC2, saveC3, saveC4,
               saveVlimit, saveRepellantStrength)
    }

    /** Reads the initial values (already parsed from the form) and saves copies of them. */
    constructor (init: Snapshot)
      ensures Valid()
      ensures Live() == init && Saved() == init
      ensures fresh(center) && fresh(start) && fresh(saveCenter) && fresh(saveStart)
    {
      N, R, width, height := init.N, init.R, init.width, init.height;
      center := new Vector2(init.centerX, init.centerY);
      start := new Vector2(init.startX, init.startY);
      P, V, c1, c2, c3, c4 := init.P, init.V, init.c1, init.c2, init.c3, init.c4;
      vlimit, repellantStrength := init.vlimit, init.repellantStrength;
      saveN, saveR, saveWidth, saveHeight := init.N, init.R, init.width, init.height;
      saveCenter := new Vector2(init.centerX, init.centerY);
      saveStart := new Vector2(init.startX, init.startY);
      saveP, saveV, saveC1, saveC2, saveC3, saveC4 := init.P, init.V, init.c1, init.c2, init.c3, init.c4;
      saveVlimit, saveRepellantStrength := init.vlimit, init.repellantStrength;
    }

    /** Sets one live value of the simulation's shape (counts, domain, start point). */
    method SetShape(name: ParamName, v: real)
      requires Valid() && RestartsSimulation(name)
      modifies this`N, this`R, this`width, this`height, center, start
      ensures N == (if name.N? then v else old(N)) && R == (if name.R? then v else old(R))
      ensures width == (if name.Width? then v else old(width))
      ensures height == (if name.Height? then v else old(height))
      ensures center.x == (if name.CenterX? then v else old(center.x))
      ensures center.y == (if name.CenterY? then v else old(center.y))
      ensures start.x == (if name.StartX? then v else old(start.x))
      ensures start.y == (if name.StartY? then v else old(start.y))
    {
      match name
      case N => N := v;
      case R => R := v;
      case Width => width := v;
      case Height => height := v;
      case CenterX => center.SetX(v);
      case CenterY => center.SetY(v);
      case StartX => start.SetX(v);
      case StartY => start.SetY(v);
    }

    /** Sets one live value of the boids' dynamics (spreads, weights, limits). */
    method SetDynamics(name: ParamName, v: real)
      requires !RestartsSimulation(name)
      modifies this`P, this`V, this`c1, this`c2, this`c3, this`c4, this`vlimit, this`repellantStrength
      ensures P == (if name.P? then v else old(P)) && V == (if name.V? then v else old(V))
      ensures c1 == (if name.C1? then v else old(c1)) && c2 == (if name.C2? then v else old(c2))
      ensures c3 == (if name.C3? then v else old(c3)) && c4 == (if name.C4? then v else old(c4))
      ensures vlimit == (if name.Vlimit? then v else old(vlimit))
      ensures repellantStrength == (if name.RepellantStrength? then v else old(repellantStrength))
    {
      match name
      case P => P := v;
      case V => V := v;
      case C1 => c1 := v;
      case C2 => c2 := v;
      case C3 => c3 := v;
      case C4 => c4 := v;
      case Vlimit => vlimit := v;
      case RepellantStrength => repellantStrength := v;
    }

    /** Sets one live value; vector components are set in place on the live vector object. */
    method SetLive(name: ParamName, v: real)
      requires Valid()
      modifies this`N, this`R, this`width, this`height, this`P, this`V
      modifies this`c1, this`c2, this`c3, this`c4, this`vlimit, this`repellantStrength
      modifies center, start
      ensures Valid()
      ensures Live() == With(old(Live()), name, v)
      ensures Saved() == old(Saved())
    {
      ghost var live := Live();
      if RestartsSimulation(name) {
        SetShape(name, v);
      } else {
        SetDynamics(name, v);
      }
      EditedAtIsWith(live, Live(), name, v);
    }

    /** Saves the live count or extent `name`. */
    method SaveSize(name: ParamName)
      requires IsSize(name)
      modifies this`saveN, this`saveR, this`saveWidth, this`saveHeight
      ensures Live() == old(Live())
      ensures SavedFrom(Live(), old(Saved()), Saved(), name)
    {
      match name
      case N => saveN := N;
      case R => saveR := R;
      case Width => saveWidth := width;
      case Height => saveHeight := height;
    }

    /** Saves a fresh copy of the whole live vector that `name` is a component of. */
    method SavePlacement(name: ParamName)
      requires Valid() && IsPlacement(name)
      modifies this`saveCenter, this`saveStart
      ensures Valid() && Live() == old(Live())
      ensures SavedFrom(Live(), old(Saved()), Saved(), name)
    {
      match name
      case CenterX | CenterY => saveCenter := center.Clone();
      case StartX | StartY => saveStart := start.Clone();
    }

    /** Saves the live spread `name`. */
    method SaveSpread(name: ParamName)
      requires (name.P? || name.V?)
      modifies this`saveP, this`saveV
      ensures Live() == old(Live())
      ensures SavedFrom(Live(), old(Saved()), Saved(), name)
    {
      match name
      case P => saveP := P;
      case V => saveV := V;
    }

    /** Saves the live weight `name`. */
    method SaveWeight(name: ParamName)
      requires IsWeight(name)
      modifies this`saveC1, this`saveC2, this`saveC3, this`saveC4
      ensures Live() == old(Live())
      ensures SavedFrom(Live(), old(Saved()), Saved(), name)
    {
      match name
      case C1 => saveC1 := c1;
      case C2 => saveC2 := c2;
      case C3 => saveC3 := c3;
      case C4 => saveC4 := c4;
    }

    /** Saves the live speed limit or repellant strength. */
    method SaveLimit(name: ParamName)
      requires (name.Vlimit? || name.RepellantStrength?)
      modifies this`saveVlimit, this`saveRepellantStrength
      ensures Live() == old(Live())
      ensures SavedFrom(Live(), old(Saved()), Saved(), name)
    {
      match name
      case Vlimit => saveVlimit := vlimit;
      case RepellantStrength => saveRepellantStrength := repellantStrength;
    }

    /** Saves the live value of `name`; a vector component saves a fresh copy of the whole live vector. */
    method Save(name: ParamName)
      requires Valid()
      modifies this`saveN, this`saveR, this`saveWidth, this`saveHeight, this`saveCenter, this`saveStart
      modifies this`saveP, this`saveV, this`saveC1, this`saveC2, this`saveC3, this`saveC4
      modifies this`saveVlimit, this`saveRepellantStrength
      ensures Valid() && Live() == old(Live())
      ensures SavedFrom(Live(), old(Saved()), Saved(), name)
    {
      if IsSize(name) {
        SaveSize(name);
      } else if IsPlacement(name) {
        SavePlacement(name);
      } else if name.P? || name.V? {
        SaveSpread(name);
      } else if IsWeight(name) {
        SaveWeight(name);
      } else {
        SaveLimit(name);
      }
    }

    /**
     * The form's change handler for `name`: sets the live value, saves it, and
     * reports whether the handler restarts the simulation.
     */
    method Commit(name: ParamName, v: real) returns (restarts: bool)
      requires Valid()
      modifies this, center, start
      ensures Valid()
      ensures restarts == RestartsSimulation(name)
      ensures Live() == With(old(Live()), name, v)
      ensures Saved() == Committed(old(Live()), old(Saved()), name, v)
      ensures center == old(center) && start == old(start)
    {
      ghost var live, saved := Live(), Saved();
      SetLive(name, v);
      ghost var edited := Live();
      restarts := RestartsSimulation(name);
      Save(name);

      SavedFromIsCommitted(live, edited, saved, Saved(), name, v);
    }

    /** A ChangeParameter step: applies the operation to the live value only. */
    method Change(selector: string, op: Op, amount: real)
      requires Valid()
      modifies this, center, start
      ensures Valid()
      ensures Live() == ChangeLive(old(Live()), selector, op, amount)
      ensures Saved() == old(Saved())
      ensures center == old(center) && start == old(start)
      ensures saveCenter == old(saveCenter) && saveStart == old(saveStart)
    {
      match Selected(selector)
      case None =>
      case Some(p) =>
        SetLive(p, Apply(op, Get(Live(), p), amount));
    }

    /** Restores the counts. */
    method ResetCounts()
      modifies this`N, this`R
      ensures N == saveN && R == saveR
    {
      N, R := saveN, saveR;
    }

    /** Restores the domain; the live vectors become fresh copies of the saved ones. */
    method ResetDomain()
      modifies this`width, this`height, this`center, this`start
      ensures width == saveWidth && height == saveHeight
      ensures fresh(center) && fresh(start) && center != start
      ensures center.x == saveCenter.x && center.y == saveCenter.y
      ensures start.x == saveStart.x && start.y == saveStart.y
    {
      width, height := saveWidth, saveHeight;
      center := saveCenter.Clone();
      start := saveStart.Clone();
    }

    /** Restores the spreads and weights. */
    method ResetWeights()
      modifies this`P, this`V, this`c1, this`c2, this`c3, this`c4, this`vlimit, this`repellantStrength
      ensures P == saveP && V == saveV && c1 == saveC1 && c2 == saveC2
      ensures c3 == saveC3 && c4 == saveC4 && vlimit == saveVlimit
      ensures repellantStrength == saveRepellantStrength
    {
      P, V, c1, c2 := saveP, saveV, saveC1, saveC2;
      c3, c4, vlimit, repellantStrength := saveC3, saveC4, saveVlimit, saveRepellantStrength;
    }

    /** Restores every live value from the snapshot; the live vectors become fresh copies. */
    method Reset()
      requires Valid()
      modifies this
      ensures Valid()
      ensures Live() == old(Saved())
      ensures Saved() == old(Saved())
      ensures fresh(center) && fresh(start)
      ensures saveCenter == old(saveCenter) && saveStart == old(saveStart)
    {
      ResetCounts();
      ResetDomain();
      ResetWeights();
    }
  }

  /** The parameter object's state as values: live and committed snapshots. */
  datatype ParamState = ParamState(live: Snapshot, saved: Snapshot)

  /** What `Reset` does to the state. */
  function AfterReset(st: ParamState): (r: ParamState)
    ensures r.live == st.saved && r.saved == st.saved
  {
    ParamState(st.saved, st.saved)
  }

  /** Resetting twice leaves the same state as resetting once. */
  lemma ResetIdempotent(st: ParamState)
    ensures AfterReset(AfterReset(st)) == AfterReset(st)
  {
  }

  /**
   * After a reset, an in-place edit of the live centre (as a ChangeParameter step on
   * centerX does) leaves the committed snapshot unchanged: the live vector is a copy.
   */
  method ResetThenEditCenter(params: Parameters, x: real)
    requires params.Valid()
    modifies params, params.center, params.start
    ensures params.Valid()
    ensures params.Saved() == old(params.Saved())
    ensures params.Live() == With(old(params.Saved()), CenterX, x)
  {
    params.Reset();
    params.center.SetX(x);
  }
}
