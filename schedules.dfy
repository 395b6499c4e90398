/**
 * Reinforcement schedules: fixed ratio (FR), variable ratio (VR), fixed
 * interval (FI) and variable interval (VI).
 *
 * Each schedule is a class with the counters the environment drives through
 * `Reset`, `Tick` and `Check(isTarget)`. The abstract `State` datatype and its
 * transition functions are the specification the classes are proved against,
 * and the lemmas about schedule behaviour are stated over them.
 *
 * VR and VI redraw their threshold from `np.random.exponential(value)`; the
 * value that draw returned is passed in as `draw`.
 */
module Schedules {
  import opened Support

  datatype Kind = FR | VR | FI | VI

  /** `max(1, int(np.random.exponential(value)))`, given the exponential draw. */
  function Threshold(draw: real): (t: int)
    ensures t >= 1
    ensures draw >= 1.0 ==> t == draw.Floor
    ensures draw < 1.0 ==> t == 1
  {
    Max(1, PyInt(draw))
  }

  /** The observable counters of one schedule object. */
  datatype State =
    | FRState(value: int, count: int)
    | VRState(value: int, count: int, nextRatio: int)
    | FIState(value: int, elapsed: int, armed: bool)
    | VIState(value: int, elapsed: int, armed: bool, nextInterval: int)
  {
    function KindOf(): Kind
    {
      match this
      case FRState(_, _) => FR
      case VRState(_, _, _) => VR
      case FIState(_, _, _) => FI
      case VIState(_, _, _, _) => VI
    }

    predicate IsRatio() { FRState? || VRState? }

    /** The interval a time-based schedule waits before it arms. */
    function Interval(): int
      requires !IsRatio()
    {
      if FIState? then value else nextInterval
    }

    /** What `reset()` and construction keep invariant. */
    predicate Inv()
    {
      match this
      case FRState(v, c) => 0 <= c && (v >= 1 ==> c < v)
      case VRState(_, c, r) => 1 <= r && 0 <= c < r
      case FIState(v, e, a) => 0 <= e && (a ==> e >= v) && (e >= 1 && e >= v ==> a)
      case VIState(_, e, a, n) => 1 <= n && 0 <= e && (a <==> e >= n)
    }
  }

  /** The state `reset()` leaves (also the state right after construction). */
  function Initial(kind: Kind, value: int, draw: real): (s: State)
    ensures s.KindOf() == kind && s.value == value
    ensures s.Inv()
    ensures s.IsRatio() ==> s.count == 0
    ensures !s.IsRatio() ==> s.elapsed == 0 && !s.armed
  {
    match kind
    case FR => FRState(value, 0)
    case VR => VRState(value, 0, Threshold(draw))
    case FI => FIState(value, 0, false)
    case VI => VIState(value, 0, false, Threshold(draw))
  }

  /** `tick()`: ratio schedules ignore time; interval schedules count it and arm. */
  function Ticked(s: State): (s': State)
    ensures s'.KindOf() == s.KindOf() && s'.value == s.value
    ensures s.IsRatio() ==> s' == s
    ensures !s.IsRatio() ==> s'.elapsed == s.elapsed + 1 && s'.Interval() == s.Interval()
    ensures !s.IsRatio() ==> (s'.armed <==> s.armed || s.elapsed + 1 >= s.Interval())
    ensures s.Inv() ==> s'.Inv()
  {
    match s
    case FRState(_, _) => s
    case VRState(_, _, _) => s
    case FIState(v, e, a) => FIState(v, e + 1, a || e + 1 >= v)
    case VIState(v, e, a, n) => VIState(v, e + 1, a || e + 1 >= n, n)
  }

  /** The value `check(isTarget)` returns. */
  function Fires(s: State, isTarget: bool): (fired: bool)
    ensures fired ==> isTarget
    ensures !s.IsRatio() ==> (fired <==> s.armed && isTarget)
  {
    match s
    case FRState(v, c) => isTarget && c + 1 >= v
    case VRState(_, c, r) => isTarget && c + 1 >= r
    case FIState(_, _, a) => a && isTarget
    case VIState(_, _, a, _) => a && isTarget
  }

  /** The state `check(isTarget)` leaves; `draw` is used only when VR or VI redraws. */
  function AfterCheck(s: State, isTarget: bool, draw: real): (s': State)
    ensures s'.KindOf() == s.KindOf() && s'.value == s.value
    ensures !isTarget ==> s' == s
    ensures !s.IsRatio() && !Fires(s, isTarget) ==> s' == s
    ensures s.IsRatio() && isTarget && !Fires(s, isTarget) ==> s'.count == s.count + 1
    ensures s.IsRatio() && Fires(s, isTarget) ==> s'.count == 0
    ensures !s.IsRatio() && Fires(s, isTarget) ==> s'.elapsed == 0 && !s'.armed
    ensures s.VRState? && Fires(s, isTarget) ==> s'.nextRatio == Threshold(draw)
    ensures s.VIState? && Fires(s, isTarget) ==> s'.nextInterval == Threshold(draw)
    ensures s.Inv() ==> s'.Inv()
  {
    match s
    case FRState(v, c) =>
      if !isTarget then s else if c + 1 >= v then FRState(v, 0) else FRState(v, c + 1)
    case VRState(v, c, r) =>
      if !isTarget then s else if c + 1 >= r then VRState(v, 0, Threshold(draw)) else VRState(v, c + 1, r)
    case FIState(v, e, a) =>
      if a && isTarget then FIState(v, 0, false) else s
    case VIState(v, e, a, n) =>
      if a && isTarget then VIState(v, 0, false, Threshold(draw)) else s
  }

  /** The outcomes of `k` consecutive target responses to an FR schedule. */
  function TargetRun(s: State, k: nat): (r: seq<bool>)
    requires s.FRState?
    ensures |r| == k
    decreases k
  {
    if k == 0 then [] else [Fires(s, true)] + TargetRun(AfterCheck(s, true, 0.0), k - 1)
  }

  /** FR(n) from any reachable count reinforces exactly when the count reaches n. */
  lemma {:induction false} TargetRunFrom(n: int, c: int, k: nat, i: nat)
    requires n >= 1 && 0 <= c < n && i < k
    ensures TargetRun(FRState(n, c), k)[i] == ((c + i + 1) % n == 0)
    decreases k
  {
    var s := FRState(n, c);
    if i > 0 {
      var c' := if c + 1 >= n then 0 else c + 1;
      assert AfterCheck(s, true, 0.0) == FRState(n, c');
      assert TargetRun(s, k)[i] == TargetRun(FRState(n, c'), k - 1)[i - 1];
      TargetRunFrom(n, c', k - 1, i - 1);
      if c + 1 >= n {
        assert c + 1 == n;
        ModShift(n, i);
      }
    } else {
      assert TargetRun(s, k)[0] == Fires(s, true);
      if c + 1 < n {
        ModUnique(c + 1, n, 0, c + 1);
      } else {
        ModUnique(c + 1, n, 1, 0);
      }
    }
  }

  /** FR(n) fed only target responses after a reset reinforces on every n-th call and never otherwise. */
  lemma FREveryNth(n: int, k: nat, i: nat)
    requires n >= 1 && i < k
    ensures TargetRun(Initial(FR, n, 0.0), k)[i] == ((i + 1) % n == 0)
  {
    TargetRunFrom(n, 0, k, i);
  }

  /** The documented FR(3) pattern over nine target responses. */
  lemma FR3Pattern()
    ensures TargetRun(FRState(3, 0), 9) == [false, false, true, false, false, true, false, false, true]
  {
    forall i | 0 <= i < 9
      ensures TargetRun(FRState(3, 0), 9)[i] == ((i + 1) % 3 == 0)
    {
      TargetRunFrom(3, 0, 9, i);
    }
  }

  /** The outcomes of `k` steps that each tick an FI schedule and then check a target response. */
  function TimedRun(s: State, k: nat): (r: seq<bool>)
    requires s.FIState?
    ensures |r| == k
    decreases k
  {
    if k == 0 then []
    else
      var t := Ticked(s);
      [Fires(t, true)] + TimedRun(AfterCheck(t, true, 0.0), k - 1)
  }

  /** FI(n) responded to on every step reinforces on every n-th step. */
  lemma {:induction false} TimedRunFrom(n: int, e: int, k: nat, i: nat)
    requires n >= 1 && 0 <= e < n && i < k
    ensures TimedRun(FIState(n, e, false), k)[i] == ((e + i + 1) % n == 0)
    decreases k
  {
    var s := FIState(n, e, false);
    var t := Ticked(s);
    assert t == FIState(n, e + 1, e + 1 >= n);
    if i > 0 {
      var e' := if e + 1 >= n then 0 else e + 1;
      assert AfterCheck(t, true, 0.0) == FIState(n, e', false);
      assert TimedRun(s, k)[i] == TimedRun(FIState(n, e', false), k - 1)[i - 1];
      TimedRunFrom(n, e', k - 1, i - 1);
      if e + 1 >= n {
        assert e + 1 == n;
        ModShift(n, i);
      }
    } else {
      assert TimedRun(s, k)[0] == Fires(t, true);
      if e + 1 < n {
        ModUnique(e + 1, n, 0, e + 1);
      } else {
        ModUnique(e + 1, n, 1, 0);
      }
    }
  }

  lemma FIEveryNth(n: int, k: nat, i: nat)
    requires n >= 1 && i < k
    ensures TimedRun(Initial(FI, n, 0.0), k)[i] == ((i + 1) % n == 0)
  {
    TimedRunFrom(n, 0, k, i);
  }

  /** Non-target responses never change a schedule, however many there are. */
  function NonTargetRun(s: State, k: nat, draws: seq<real>): (s': State)
    requires |draws| >= k
  {
    if k == 0 then s else NonTargetRun(AfterCheck(s, false, draws[0]), k - 1, draws[1..])
  }

  lemma {:induction false} NonTargetsChangeNothing(s: State, k: nat, draws: seq<real>)
    requires |draws| >= k
    ensures NonTargetRun(s, k, draws) == s
    decreases k
  {
    if k > 0 {
      NonTargetsChangeNothing(s, k - 1, draws[1..]);
    }
  }

  /** Fixed ratio: reinforce every `value`-th target response. */
  class FRSchedule {
    const value: int
    var count: int

    function State(): State reads this { FRState(value, count) }

    constructor (value: int)
      ensures this.value == value && State() == Initial(FR, value, 0.0)
    {
      this.value := value;
      count := 0;
    }

    method Reset()
      modifies this
      ensures count == 0
    {
      count := 0;
    }

    method Check(isTarget: bool) returns (fired: bool)
      modifies this
      ensures !isTarget ==> !fired && count == old(count)
      ensures isTarget ==> fired == (old(count) + 1 >= value)
      ensures isTarget ==> count == if fired then 0 else old(count) + 1
    {
      if !isTarget {
        return false;
      }
      count := count + 1;
      if count >= value {
        count := 0;
        return true;
      }
      return false;
    }

    method Tick()
      ensures State() == old(State())
    {
    }
  }

  /** Variable ratio: like FR, but the ratio is redrawn after each reinforcement. */
  class VRSchedule {
    const value: int
    var count: int
    var nextRatio: int

    function State(): State reads this { VRState(value, count, nextRatio) }

    constructor (value: int, draw: real)
      ensures this.value == value && State() == Initial(VR, value, draw)
    {
      this.value := value;
      nextRatio := Threshold(draw);
      count := 0;
    }

    method Reset(draw: real)
      modifies this
      ensures nextRatio == Threshold(draw) && count == 0
    {
      SetNextRatio(draw);
      count := 0;
    }

    method SetNextRatio(draw: real)
      modifies this
      ensures nextRatio == Threshold(draw) && count == old(count)
    {
      nextRatio := Max(1, PyInt(draw));
    }

    method Check(isTarget: bool, draw: real) returns (fired: bool)
      modifies this
      ensures !isTarget ==> !fired && count == old(count) && nextRatio == old(nextRatio)
      ensures isTarget ==> fired == (old(count) + 1 >= old(nextRatio))
      ensures isTarget && fired ==> count == 0 && nextRatio == Threshold(draw)
      ensures isTarget && !fired ==> count == old(count) + 1 && nextRatio == old(nextRatio)
    {
      if !isTarget {
        return false;
      }
      count := count + 1;
      if count >= nextRatio {
        count := 0;
        SetNextRatio(draw);
        return true;
      }
      return false;
    }

    method Tick()
      ensures State() == old(State())
    {
    }
  }

  /** Fixed interval: reinforce the first target response once `value` ticks have elapsed. */
  class FISchedule {
    const value: int
    var elapsed: int
    var armed: bool

    function State(): State reads this { FIState(value, elapsed, armed) }

    constructor (value: int)
      ensures this.value == value && State() == Initial(FI, value, 0.0)
    {
      this.value := value;
      elapsed := 0;
      armed := false;
    }

    method Reset()
      modifies this
      ensures elapsed == 0 && !armed
    {
      elapsed := 0;
      armed := false;
    }

    method Check(isTarget: bool) returns (fired: bool)
      modifies this
      ensures fired == (old(armed) && isTarget)
      ensures fired ==> !armed && elapsed == 0
      ensures !fired ==> armed == old(armed) && elapsed == old(elapsed)
    {
      if armed && isTarget {
        armed := false;
        elapsed := 0;
        return true;
      }
      return false;
    }

    method Tick()
      modifies this
      ensures elapsed == old(elapsed) + 1
      ensures armed == (old(armed) || elapsed >= value)
    {
      elapsed := elapsed + 1;
      if elapsed >= value {
        armed := true;
      }
    }
  }

  /** Variable interval: like FI, but the interval is redrawn after each reinforcement. */
  class VISchedule {
    const value: int
    var elapsed: int
    var armed: bool
    var nextInterval: int

    function State(): State reads this { VIState(value, elapsed, armed, nextInterval) }

    constructor (value: int, draw: real)
      ensures this.value == value && State() == Initial(VI, value, draw)
    {
      this.value := value;
      elapsed := 0;
      armed := false;
      nextInterval := Threshold(draw);
    }

    method Reset(draw: real)
      modifies this
      ensures elapsed == 0 && !armed && nextInterval == Threshold(draw)
    {
      elapsed := 0;
      armed := false;
      SetNextInterval(draw);
    }

    method SetNextInterval(draw: real)
      modifies this
      ensures nextInterval == Threshold(draw) && elapsed == old(elapsed) && armed == old(armed)
    {
      nextInterval := Max(1, PyInt(draw));
    }

    method Check(isTarget: bool, draw: real) returns (fired: bool)
      modifies this
      ensures fired == (old(armed) && isTarget)
      ensures fired ==> !armed && elapsed == 0 && nextInterval == Threshold(draw)
      ensures !fired ==> armed == old(armed) && elapsed == old(elapsed) && nextInterval == old(nextInterval)
    {
      if armed && isTarget {
        armed := false;
        elapsed := 0;
        SetNextInterval(draw);
        return true;
      }
      return false;
    }

    method Tick()
      modifies this
      ensures elapsed == old(elapsed) + 1 && nextInterval == old(nextInterval)
      ensures armed == (old(armed) || elapsed >= nextInterval)
    {
      elapsed := elapsed + 1;
      if elapsed >= nextInterval {
        armed := true;
      }
    }
  }

  /** A reference to one schedule object, whichever class it is. */
  datatype Schedule =
    | FRRef(fr: FRSchedule)
    | VRRef(vr: VRSchedule)
    | FIRef(fi: FISchedule)
    | VIRef(vi: VISchedule)
  {
    function Obj(): object
    {
      match this
      case FRRef(o) => o
      case VRRef(o) => o
      case FIRef(o) => o
      case VIRef(o) => o
    }

    function State(): State
      reads Obj()
    {
      match this
      case FRRef(o) => o.State()
      case VRRef(o) => o.State()
      case FIRef(o) => o.State()
      case VIRef(o) => o.State()
    }

    function Kind(): Kind
    {
      match this
      case FRRef(_) => FR
      case VRRef(_) => VR
      case FIRef(_) => FI
      case VIRef(_) => VI
    }

    ghost predicate Valid()
      reads Obj()
    {
      State().Inv() && State().KindOf() == Kind()
    }

    method Reset(draw: real)
      modifies Obj()
      ensures State() == Initial(Kind(), old(State()).value, draw)
    {
      match this
      case FRRef(o) => o.Reset();
      case VRRef(o) => o.Reset(draw);
      case FIRef(o) => o.Reset();
      case VIRef(o) => o.Reset(draw);
    }

    method Tick()
      modifies Obj()
      ensures State() == Ticked(old(State()))
    {
      match this
      case FRRef(o) => o.Tick();
      case VRRef(o) => o.Tick();
      case FIRef(o) => o.Tick();
      case VIRef(o) => o.Tick();
    }

    method Check(isTarget: bool, draw: real) returns (fired: bool)
      modifies Obj()
      ensures fired == Fires(old(State()), isTarget)
      ensures State() == AfterCheck(old(State()), isTarget, draw)
    {
      match this
      case FRRef(o) => fired := o.Check(isTarget);
      case VRRef(o) => fired := o.Check(isTarget, draw);
      case FIRef(o) => fired := o.Check(isTarget);
      case VIRef(o) => fired := o.Check(isTarget, draw);
    }
  }

  /** The factory table, keyed by the upper-cased name. */
  function KindNamed(name: string): (k: Option<Kind>)
    ensures k == Some(FR) <==> Upper(name) == "FR"
    ensures k == Some(VR) <==> Upper(name) == "VR"
    ensures k == Some(FI) <==> Upper(name) == "FI"
    ensures k == Some(VI) <==> Upper(name) == "VI"
    ensures k == None <==> Upper(name) !in {"FR", "VR", "FI", "VI"}
  {
    var key := Upper(name);
    if key == "FR" then Some(FR)
    else if key == "VR" then Some(VR)
    else if key == "FI" then Some(FI)
    else if key == "VI" then Some(VI)
    else None
  }

  /** `create_schedule(schedule_type, value)`; the `ValueError` is the `Failure` case. */
  method CreateSchedule(name: string, value: int, draw: real) returns (r: Result<Schedule, string>)
    ensures r.Failure? <==> KindNamed(name).None?
    ensures r.Failure? ==> r.error == "Unknown schedule type: " + name + ". Must be one of ['FR', 'VR', 'FI', 'VI']"
    ensures r.Success? ==> fresh(r.value.Obj()) && r.value.Kind() == KindNamed(name).value
    ensures r.Success? ==> r.value.Valid() && r.value.State() == Initial(r.value.Kind(), value, draw)
  {
    var kind := KindNamed(name);
    match kind
    case None =>
      r := Failure("Unknown schedule type: " + name + ". Must be one of ['FR', 'VR', 'FI', 'VI']");
    case Some(FR) =>
      var o := new FRSchedule(value);
      r := Success(FRRef(o));
    case Some(VR) =>
      var o := new VRSchedule(value, draw);
      r := Success(VRRef(o));
    case Some(FI) =>
      var o := new FISchedule(value);
      r := Success(FIRef(o));
    case Some(VI) =>
      var o := new VISchedule(value, draw);
      r := Success(VIRef(o));
  }
}
